/**
 * The back end's shared state (`src-tauri/src/core/mod.rs`) and its
 * configuration (`src-tauri/src/core/config.rs`). The connection handles
 * are abstract; what is sent over them is recorded in an outbox.
 */
module AppCore {
  import opened Optional
  import opened Mavlink

  datatype ConnectType = Esp32 | Stm32 | Pixhawk

  datatype AppConfig = AppConfig(baudRate: nat, port: string, connectType: ConnectType)

  /** The open link: a MAVLink connection to a Pixhawk or a serial port to an ESP32. */
  datatype DroneLink = PixhawkLink | Esp32Link

  /** What the back end handed to a link: bytes on the serial port, or a MAVLink frame. */
  datatype Outgoing = SerialWrite(text: string) | MavlinkSend(header: MavHeader, message: MavMessage)

  /** `Result<(), String>`. */
  datatype Result = Ok | Err(message: string)

  /** `AppState`; `outbox` is everything sent so far, in order. */
  class AppState {
    var conn: Option<DroneLink>
    var config: AppConfig
    var isConnected: bool
    var outbox: seq<Outgoing>

    /** `AppState::new`: no link, not connected, nothing sent. */
    constructor (config: AppConfig)
      ensures this.config == config && conn == None && !isConnected && outbox == []
    {
      this.config := config;
      conn := None;
      isConnected := false;
      outbox := [];
    }
  }
}
