/** The transport helpers of `src-tauri/src/ultis.rs`. */
module Ultis {
  import opened Optional
  import opened AppCore

  /** `is_serial_connect`: the configuration names the ESP32 serial transport. */
  function IsSerialConnect(config: AppConfig): (r: bool)
    ensures r <==> config.connectType == Esp32
    ensures r ==> config.connectType != Stm32 && config.connectType != Pixhawk
  {
    config.connectType.Esp32?
  }

  /** The result of an operation and what it sent, in order. */
  datatype Effect = Effect(result: Result, sent: seq<Outgoing>)

  /** A line on the serial port: the text and a newline. */
  function Framed(text: string): (line: string)
    ensures |line| == |text| + 1 && line[..|text|] == text && line[|text|] == '\n'
  {
    text + "\n"
  }

  /**
   * What `send_serial_raw` does for a configuration, a link and the outcome
   * of the port write (`writeOk`).
   */
  function SerialRawEffect(config: AppConfig, conn: Option<DroneLink>, text: string, writeOk: bool): Effect
  {
    if !IsSerialConnect(config) then Effect(Err("Not implemented"), [])
    else match conn
      case Some(Esp32Link) =>
        if writeOk then Effect(Ok, [SerialWrite(Framed(text))]) else Effect(Err("Failed to write to port"), [])
      case Some(PixhawkLink) => Effect(Ok, [])
      case None => Effect(Ok, [])
  }

  /**
   * `send_serial_raw` sends at most the one framed line, and only to an ESP32
   * link under a serial configuration; it fails exactly when the
   * configuration is not serial or the write fails.
   */
  lemma SerialRawCases(config: AppConfig, conn: Option<DroneLink>, text: string, writeOk: bool)
    ensures var e := SerialRawEffect(config, conn, text, writeOk);
      && (!IsSerialConnect(config) ==> e == Effect(Err("Not implemented"), []))
      && (IsSerialConnect(config) && conn == Some(Esp32Link) ==>
            e == if writeOk then Effect(Ok, [SerialWrite(text + "\n")]) else Effect(Err("Failed to write to port"), []))
      && (IsSerialConnect(config) && conn != Some(Esp32Link) ==> e == Effect(Ok, []))
      && (e.sent != [] <==> IsSerialConnect(config) && conn == Some(Esp32Link) && writeOk)
      && (e.result.Err? <==> !IsSerialConnect(config) || (conn == Some(Esp32Link) && !writeOk))
  {
  }

  /** `send_serial_raw`. */
  method SendSerialRaw(state: AppState, text: string, writeOk: bool) returns (r: Result)
    modifies state`outbox
    ensures var e := SerialRawEffect(state.config, state.conn, text, writeOk);
      r == e.result && state.outbox == old(state.outbox) + e.sent
  {
    if IsSerialConnect(state.config) {
      if state.conn.Some? {
        match state.conn.value
        case Esp32Link =>
          var msg := text + "\n";
          if !writeOk {
            return Err("Failed to write to port");
          }
          state.outbox := state.outbox + [SerialWrite(msg)];
        case PixhawkLink =>
      }
      return Ok;
    }
    return Err("Not implemented");
  }

  /** `clear_connect_device`: drops the link and never fails. */
  method ClearConnectDevice(state: AppState) returns (r: Result)
    modifies state`conn
    ensures state.conn == None && r == Ok
  {
    state.conn := None;
    r := Ok;
  }
}
