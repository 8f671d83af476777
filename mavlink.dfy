/**
 * The part of the MAVLink common message set the motor test uses: the frame
 * header and the COMMAND_LONG message (message id 76) with its default fields.
 */
module Mavlink {

  /** The command id of MAV_CMD_DO_MOTOR_TEST in the common message set. */
  const MavCmdDoMotorTest: nat := 209

  datatype MavHeader = MavHeader(systemId: nat, componentId: nat, sequence: nat)

  /** COMMAND_LONG's payload; the seven parameters are 32-bit floats on the wire. */
  datatype CommandLongData = CommandLongData(
    param1: real, param2: real, param3: real, param4: real,
    param5: real, param6: real, param7: real,
    command: nat, targetSystem: nat, targetComponent: nat, confirmation: nat)

  datatype MavMessage = CommandLong(data: CommandLongData)

  /** `COMMAND_LONG_DATA::default()`: every field zero. */
  const DefaultCommandLong: CommandLongData := CommandLongData(0.0, 0.0, 0.0, 0.0, 0.0, 0.0, 0.0, 0, 0, 0, 0)
}
