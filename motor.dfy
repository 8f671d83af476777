/**
 * The motor test command of `src-tauri/src/hardware/motor.rs`: motor naming,
 * the rate check, the serial payload, the MAVLink motor-test command, and the
 * dispatch on the configured transport and the open link.
 */
module HardwareMotor {
  import opened Optional
  import opened Decimal
  import opened Mavlink
  import opened AppCore
  import opened Ultis

  /** `u32`. */
  type U32 = n: nat | n < 0x1_0000_0000

  datatype MotorPosition = Motor1 | Motor2 | Motor3 | Motor4

  /** `as_str`. */
  function AsStr(p: MotorPosition): string
  {
    match p
    case Motor1 => "motor1"
    case Motor2 => "motor2"
    case Motor3 => "motor3"
    case Motor4 => "motor4"
  }

  /** `as_idx`: the 1-based motor instance. */
  function AsIdx(p: MotorPosition): (i: nat)
    ensures 1 <= i <= 4
    ensures AsStr(p) == "motor" + [DigitChar(i)]
  {
    match p
    case Motor1 => 1
    case Motor2 => 2
    case Motor3 => 3
    case Motor4 => 4
  }

  /** Both mappings are injective: two positions with the same name or index are the same position. */
  lemma PositionMappingsInjective(p: MotorPosition, q: MotorPosition)
    ensures AsStr(p) == AsStr(q) ==> p == q
    ensures AsIdx(p) == AsIdx(q) ==> p == q
  {
  }

  /** `resolve_id`. */
  function ResolveId(p: MotorPosition, isSerialConnect: bool): (id: string)
    ensures isSerialConnect ==> id == AsStr(p) + "test"
    ensures !isSerialConnect ==> id == AsStr(p)
  {
    if isSerialConnect then
      match p
      case Motor1 => "motor1test"
      case Motor2 => "motor2test"
      case Motor3 => "motor3test"
      case Motor4 => "motor4test"
    else AsStr(p)
  }

  /** `Motor { name, id }`. */
  datatype Motor = Motor(name: string, id: MotorPosition)

  /** `Motor::new`. */
  function NewMotor(name: string, id: MotorPosition): (m: Motor)
    ensures MotorName(m) == name && MotorId(m) == AsStr(id)
  {
    Motor(name, id)
  }

  /** `Motor::name`. */
  function MotorName(m: Motor): string
  {
    m.name
  }

  /** `Motor::id`: the name of the motor's position. */
  function MotorId(m: Motor): string
  {
    AsStr(m.id)
  }

  /** The largest accepted test rate, in percent. */
  const MaxRate: nat := 100

  /** The pulse width, in microseconds, for an accepted rate: 1000 plus ten per percent. */
  function PulseWidth(rate: nat): (us: nat)
    requires rate <= MaxRate
    ensures 1000 <= us <= 2000
    ensures (us - 1000) % 10 == 0 && (us - 1000) / 10 == rate
  {
    1000 + rate * 10
  }

  /** The serial command `"<name>::<pulse>"`. */
  function Payload(p: MotorPosition, rate: nat): string
    requires rate <= MaxRate
  {
    ResolveId(p, false) + "::" + NatToString(PulseWidth(rate))
  }

  /** Decodes a serial command back into the motor and the rate. */
  function ParsePayload(s: string): Option<(MotorPosition, nat)>
  {
    if |s| < 9 || s[..5] != "motor" || s[6..8] != "::" || !AllDigits(s[8..]) then None
    else
      var pos :=
        if s[5] == '1' then Some(Motor1) else if s[5] == '2' then Some(Motor2)
        else if s[5] == '3' then Some(Motor3) else if s[5] == '4' then Some(Motor4) else None;
      var us := ParseDigits(s[8..]);
      if pos.None? || us < 1000 || (us - 1000) % 10 != 0 || (us - 1000) / 10 > MaxRate then None
      else Some((pos.value, (us - 1000) / 10))
  }

  /** The serial command names its motor and rate unambiguously: decoding it gives them back. */
  lemma PayloadRoundTrip(p: MotorPosition, rate: nat)
    requires rate <= MaxRate
    ensures ParsePayload(Payload(p, rate)) == Some((p, rate))
  {
    var s := Payload(p, rate);
    var digits := NatToString(PulseWidth(rate));
    assert s == AsStr(p) + "::" + digits;
    assert s[..5] == "motor" && s[5] == DigitChar(AsIdx(p)) && s[6..8] == "::";
    assert s[8..] == digits;
    ParseNatToString(PulseWidth(rate));
  }

  /** Two accepted commands are equal only for the same motor and rate. */
  lemma PayloadInjective(p: MotorPosition, r1: nat, q: MotorPosition, r2: nat)
    requires r1 <= MaxRate && r2 <= MaxRate
    requires Payload(p, r1) == Payload(q, r2)
    ensures p == q && r1 == r2
  {
    PayloadRoundTrip(p, r1);
    PayloadRoundTrip(q, r2);
  }

  /** `sub` occurs in `s` starting at index `i`. */
  predicate OccursAt(sub: string, s: string, i: nat)
  {
    i + |sub| <= |s| && s[i..i + |sub|] == sub
  }

  /** The serial command never carries the "test" suffix: it has no letter 'e' at all. */
  lemma PayloadHasNoTestSuffix(p: MotorPosition, rate: nat)
    requires rate <= MaxRate
    ensures 'e' !in Payload(p, rate)
    ensures forall i: nat :: !OccursAt("test", Payload(p, rate), i)
  {
    var s := Payload(p, rate);
    var digits := NatToString(PulseWidth(rate));
    assert s == AsStr(p) + "::" + digits;
    forall i | 0 <= i < |s|
      ensures s[i] != 'e'
    {
      if i >= 8 {
        assert s[i] == digits[i - 8];
      }
    }
    forall i: nat
      ensures !OccursAt("test", s, i)
    {
      if i + 4 <= |s| {
        assert s[i..i + 4][1] == s[i + 1];
      }
    }
  }

  /** The header the motor test is sent with: a ground station (system 255). */
  const MotorTestHeader: MavHeader := MavHeader(255, 0, 0)

  /** The COMMAND_LONG that asks the flight controller to run one motor. */
  function MotorTestCommand(p: MotorPosition, rate: nat): MavMessage
  {
    CommandLong(DefaultCommandLong.(
      param1 := AsIdx(p) as real,
      param2 := 0.0,
      param3 := rate as real,
      param4 := 2.0,
      targetSystem := 1,
      targetComponent := 1,
      command := MavCmdDoMotorTest))
  }

  /**
   * MAV_CMD_DO_MOTOR_TEST for motor instance `as_idx`, throttle type 0
   * (percent), the rate as throttle, a 2 second timeout, to system 1
   * component 1; every other field keeps its default.
   */
  lemma MotorTestCommandFields(p: MotorPosition, rate: nat)
    ensures var d := MotorTestCommand(p, rate).data;
      && d.command == 209
      && d.param1 == AsIdx(p) as real && 1.0 <= d.param1 <= 4.0
      && d.param2 == 0.0 && d.param3 == rate as real && d.param4 == 2.0
      && d.param5 == 0.0 && d.param6 == 0.0 && d.param7 == 0.0
      && d.targetSystem == 1 && d.targetComponent == 1 && d.confirmation == 0
    ensures MotorTestHeader.systemId == 255
  {
  }

  /**
   * What `Motor::test` does: the result and what it sends, for the configured
   * transport, the open link, and the outcomes of a serial write (`writeOk`)
   * and of a MAVLink send (`sendOk`).
   */
  function TestEffect(config: AppConfig, conn: Option<DroneLink>, p: MotorPosition, rate: U32,
                      writeOk: bool, sendOk: bool): Effect
  {
    if rate > MaxRate then Effect(Err("Capacity is too large!"), [])
    else if IsSerialConnect(config) then SerialRawEffect(config, conn, Payload(p, rate), writeOk)
    else match conn
      case Some(PixhawkLink) =>
        Effect(Ok, if sendOk then [MavlinkSend(MotorTestHeader, MotorTestCommand(p, rate))] else [])
      case Some(Esp32Link) => SerialRawEffect(config, conn, Payload(p, rate), writeOk)
      case None => Effect(Err("No active connection found!"), [])
  }

  /** A rate above 100 is refused before anything is sent. */
  lemma TestRejectsLargeRate(config: AppConfig, conn: Option<DroneLink>, p: MotorPosition, rate: U32,
                             writeOk: bool, sendOk: bool)
    ensures TestEffect(config, conn, p, rate, writeOk, sendOk).sent != [] ==> rate <= MaxRate
    ensures rate > MaxRate <==> TestEffect(config, conn, p, rate, writeOk, sendOk) == Effect(Err("Capacity is too large!"), [])
  {
  }

  /**
   * Under the ESP32 configuration, an accepted rate sends at most the framed
   * serial command and only over an ESP32 link; with any other link, or none,
   * nothing is sent and the result is Ok.
   */
  lemma TestOverSerial(config: AppConfig, conn: Option<DroneLink>, p: MotorPosition, rate: U32,
                       writeOk: bool, sendOk: bool)
    requires IsSerialConnect(config) && rate <= MaxRate
    ensures var e := TestEffect(config, conn, p, rate, writeOk, sendOk);
      && (conn == Some(Esp32Link) && writeOk ==> e == Effect(Ok, [SerialWrite(Payload(p, rate) + "\n")]))
      && (conn == Some(Esp32Link) && !writeOk ==> e == Effect(Err("Failed to write to port"), []))
      && (conn != Some(Esp32Link) ==> e == Effect(Ok, []))
  {
  }

  /**
   * Under any other configuration: a Pixhawk link gets the motor-test command
   * and the result is Ok whether or not the send worked; with no link the
   * test fails; an ESP32 link makes `send_serial_raw` refuse, since it
   * checks the configuration again, so nothing reaches that port.
   */
  lemma TestOverMavlink(config: AppConfig, conn: Option<DroneLink>, p: MotorPosition, rate: U32,
                        writeOk: bool, sendOk: bool)
    requires !IsSerialConnect(config) && rate <= MaxRate
    ensures var e := TestEffect(config, conn, p, rate, writeOk, sendOk);
      && (conn == Some(PixhawkLink) ==>
            e.result == Ok &&
            e.sent == if sendOk then [MavlinkSend(MotorTestHeader, MotorTestCommand(p, rate))] else [])
      && (conn == None ==> e == Effect(Err("No active connection found!"), []))
      && (conn == Some(Esp32Link) ==> e == Effect(Err("Not implemented"), []))
  {
  }

  /** Every serial line the test sends is the framed command of this motor and rate. */
  lemma TestSerialLines(config: AppConfig, conn: Option<DroneLink>, p: MotorPosition, rate: U32,
                        writeOk: bool, sendOk: bool, i: nat)
    requires i < |TestEffect(config, conn, p, rate, writeOk, sendOk).sent|
    requires TestEffect(config, conn, p, rate, writeOk, sendOk).sent[i].SerialWrite?
    ensures rate <= MaxRate
    ensures var line := TestEffect(config, conn, p, rate, writeOk, sendOk).sent[i].text;
      ParsePayload(line[..|line| - 1]) == Some((p, rate)) && line[|line| - 1] == '\n'
  {
    var line := TestEffect(config, conn, p, rate, writeOk, sendOk).sent[i].text;
    assert line == Payload(p, rate) + "\n";
    assert line[..|line| - 1] == Payload(p, rate);
    PayloadRoundTrip(p, rate);
  }

  /** `Motor::test`, on the shared state. The `id` argument of the source is unused and left out. */
  method Test(m: Motor, state: AppState, rate: U32, writeOk: bool, sendOk: bool) returns (r: Result)
    modifies state`outbox
    ensures var e := TestEffect(state.config, state.conn, m.id, rate, writeOk, sendOk);
      r == e.result && state.outbox == old(state.outbox) + e.sent
  {
    if rate > MaxRate {
      return Err("Capacity is too large!");
    }

    var isSerial := IsSerialConnect(state.config);

    if isSerial {
      r := SendSerialRaw(state, Payload(m.id, rate), writeOk);
    } else {
      match state.conn
      case Some(PixhawkLink) =>
        if sendOk {
          state.outbox := state.outbox + [MavlinkSend(MotorTestHeader, MotorTestCommand(m.id, rate))];
        }
        r := Ok;
      case Some(Esp32Link) =>
        r := SendSerialRaw(state, Payload(m.id, rate), writeOk);
      case None =>
        r := Err("No active connection found!");
    }
  }
}
