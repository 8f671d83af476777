/**
 * The per-frame render consumer of `src/components/common/Drone/index.tsx`:
 * it reads the high-rate sample and the motor registry, writes the group's
 * rotation and height, and the four propeller speed refs.
 */
module DroneScene {
  import opened Optional
  import opened DroneTypes

  /** The propeller speed magnitude for a throttle percentage. */
  function BaseSpeed(throttle: real): (r: real)
    ensures 0.0 <= throttle <= 100.0 ==> 0.5 <= r <= 2.5
  {
    0.5 + (throttle / 100.0) * 2.0
  }

  /** A higher throttle never spins a propeller slower; the range ends are 0.5 and 2.5. */
  lemma BaseSpeedMonotone(t1: real, t2: real)
    requires t1 <= t2
    ensures BaseSpeed(t1) <= BaseSpeed(t2)
    ensures BaseSpeed(0.0) == 0.5 && BaseSpeed(100.0) == 2.5
  {
  }

  /** The speed magnitude of a motor under test. */
  const TestSpeed: real := 5.0

  /**
   * The mounted spin direction: the front-left/back-right diagonal spins one
   * way, the front-right/back-left diagonal the other.
   */
  function Direction(p: MotorPosition): (d: real)
    ensures d == 1.0 || d == -1.0
    ensures d == 1.0 <==> p in {FL, BR}
  {
    match p
    case FL => 1.0
    case BR => 1.0
    case FR => -1.0
    case BL => -1.0
  }

  /** The spin rate of the propeller at `p`: a fixed test rate while testing, otherwise the throttle-derived rate. */
  function SpinRate(p: MotorPosition, status: MotorStatus, throttle: real): real
  {
    Direction(p) * (if status == Testing then TestSpeed else BaseSpeed(throttle))
  }

  /** The spin rate's sign is the mounted direction, and a test ignores the throttle. */
  lemma SpinRateCases(p: MotorPosition, status: MotorStatus, throttle: real)
    ensures status == Testing ==> SpinRate(p, status, throttle) == 5.0 * Direction(p)
    ensures status != Testing ==> SpinRate(p, status, throttle) == BaseSpeed(throttle) * Direction(p)
    ensures status != Testing && 0.0 <= throttle ==>
      (Direction(p) == 1.0 ==> SpinRate(p, status, throttle) > 0.0) &&
      (Direction(p) == -1.0 ==> SpinRate(p, status, throttle) < 0.0)
  {
  }

  /** Two motors in the same status spin at the same speed, mirrored across the diagonals. */
  lemma SharedStatusMirrors(status: MotorStatus, throttle: real)
    ensures SpinRate(FR, status, throttle) == SpinRate(BL, status, throttle)
    ensures SpinRate(FR, status, throttle) == -SpinRate(FL, status, throttle)
    ensures SpinRate(FL, status, throttle) == SpinRate(BR, status, throttle)
  {
  }

  /** The scene's rotation for an attitude angle: negated and converted from degrees to radians. */
  function Rotation(degrees: real, pi: real): real
  {
    -degrees * (pi / 180.0)
  }

  /** The rotation is invertible: the attitude angle can be read back from it. */
  lemma RotationRoundTrip(degrees: real, pi: real)
    requires pi > 0.0
    ensures -Rotation(degrees, pi) * (180.0 / pi) == degrees
    ensures Rotation(degrees, pi) == 0.0 <==> degrees == 0.0
    ensures degrees > 0.0 <==> Rotation(degrees, pi) < 0.0
  {
  }

  /** `isSelected` of the propeller `id`. */
  function IsSelected(selectedMotor: Option<MotorPosition>, id: MotorPosition): bool
  {
    selectedMotor == Some(id)
  }

  /** At most one propeller shows as selected, and it is the selected motor. */
  lemma AtMostOneSelected(selectedMotor: Option<MotorPosition>, a: MotorPosition, b: MotorPosition)
    ensures IsSelected(selectedMotor, a) && IsSelected(selectedMotor, b) ==> a == b
    ensures selectedMotor == None ==> !IsSelected(selectedMotor, a)
  {
  }

  /** Whether the propeller at `id` forwards clicks: the front-left one is given no `onClick`. */
  function HasClickHandler(id: MotorPosition): (r: bool)
    ensures r <==> id in {FR, BL, BR}
  {
    match id
    case FL => false
    case FR => true
    case BL => true
    case BR => true
  }

  /**
   * The drone group and the four speed refs. `groupMounted` stands for
   * `groupRef.current` being set; `renderedAltitude` is the `altitude`
   * the component read from the sample when it last rendered.
   */
  class DroneModel {
    const pi: real
    var groupMounted: bool
    var rotationX: real
    var rotationY: real
    var rotationZ: real
    var positionY: real
    var renderedAltitude: real
    var flSpeed: real
    var frSpeed: real
    var blSpeed: real
    var brSpeed: real

    /**
     * The first render, with the sample `imuRef` holds at that moment: it
     * reads `altitude` before any commit can attach the group.
     */
    constructor (pi: real, sample: IMUData)
      ensures this.pi == pi && !groupMounted
      ensures renderedAltitude == sample.altitude
      ensures rotationX == rotationY == rotationZ == positionY == 0.0
      ensures flSpeed == frSpeed == blSpeed == brSpeed == 0.0
    {
      this.pi := pi;
      groupMounted := false;
      rotationX, rotationY, rotationZ, positionY := 0.0, 0.0, 0.0, 0.0;
      renderedAltitude := sample.altitude;
      flSpeed, frSpeed, blSpeed, brSpeed := 0.0, 0.0, 0.0, 0.0;
    }

    /**
     * A later render of the component: it reads `altitude` from the sample
     * as it is now. The component is memoised, so this happens only when
     * its props change.
     */
    method Render(sample: IMUData)
      modifies this`renderedAltitude
      ensures renderedAltitude == sample.altitude
    {
      renderedAltitude := sample.altitude;
    }

    /** The commit that attaches the group, setting `groupRef.current`. */
    method Mount()
      modifies this`groupMounted
      ensures groupMounted
    {
      groupMounted := true;
    }

    /**
     * The `useFrame` callback. Without a mounted group nothing changes;
     * otherwise the rotations come from the current sample, the height from
     * the altitude read at render time, and each speed ref is the spin
     * rate of its motor.
     */
    method Frame(sample: IMUData, motors: map<MotorPosition, MotorState>)
      requires IsRegistry(motors)
      modifies this
      ensures groupMounted == old(groupMounted) && renderedAltitude == old(renderedAltitude)
      ensures !groupMounted ==>
        && rotationX == old(rotationX) && rotationY == old(rotationY) && rotationZ == old(rotationZ)
        && positionY == old(positionY)
        && flSpeed == old(flSpeed) && frSpeed == old(frSpeed) && blSpeed == old(blSpeed) && brSpeed == old(brSpeed)
      ensures groupMounted ==>
        && rotationX == Rotation(sample.pitch, pi)
        && rotationZ == Rotation(sample.roll, pi)
        && rotationY == Rotation(sample.yaw, pi)
        && positionY == renderedAltitude
        && flSpeed == SpinRate(FL, motors[FL].status, sample.throttle)
        && frSpeed == SpinRate(FR, motors[FR].status, sample.throttle)
        && blSpeed == SpinRate(BL, motors[BL].status, sample.throttle)
        && brSpeed == SpinRate(BR, motors[BR].status, sample.throttle)
    {
      if groupMounted {
        rotationX := -sample.pitch * (pi / 180.0);
        rotationZ := -sample.roll * (pi / 180.0);
        rotationY := -sample.yaw * (pi / 180.0);
        positionY := renderedAltitude;

        var baseSpeed := 0.5 + (sample.throttle / 100.0) * 2.0;

        flSpeed := if motors[FL].status == Testing then 5.0 else baseSpeed;
        frSpeed := if motors[FR].status == Testing then -5.0 else -baseSpeed;
        blSpeed := if motors[BL].status == Testing then -5.0 else -baseSpeed;
        brSpeed := if motors[BR].status == Testing then 5.0 else baseSpeed;
      }
    }
  }
}
