/** The constant tables of `src/constants/common.constant.ts`. */
module Constants {
  import opened Optional
  import opened DroneTypes

  /** The keys of `ROUTES`. */
  datatype Route = Overview | CaliSensor | MotorTest | PidTunning | InputRc

  /** `ROUTES`: the path of each screen. */
  function RoutePath(r: Route): string
  {
    match r
    case Overview => "/"
    case CaliSensor => "/cali-sensor"
    case MotorTest => "/motor-test"
    case PidTunning => "/pid-tunning"
    case InputRc => "/input-rc"
  }

  /** The screen a path leads to, if any. */
  function RouteOf(path: string): (r: Option<Route>)
    ensures r.Some? ==> RoutePath(r.value) == path
  {
    if path == "/" then Some(Overview)
    else if path == "/cali-sensor" then Some(CaliSensor)
    else if path == "/motor-test" then Some(MotorTest)
    else if path == "/pid-tunning" then Some(PidTunning)
    else if path == "/input-rc" then Some(InputRc)
    else None
  }

  /** Every route's path leads back to it, so no two routes share a path; the overview is the root. */
  lemma RoutesDistinct(r: Route)
    ensures RouteOf(RoutePath(r)) == Some(r)
    ensures RoutePath(Overview) == "/"
  {
  }

  /** `DRONE_MOTORS`: the initial motor registry. */
  const DroneMotors: map<MotorPosition, MotorState> := map[
    FL := MotorState(FL, "Front Left", 0.0, Idle, 24.0),
    FR := MotorState(FR, "Front Right", 0.0, Idle, 24.0),
    BL := MotorState(BL, "Back Left", 0.0, Idle, 24.0),
    BR := MotorState(BR, "Back Right", 0.0, Idle, 24.0)]

  /**
   * The initial registry has exactly the four positions as keys, every
   * entry's id is its key, every motor is idle at 0 rpm and 24 degrees,
   * and no two motors share a label.
   */
  lemma DroneMotorsWellFormed()
    ensures IsRegistry(DroneMotors)
    ensures DroneMotors.Keys == {FL, FR, BL, BR}
    ensures forall p :: p in DroneMotors ==> DroneMotors[p].id == p
    ensures forall p :: p in DroneMotors ==>
      DroneMotors[p].status == Idle && DroneMotors[p].rpm == 0.0 && DroneMotors[p].temp == 24.0
    ensures forall p, q :: p in DroneMotors && q in DroneMotors && DroneMotors[p].labelText == DroneMotors[q].labelText ==> p == q
  {
    forall p: MotorPosition
      ensures p in DroneMotors
    {
      match p
      case FL =>
      case FR =>
      case BL =>
      case BR =>
    }
  }
}
