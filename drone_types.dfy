/** The shared drone types of `src/components/common/Drone/type.ts`. */
module DroneTypes {

  /** The four propeller positions: front/back, left/right. */
  datatype MotorPosition = FL | FR | BL | BR

  datatype MotorStatus = Idle | Testing | Error

  /** One entry of the motor registry (the source field `label` is a Dafny keyword, hence `labelText`). */
  datatype MotorState = MotorState(id: MotorPosition, labelText: string, rpm: real, status: MotorStatus, temp: real)

  /** One attitude/altitude/throttle sample (`IMUData`); degrees, metres and percent. */
  datatype IMUData = IMUData(pitch: real, roll: real, yaw: real, altitude: real, throttle: real)

  /** The simulation mode toggle shared by both visualisation screens. */
  datatype Mode = Manual | Auto

  /** `Record<MotorPosition, MotorState>`: a registry has an entry for every position. */
  ghost predicate IsRegistry(motors: map<MotorPosition, MotorState>)
  {
    forall p: MotorPosition :: p in motors
  }
}
