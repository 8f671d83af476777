/**
 * The older single-component visualiser of `src/components/common/Drone.tsx`:
 * one framework-visible sample updated by a simulation step each frame, a
 * reset, five manual sliders, start/pause and the mode buttons.
 */
module DroneVisualizer {
  import opened DroneTypes
  import opened Telemetry
  import DroneScene

  /**
   * The `rotationSpeed` given to each of the four propellers, in the order
   * FL, FR, BL, BR: `propSpeed` for one diagonal and its negation for the other.
   */
  function PropellerSpeeds(throttle: real): (r: seq<real>)
    ensures |r| == 4
    ensures forall i :: 0 <= i < 4 ==> r[i] == DroneScene.SpinRate([FL, FR, BL, BR][i], Idle, throttle)
    ensures r[3] == r[0] && r[1] == r[2] == -r[0]
    ensures 0.0 <= throttle <= 100.0 ==> 0.5 <= r[0] <= 2.5
  {
    var s := DroneScene.BaseSpeed(throttle);
    [s, -s, -s, s]
  }

  /** The `DroneVisualizer` state cells and the `timeRef` phase accumulator. */
  class Visualizer {
    const osc: Oscillators
    var imuData: IMUData
    var isSimulating: bool
    var simulationMode: Mode
    var time: real
    ghost var ticks: nat

    /**
     * The phase counts the simulation steps since mount or the last reset,
     * and the yaw stays within the yaw slider's range.
     */
    ghost predicate Valid()
      reads this
    {
      time == PhaseStep * ticks as real && 0.0 <= imuData.yaw <= FullTurn
    }

    predicate Running()
      reads this
    {
      isSimulating && simulationMode == Auto
    }

    constructor (osc: Oscillators)
      ensures Valid() && this.osc == osc && ticks == 0
      ensures imuData == InitialImu && !isSimulating && simulationMode == Manual && time == 0.0
    {
      this.osc := osc;
      imuData := InitialImu;
      isSimulating := false;
      simulationMode := Manual;
      time := 0.0;
      ticks := 0;
    }

    /** A frame of the simulation loop: one step while the loop is scheduled, nothing otherwise. */
    method AnimationFrame()
      requires Valid()
      modifies this`imuData, this`time, this`ticks
      ensures Valid()
      ensures old(Running()) ==>
        && ticks == old(ticks) + 1 && time == old(time) + PhaseStep
        && imuData == SimSample(osc, time, old(imuData).yaw)
      ensures !old(Running()) ==> imuData == old(imuData) && time == old(time) && ticks == old(ticks)
    {
      if isSimulating && simulationMode == Auto {
        time := time + PhaseStep;
        ticks := ticks + 1;
        imuData := SimSample(osc, time, imuData.yaw);
      }
    }

    /** `resetDrone`: stop, neutral sample, phase back to zero; the mode is kept. */
    method ResetDrone()
      modifies this`isSimulating, this`imuData, this`time, this`ticks
      ensures Valid() && ticks == 0
      ensures !isSimulating && imuData == InitialImu && time == 0.0
    {
      isSimulating := false;
      imuData := InitialImu;
      time := 0.0;
      ticks := 0;
    }

    /**
     * The five sliders. Each input only produces values between its `min`
     * and `max`: ±45 for pitch and roll, [0, 360] for yaw, [0, 10] for
     * altitude and [0, 100] for throttle.
     */
    method SetPitch(v: real)
      requires Valid() && -45.0 <= v <= 45.0
      modifies this`imuData
      ensures Valid() && imuData == old(imuData).(pitch := v)
    {
      imuData := imuData.(pitch := v);
    }

    method SetRoll(v: real)
      requires Valid() && -45.0 <= v <= 45.0
      modifies this`imuData
      ensures Valid() && imuData == old(imuData).(roll := v)
    {
      imuData := imuData.(roll := v);
    }

    method SetYaw(v: real)
      requires Valid() && 0.0 <= v <= 360.0
      modifies this`imuData
      ensures Valid() && imuData == old(imuData).(yaw := v)
    {
      imuData := imuData.(yaw := v);
    }

    method SetAltitude(v: real)
      requires Valid() && 0.0 <= v <= 10.0
      modifies this`imuData
      ensures Valid() && imuData == old(imuData).(altitude := v)
    {
      imuData := imuData.(altitude := v);
    }

    method SetThrottle(v: real)
      requires Valid() && 0.0 <= v <= 100.0
      modifies this`imuData
      ensures Valid() && imuData == old(imuData).(throttle := v)
    {
      imuData := imuData.(throttle := v);
    }

    /** The START/PAUSE button. */
    method ToggleSimulation()
      requires Valid()
      modifies this`isSimulating
      ensures Valid() && isSimulating == !old(isSimulating)
    {
      isSimulating := !isSimulating;
    }

    /** The Manual and Auto-Pilot buttons. */
    method SetSimulationMode(m: Mode)
      requires Valid()
      modifies this`simulationMode
      ensures Valid() && simulationMode == m
    {
      simulationMode := m;
    }
  }
}
