/**
 * The overview screen's dual-rate telemetry pipeline: every animation frame
 * advances the phase and replaces the high-rate sample (`imuRef`), and a
 * copy is published to the UI snapshot (`uiData`) only when more than 100 ms
 * have passed since the last publish.
 */
module Overview {
  import opened DroneTypes
  import opened Telemetry

  /** The minimum time, in milliseconds, between two UI publishes. */
  const PublishInterval: real := 100.0

  /** The four cells the frame callback touches: `timeRef`, `imuRef`, `uiData`, `lastUiUpdateRef`. */
  datatype SimState = SimState(time: real, imu: IMUData, ui: IMUData, lastUi: real)

  /** The state at mount: phase 0, both sample and snapshot neutral, no publish yet. */
  const Initial: SimState := SimState(0.0, InitialImu, InitialImu, 0.0)

  /** The publish gate, strict: exactly 100 ms after the last publish is not yet due. */
  predicate PublishDue(s: SimState, now: real)
  {
    now - s.lastUi > PublishInterval
  }

  /** One run of the `animate` callback with frame timestamp `now`. */
  function Animate(osc: Oscillators, s: SimState, now: real): (r: SimState)
    ensures r.time == s.time + PhaseStep
    ensures r.imu == SimSample(osc, r.time, s.imu.yaw)
    ensures PublishDue(s, now) ==> r.ui == r.imu && r.lastUi == now
    ensures !PublishDue(s, now) ==> r.ui == s.ui && r.lastUi == s.lastUi
    ensures now - r.lastUi <= PublishInterval
  {
    var t := s.time + PhaseStep;
    var imu := SimSample(osc, t, s.imu.yaw);
    if now - s.lastUi > PublishInterval then SimState(t, imu, imu, now)
    else SimState(t, imu, s.ui, s.lastUi)
  }

  /** The state after the frames with the given timestamps have run, in order. */
  function Run(osc: Oscillators, s: SimState, frames: seq<real>): SimState
    decreases |frames|
  {
    if frames == [] then s
    else Animate(osc, Run(osc, s, frames[..|frames| - 1]), frames[|frames| - 1])
  }

  /** The timestamps, in order, of the frames among `frames` that published the snapshot. */
  function Published(osc: Oscillators, s: SimState, frames: seq<real>): seq<real>
    decreases |frames|
  {
    if frames == [] then []
    else
      var prefix := frames[..|frames| - 1];
      var now := frames[|frames| - 1];
      Published(osc, s, prefix) + (if PublishDue(Run(osc, s, prefix), now) then [now] else [])
  }

  /** After n frames the phase has advanced by exactly n steps, whatever the timestamps. */
  lemma {:induction false} RunPhase(osc: Oscillators, s: SimState, frames: seq<real>)
    ensures Run(osc, s, frames).time == s.time + PhaseStep * |frames| as real
    decreases |frames|
  {
    if frames != [] {
      RunPhase(osc, s, frames[..|frames| - 1]);
    }
  }

  /** A yaw starting in [0, 360) stays in [0, 360) over any number of frames. */
  lemma {:induction false} RunYawInRange(osc: Oscillators, s: SimState, frames: seq<real>)
    requires 0.0 <= s.imu.yaw < FullTurn
    ensures 0.0 <= Run(osc, s, frames).imu.yaw < FullTurn
    decreases |frames|
  {
    if frames != [] {
      RunYawInRange(osc, s, frames[..|frames| - 1]);
    }
  }

  /** From mount, the yaw after n frames is `(0.5 * n) % 360`: it depends on the frame count only. */
  lemma {:induction false} RunYawFromInitial(osc: Oscillators, frames: seq<real>)
    ensures Run(osc, Initial, frames).imu.yaw == Mod360(0.5 * |frames| as real)
    decreases |frames|
  {
    if frames != [] {
      var prefix := frames[..|frames| - 1];
      RunYawFromInitial(osc, prefix);
      NextYawOfWrapped(0.5 * |prefix| as real);
    }
  }

  /** Every published timestamp is one of the frame timestamps. */
  lemma {:induction false} PublishedAreFrames(osc: Oscillators, s: SimState, frames: seq<real>, i: nat)
    requires i < |Published(osc, s, frames)|
    ensures Published(osc, s, frames)[i] in frames
    decreases |frames|
  {
    var prefix := frames[..|frames| - 1];
    if i < |Published(osc, s, prefix)| {
      PublishedAreFrames(osc, s, prefix, i);
    }
  }

  /** Consecutive entries of `p` are more than one publish interval apart. */
  predicate Spaced(p: seq<real>)
  {
    forall i :: 0 < i < |p| ==> p[i] - p[i - 1] > PublishInterval
  }

  /**
   * The publish history of any run: the first publish is more than 100 ms
   * after the starting `lastUi`, consecutive publishes are more than 100 ms
   * apart, and `lastUi` ends as the last publish (or unchanged if none).
   */
  lemma {:induction false} PublishedSpaced(osc: Oscillators, s: SimState, frames: seq<real>)
    ensures var p := Published(osc, s, frames);
      && Spaced(p)
      && (p != [] ==> p[0] - s.lastUi > PublishInterval && Run(osc, s, frames).lastUi == p[|p| - 1])
      && (p == [] ==> Run(osc, s, frames).lastUi == s.lastUi)
    decreases |frames|
  {
    if frames != [] {
      var prefix := frames[..|frames| - 1];
      PublishedSpaced(osc, s, prefix);
    }
  }

  /** A spaced sequence spans more than 100 ms per gap between its ends. */
  lemma {:induction false} SpacedSpan(p: seq<real>)
    requires Spaced(p) && |p| > 0
    ensures p[|p| - 1] - p[0] >= PublishInterval * (|p| - 1) as real
    decreases |p|
  {
    if |p| > 1 {
      var q := p[..|p| - 1];
      assert Spaced(q);
      SpacedSpan(q);
    }
  }

  /**
   * The UI is throttled by time, not by frames: however many frames arrive
   * within a window of `b - a` milliseconds, at most `(b - a) / 100 + 1` of
   * them publish.
   */
  lemma PublishCountBound(osc: Oscillators, s: SimState, frames: seq<real>, a: real, b: real)
    requires a <= b
    requires forall i :: 0 <= i < |frames| ==> a <= frames[i] <= b
    ensures PublishInterval * (|Published(osc, s, frames)| as real - 1.0) <= b - a
  {
    var p := Published(osc, s, frames);
    if p != [] {
      PublishedSpaced(osc, s, frames);
      SpacedSpan(p);
      PublishedAreFrames(osc, s, frames, 0);
      PublishedAreFrames(osc, s, frames, |p| - 1);
      assert a <= p[0] && p[|p| - 1] <= b;
    }
  }

  /**
   * The overview screen: the refs and state cells of `OverviewScreen`. The
   * simulation oscillators are fixed at construction; `frames` records the
   * timestamps of the frames that ran `animate`.
   */
  class OverviewScreen {
    const osc: Oscillators
    var imu: IMUData
    var uiData: IMUData
    var time: real
    var lastUiUpdate: real
    var isSimulating: bool
    var simulationMode: Mode
    ghost var frames: seq<real>

    function State(): SimState
      reads this
    {
      SimState(time, imu, uiData, lastUiUpdate)
    }

    /** The state is what the recorded frames produce from the mount state. */
    ghost predicate Valid()
      reads this
    {
      State() == Run(osc, Initial, frames)
    }

    /** The effect schedules `animate` only while simulating in auto mode. */
    predicate Running()
      reads this
    {
      isSimulating && simulationMode == Auto
    }

    constructor (osc: Oscillators)
      ensures Valid() && this.osc == osc && frames == []
      ensures State() == Initial && uiData == imu
      ensures !isSimulating && simulationMode == Manual
    {
      this.osc := osc;
      imu := InitialImu;
      uiData := InitialImu;
      time := 0.0;
      lastUiUpdate := 0.0;
      isSimulating := false;
      simulationMode := Manual;
      frames := [];
    }

    /** An animation frame at timestamp `now`: one `animate` run if the loop is scheduled, nothing otherwise. */
    method AnimationFrame(now: real)
      requires Valid()
      modifies this
      ensures Valid()
      ensures old(Running()) ==> State() == Animate(osc, old(State()), now) && frames == old(frames) + [now]
      ensures !old(Running()) ==> State() == old(State()) && frames == old(frames)
      ensures isSimulating == old(isSimulating) && simulationMode == old(simulationMode)
    {
      if isSimulating && simulationMode == Auto {
        ghost var before := State();
        var t := time + PhaseStep;
        var sample := SimSample(osc, t, imu.yaw);
        time, imu := t, sample;
        if now - lastUiUpdate > PublishInterval {
          uiData, lastUiUpdate := sample, now;
        }
        assert State() == Animate(osc, before, now);
        frames := frames + [now];
        assert frames[..|frames| - 1] == old(frames);
      }
    }

    /** `setIsSimulating`: pausing or resuming leaves the phase and both samples alone. */
    method SetIsSimulating(b: bool)
      requires Valid()
      modifies this`isSimulating
      ensures Valid() && isSimulating == b
    {
      isSimulating := b;
    }

    /** `setSimulationMode`. */
    method SetSimulationMode(m: Mode)
      requires Valid()
      modifies this`simulationMode
      ensures Valid() && simulationMode == m
    {
      simulationMode := m;
    }
  }
}
