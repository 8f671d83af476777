/**
 * The telemetry sample and the closed-form simulation step shared by the
 * overview screen and the older visualiser: the phase step, the oscillator
 * formulas, the yaw wrap and the speed read-out.
 */
module Telemetry {
  import opened DroneTypes

  /** The neutral sample both screens start from and the visualiser resets to. */
  const InitialImu: IMUData := IMUData(0.0, 0.0, 0.0, 2.0, 0.0)

  /** The amount the phase accumulator advances per animation frame. */
  const PhaseStep: real := 0.01

  /** The wrap-around modulus of the yaw angle. */
  const FullTurn: real := 360.0

  /** `Math.sin` and `Math.cos`, left uninterpreted. */
  datatype Oscillators = Oscillators(sin: real -> real, cos: real -> real)

  /** `d` is a whole number of full turns. */
  predicate WholeTurns(d: real)
  {
    (d / FullTurn).Floor as real == d / FullTurn
  }

  /**
   * JavaScript's `x % 360`: the remainder of a division truncated toward zero,
   * so the result carries the sign of `x`.
   */
  function Mod360(x: real): (r: real)
    ensures 0.0 <= x ==> 0.0 <= r < FullTurn
    ensures x < 0.0 ==> -FullTurn < r <= 0.0
    ensures WholeTurns(x - r)
    ensures -FullTurn < x < FullTurn ==> r == x
  {
    var y := if x >= 0.0 then x else -x;
    var k := (y / FullTurn).Floor;
    assert k as real * FullTurn <= y < k as real * FullTurn + FullTurn;
    var m := y - FullTurn * (k as real);
    var r := if x >= 0.0 then m else -m;
    var w := if x >= 0.0 then k else -k;
    assert x - r == w as real * FullTurn;
    assert (x - r) / FullTurn == w as real;
    assert -FullTurn < x < FullTurn ==> k == 0;
    r
  }

  /** Two non-negative angles below a full turn that differ by whole turns are equal. */
  lemma RemainderUnique(r1: real, r2: real)
    requires 0.0 <= r1 < FullTurn && 0.0 <= r2 < FullTurn
    requires WholeTurns(r1 - r2)
    ensures r1 == r2
  {
  }

  /** Shifting a non-negative angle by whole turns does not change its remainder. */
  lemma {:induction false} Mod360WholeTurns(x: real, y: real)
    requires 0.0 <= x && 0.0 <= y
    requires WholeTurns(x - y)
    ensures Mod360(x) == Mod360(y)
  {
    var rx, ry := Mod360(x), Mod360(y);
    var a, b, c := ((x - rx) / FullTurn).Floor, ((y - ry) / FullTurn).Floor, ((x - y) / FullTurn).Floor;
    assert x - rx == a as real * FullTurn;
    assert y - ry == b as real * FullTurn;
    assert x - y == c as real * FullTurn;
    assert rx - ry == (c - a + b) as real * FullTurn;
    assert ((rx - ry) / FullTurn) == (c - a + b) as real;
    RemainderUnique(rx, ry);
  }

  /** The yaw update of one simulation step: `(yaw + 0.5) % 360`. */
  function NextYaw(yaw: real): real
  {
    Mod360(yaw + 0.5)
  }

  /**
   * A yaw inside [0, 360) stays inside it: it grows by 0.5 and wraps past 360
   * back to the start of the circle.
   */
  lemma NextYawInRange(yaw: real)
    requires 0.0 <= yaw < FullTurn
    ensures 0.0 <= NextYaw(yaw) < FullTurn
    ensures yaw < FullTurn - 0.5 ==> NextYaw(yaw) == yaw + 0.5
    ensures FullTurn - 0.5 <= yaw ==> NextYaw(yaw) == yaw + 0.5 - FullTurn
  {
  }

  /**
   * The JavaScript remainder keeps the sign of its operand: a negative angle
   * below -0.5 steps to a result in (-360, 0], never into [0, 360).
   */
  lemma NextYawNegative(yaw: real)
    requires yaw < -0.5
    ensures -FullTurn < NextYaw(yaw) <= 0.0
  {
  }

  /**
   * The yaw slider's range is the closed interval [0, 360]; one step from
   * any slider value lands in [0, 360), and its maximum 360 steps to 0.5.
   */
  lemma NextYawFromSlider(yaw: real)
    requires 0.0 <= yaw <= FullTurn
    ensures 0.0 <= NextYaw(yaw) < FullTurn
    ensures yaw == FullTurn ==> NextYaw(yaw) == 0.5
  {
    if yaw == FullTurn {
      assert WholeTurns(FullTurn);
      Mod360WholeTurns(FullTurn + 0.5, 0.5);
    }
  }

  /** `Mod360` composes: wrapping after every half-degree step is the same as wrapping once at the end. */
  lemma {:induction false} NextYawOfWrapped(a: real)
    requires 0.0 <= a
    ensures NextYaw(Mod360(a)) == Mod360(a + 0.5)
  {
    var r := Mod360(a);
    assert WholeTurns((a + 0.5) - (r + 0.5));
    Mod360WholeTurns(a + 0.5, r + 0.5);
  }

  /**
   * The sample one simulation step computes at phase `t`: four fields are
   * pure functions of the phase, yaw is the only incremental one.
   */
  function SimSample(osc: Oscillators, t: real, prevYaw: real): (s: IMUData)
    ensures s.yaw == NextYaw(prevYaw)
    ensures -0.5 <= prevYaw ==> 0.0 <= s.yaw < FullTurn
  {
    IMUData(
      osc.sin(t) * 15.0,
      osc.cos(t * 0.7) * 15.0,
      Mod360(prevYaw + 0.5),
      2.0 + osc.sin(t * 2.0) * 0.5,
      40.0 + osc.sin(t * 3.0) * 20.0)
  }

  /** Apart from yaw, the sample depends on the phase alone, never on the previous sample. */
  lemma SampleForgetsPrevious(osc: Oscillators, t: real, y1: real, y2: real)
    ensures SimSample(osc, t, y1).(yaw := 0.0) == SimSample(osc, t, y2).(yaw := 0.0)
  {
  }

  function Abs(x: real): real
  {
    if x < 0.0 then -x else x
  }

  /** The "Speed" card: `|pitch| + |roll|`. */
  function SpeedReadout(d: IMUData): (r: real)
    ensures 0.0 <= r
    ensures Abs(d.pitch) <= r && Abs(d.roll) <= r
    ensures r == 0.0 <==> d.pitch == 0.0 && d.roll == 0.0
  {
    Abs(d.pitch) + Abs(d.roll)
  }
}
