/**
 * The counter loops of ramp_tilt, ramp_jaw and ramp_pin: which values the counter `a`
 * takes, whether it ever equals `end`, and what is emitted on the way.
 */
module Ramp {
  import opened Basics
  import opened Servo

  /** ramp_tilt moves its counter by 3, ramp_jaw by 40. */
  const TILT_STEP := 3
  const JAW_STEP := 40

  // ---------------------------------------------------------------------------
  // ramp_tilt and ramp_jaw: fixed step, no clamping at `end`
  // ---------------------------------------------------------------------------

  /** The counter after k passes: it moves by `step` toward `end`, the direction fixed by start > end. */
  function Counter(start: int, end: int, step: int, k: nat): int
  {
    if start > end then start - k * step else start + k * step
  }

  /** The counter sits at `end` exactly when it has covered the whole distance. */
  lemma CounterAtEnd(start: int, end: int, step: int, k: nat)
    ensures Counter(start, end, step, k) == end <==> k * step == Abs(start - end)
  {
  }

  /** The counter equals `end` exactly after |start - end| / step passes, and only when the step
      divides the distance; otherwise it jumps over `end` and the loop never stops. */
  lemma CounterHitsEnd(start: int, end: int, step: int, k: nat)
    requires step > 0
    ensures Counter(start, end, step, k) == end <==>
      Abs(start - end) % step == 0 && k == Abs(start - end) / step
  {
    var d := Abs(start - end);
    CounterAtEnd(start, end, step, k);
    if k * step == d {
      DivUnique(d, step, k, 0);
    }
    if d % step == 0 && k == d / step {
      assert d == (d / step) * step + d % step;
    }
  }

  /** ramp_tilt and ramp_jaw terminate iff the step divides start - end. */
  lemma RampTerminatesIff(start: int, end: int, step: int)
    requires step > 0
    ensures (exists k: nat :: Counter(start, end, step, k) == end) <==> Abs(start - end) % step == 0
  {
    if Abs(start - end) % step == 0 {
      CounterHitsEnd(start, end, step, Abs(start - end) / step);
    }
    forall k: nat | Counter(start, end, step, k) == end
      ensures Abs(start - end) % step == 0
    {
      CounterHitsEnd(start, end, step, k);
    }
  }

  /** The values the loop body sees: the counter on every pass before it equals `end`. */
  function RampValues(start: int, end: int, step: int): seq<int>
    requires step > 0
  {
    seq(Abs(start - end) / step, k requires 0 <= k => Counter(start, end, step, k))
  }

  /** Each value the loop emits lies between start and end, is not end, and is exactly one step
      further than the value before it. */
  lemma RampValueAt(start: int, end: int, step: int, i: int)
    requires step > 0 && Abs(start - end) % step == 0
    requires 0 <= i < |RampValues(start, end, step)|
    ensures RampValues(start, end, step)[i] != end
    ensures Between(start, RampValues(start, end, step)[i], end)
    ensures i > 0 ==>
      RampValues(start, end, step)[i] - RampValues(start, end, step)[i - 1] ==
      (if start > end then -step else step)
  {
    var d := Abs(start - end);
    var n := d / step;
    assert d == n * step;
    CounterHitsEnd(start, end, step, i);
    MulMonotone(0, i, step);
    MulMonotone(i, n, step);
    assert i * step == (i - 1) * step + step;
  }

  /** When the step divides the distance, the loop emits |start - end| / step values, starting at
      `start`, each `step` closer to `end`, none of them `end`, the last one step short of it. */
  lemma RampValuesShape(start: int, end: int, step: int)
    requires step > 0 && Abs(start - end) % step == 0
    ensures |RampValues(start, end, step)| * step == Abs(start - end)
    ensures end !in RampValues(start, end, step)
    ensures forall i :: 0 < i < |RampValues(start, end, step)| ==>
      RampValues(start, end, step)[i] - RampValues(start, end, step)[i - 1] ==
      (if start > end then -step else step)
    ensures |RampValues(start, end, step)| > 0 ==> RampValues(start, end, step)[0] == start
    ensures |RampValues(start, end, step)| > 0 ==>
      RampValues(start, end, step)[|RampValues(start, end, step)| - 1] ==
      (if start > end then end + step else end - step)
  {
    var r := RampValues(start, end, step);
    var n := |r|;
    assert Abs(start - end) == n * step;
    forall i | 0 <= i < n
      ensures r[i] != end && (i > 0 ==> r[i] - r[i - 1] == (if start > end then -step else step))
    {
      RampValueAt(start, end, step, i);
    }
    if n > 0 {
      assert (n - 1) * step == n * step - step;
    }
  }

  /** TILT_DOWN to TILT_UP is 50 passes of ramp_tilt; JAW_CLOSED to JAW_OPEN is 6 of ramp_jaw. */
  lemma DemoRampLengths()
    ensures |RampValues(TILT_DOWN, TILT_UP, TILT_STEP)| == 50
    ensures |RampValues(JAW_CLOSED, JAW_OPEN, JAW_STEP)| == 6
    ensures RampValues(JAW_CLOSED, JAW_OPEN, JAW_STEP) == [320, 360, 400, 440, 480, 520]
  {
    var j := RampValues(JAW_CLOSED, JAW_OPEN, JAW_STEP);
    assert |j| == 6;
    assert j[0] == 320 && j[1] == 360 && j[2] == 400 && j[3] == 440 && j[4] == 480 && j[5] == 520;
  }

  // ---------------------------------------------------------------------------
  // ramp_pin: the counter is clamped at `end`
  // ---------------------------------------------------------------------------

  /** The values ramp_pin writes from counter value a on: each pass moves a by `step` toward `end`
      and clamps it there, which is one ramp step of calc_servo_positions. */
  function PinRamp(a: int, end: int, step: int): seq<int>
    requires step >= 1 || a == end
    decreases Abs(a - end)
  {
    if a == end then [] else [a] + PinRamp(StepToward(a, end, step), end, step)
  }

  /** One pass of the pin loop: emit a, then continue from the clamped next value. */
  lemma PinRampUnfold(a: int, end: int, step: int)
    requires step >= 1 && a != end
    ensures PinRamp(a, end, step) == [a] + PinRamp(StepToward(a, end, step), end, step)
  {
  }

  /** Removing one step from a positive distance removes exactly one pass. */
  lemma CeilDivStep(d: nat, step: int)
    requires step >= 1 && d > 0
    ensures CeilDiv(d, step) == 1 + CeilDiv(Max(d - step, 0), step)
  {
    if d > step {
      var q, m := (d - 1) / step, (d - 1) % step;
      assert d - 1 == q * step + m;
      assert d + step - 1 == (q + 1) * step + m;
      DivUnique(d + step - 1, step, q + 1, m);
    } else {
      DivUnique(step - 1, step, 0, step - 1);
      DivUnique(d + step - 1, step, 1, d - 1);
    }
  }

  /** ramp_pin emits ceil(|start - end| / step) values, all between start (included) and end
      (excluded), strictly monotone toward end; start == end emits nothing. */
  lemma {:induction false} PinRampShape(start: int, end: int, step: int)
    requires step >= 1
    ensures |PinRamp(start, end, step)| == CeilDiv(Abs(start - end), step)
    ensures start == end ==> PinRamp(start, end, step) == []
    ensures forall i :: 0 <= i < |PinRamp(start, end, step)| ==>
      PinRamp(start, end, step)[i] != end && Between(start, PinRamp(start, end, step)[i], end)
    ensures forall i, j :: 0 <= i < j < |PinRamp(start, end, step)| ==>
      if start < end then PinRamp(start, end, step)[i] < PinRamp(start, end, step)[j]
      else PinRamp(start, end, step)[i] > PinRamp(start, end, step)[j]
    decreases Abs(start - end)
  {
    if start != end {
      var next := StepToward(start, end, step);
      var r, t := PinRamp(start, end, step), PinRamp(next, end, step);
      PinRampShape(next, end, step);
      CeilDivStep(Abs(start - end), step);
      assert r == [start] + t;
      forall i | 0 <= i < |r|
        ensures r[i] != end && Between(start, r[i], end)
      {
        if i > 0 { assert r[i] == t[i - 1]; }
      }
      forall i, j | 0 <= i < j < |r|
        ensures if start < end then r[i] < r[j] else r[i] > r[j]
      {
        assert r[j] == t[j - 1];
        if i > 0 { assert r[i] == t[i - 1]; }
      }
    }
  }

  /** The test_motors sweep 0 -> 4095 in steps of 10 writes 410 values and never 4095 itself. */
  lemma PinSweepLength()
    ensures |PinRamp(0, 4095, 10)| == 410
    ensures 4095 !in PinRamp(0, 4095, 10)
  {
    PinRampShape(0, 4095, 10);
  }
}
