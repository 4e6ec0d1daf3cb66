/**
 * Servo constants, the per-tick ramp step of calc_servo_positions and the
 * clamp-then-mirror mapping of tilt_neck (bobby_js.py and bobby.py share them).
 */
module Servo {
  import opened Basics

  const SERVO_LEFT_TILT := 0
  const SERVO_RIGHT_TILT := 1
  const SERVO_JAW := 2

  const SERVO_RATE := 10

  /** (RCS_MIN_POS + RCS_MAX_POS) / 2 with RCS_MIN_POS = 200 and RCS_MAX_POS = 600. */
  const RCS_CENTER_POS := 400

  const TILT_UP := 320
  const TILT_CENTER := 380
  const TILT_DOWN := 470
  const TILT_LEFT_OFFSET := 400

  const JAW_CLOSED := 320
  const JAW_OPEN := 560

  /** servo_min and servo_max of bobby_js.py; declared there but never read. */
  const SERVO_MIN: seq<int> := [TILT_UP, TILT_UP, JAW_CLOSED]
  const SERVO_MAX: seq<int> := [TILT_DOWN, TILT_DOWN, JAW_OPEN]

  // ---------------------------------------------------------------------------
  // Ramp step
  // ---------------------------------------------------------------------------

  /** One position moved toward its target by at most `rate` (one pass of the zip loop). */
  function StepToward(pos: int, targ: int, rate: int): (p: int)
    ensures pos == targ ==> p == pos
    ensures rate >= 0 ==> Between(pos, p, targ) && Abs(p - pos) <= rate
    ensures rate >= 0 ==> Abs(p - targ) == Max(Abs(pos - targ) - rate, 0)
  {
    if pos < targ then Min(pos + rate, targ)
    else if pos > targ then Max(pos - rate, targ)
    else pos
  }

  /** The list calc_servo_positions returns: zip stops at the shorter input. */
  function StepAll(positions: seq<int>, targets: seq<int>, rate: int): (r: seq<int>)
    ensures |r| == Min(|positions|, |targets|)
    ensures forall i :: 0 <= i < |r| && positions[i] == targets[i] ==> r[i] == positions[i]
    ensures forall i :: 0 <= i < |r| && rate >= 0 ==>
      Between(positions[i], r[i], targets[i]) && Abs(r[i] - positions[i]) <= rate
    ensures forall i :: 0 <= i < |r| && rate >= 0 ==>
      Abs(r[i] - targets[i]) == Max(Abs(positions[i] - targets[i]) - rate, 0)
  {
    seq(Min(|positions|, |targets|), i requires 0 <= i < Min(|positions|, |targets|) =>
      StepToward(positions[i], targets[i], rate))
  }

  /** calc_servo_positions: builds a fresh list, one ramp step per (position, target) pair. */
  method CalcServoPositions(positions: seq<int>, targets: seq<int>, rate: int)
    returns (newPositions: seq<int>)
    ensures newPositions == StepAll(positions, targets, rate)
    ensures forall i :: 0 <= i < |newPositions| && rate >= 0 ==>
      Between(positions[i], newPositions[i], targets[i]) && Abs(newPositions[i] - positions[i]) <= rate
  {
    newPositions := [];
    var n := Min(|positions|, |targets|);
    for i := 0 to n
      invariant |newPositions| == i
      invariant forall j :: 0 <= j < i ==> newPositions[j] == StepToward(positions[j], targets[j], rate)
    {
      var pos, targ := positions[i], targets[i];
      if pos < targ {
        newPositions := newPositions + [Min(pos + rate, targ)];
      } else if pos > targ {
        newPositions := newPositions + [Max(pos - rate, targ)];
      } else {
        newPositions := newPositions + [pos];
      }
    }
  }

  /** The position after n successive ramp steps toward a fixed target (n control ticks). */
  function StepN(pos: int, targ: int, rate: int, n: nat): int
    decreases n
  {
    if n == 0 then pos else StepN(StepToward(pos, targ, rate), targ, rate, n - 1)
  }

  /** ceil(|pos - targ| / rate): the number of ticks the ramp needs. */
  function StepsToReach(pos: int, targ: int, rate: int): nat
    requires rate > 0
  {
    CeilDiv(Abs(pos - targ), rate)
  }

  /** After n steps the distance to the target has shrunk by n * rate, never past the target. */
  lemma {:induction false} StepNDistance(pos: int, targ: int, rate: int, n: nat)
    requires rate >= 0
    ensures Abs(StepN(pos, targ, rate, n) - targ) == Max(Abs(pos - targ) - n * rate, 0)
    ensures Between(pos, StepN(pos, targ, rate, n), targ)
    decreases n
  {
    if n > 0 {
      var p := StepToward(pos, targ, rate);
      StepNDistance(p, targ, rate, n - 1);
      MulMonotone(0, n - 1, rate);
      assert (n - 1) * rate == n * rate - rate;
    }
  }

  /** Successive ticks approach the target monotonically. */
  lemma StepNMonotone(pos: int, targ: int, rate: int, j: nat, k: nat)
    requires rate >= 0 && j <= k
    ensures Abs(StepN(pos, targ, rate, k) - targ) <= Abs(StepN(pos, targ, rate, j) - targ)
    ensures Between(StepN(pos, targ, rate, j), StepN(pos, targ, rate, k), targ)
  {
    StepNDistance(pos, targ, rate, j);
    StepNDistance(pos, targ, rate, k);
    MulMonotone(j, k, rate);
  }

  /** With a positive rate the target is reached after exactly ceil(|pos - targ| / rate) ticks,
      not earlier, and every later tick leaves the position there. */
  lemma ConvergesExactly(pos: int, targ: int, rate: int)
    requires rate > 0
    ensures StepN(pos, targ, rate, StepsToReach(pos, targ, rate)) == targ
    ensures forall k: nat :: k < StepsToReach(pos, targ, rate) ==> StepN(pos, targ, rate, k) != targ
    ensures forall k: nat :: k >= StepsToReach(pos, targ, rate) ==> StepN(pos, targ, rate, k) == targ
  {
    var d, n := Abs(pos - targ), StepsToReach(pos, targ, rate);
    CeilDivBounds(d, rate);
    StepNDistance(pos, targ, rate, n);
    forall k: nat | k < n
      ensures StepN(pos, targ, rate, k) != targ
    {
      StepNDistance(pos, targ, rate, k);
      MulMonotone(k, n - 1, rate);
    }
    forall k: nat | k >= n
      ensures StepN(pos, targ, rate, k) == targ
    {
      StepNDistance(pos, targ, rate, k);
      MulMonotone(n, k, rate);
    }
  }

  /** The head tilts from TILT_DOWN to TILT_UP at rate 3 in 50 ticks and ends exactly at TILT_UP. */
  lemma TiltRampTakesFiftyTicks()
    ensures StepsToReach(TILT_DOWN, TILT_UP, 3) == 50
    ensures StepN(TILT_DOWN, TILT_UP, 3, 50) == TILT_UP
    ensures forall k: nat :: k < 50 ==> StepN(TILT_DOWN, TILT_UP, 3, k) != TILT_UP
  {
    assert StepsToReach(TILT_DOWN, TILT_UP, 3) == 50;
    ConvergesExactly(TILT_DOWN, TILT_UP, 3);
  }

  /** The servo list after n control ticks toward fixed targets. */
  function StepAllN(positions: seq<int>, targets: seq<int>, rate: int, n: nat): seq<int>
    decreases n
  {
    if n == 0 then positions else StepAllN(StepAll(positions, targets, rate), targets, rate, n - 1)
  }

  /** Ticking the whole list moves every servo exactly as ticking it alone would. */
  lemma {:induction false} StepAllNPointwise(positions: seq<int>, targets: seq<int>, rate: int, n: nat)
    requires |positions| == |targets|
    ensures |StepAllN(positions, targets, rate, n)| == |positions|
    ensures forall i :: 0 <= i < |positions| ==>
      StepAllN(positions, targets, rate, n)[i] == StepN(positions[i], targets[i], rate, n)
    decreases n
  {
    if n > 0 {
      var next := StepAll(positions, targets, rate);
      StepAllNPointwise(next, targets, rate, n - 1);
    }
  }

  /** With a positive rate every servo of the list sits on its target once n covers the slowest
      servo's StepsToReach, and the list is then exactly the targets. */
  lemma ServosSettle(positions: seq<int>, targets: seq<int>, rate: int, n: nat)
    requires |positions| == |targets| && rate > 0
    requires forall i :: 0 <= i < |positions| ==> StepsToReach(positions[i], targets[i], rate) <= n
    ensures StepAllN(positions, targets, rate, n) == targets
  {
    StepAllNPointwise(positions, targets, rate, n);
    forall i | 0 <= i < |positions|
      ensures StepAllN(positions, targets, rate, n)[i] == targets[i]
    {
      ConvergesExactly(positions[i], targets[i], rate);
    }
  }

  // ---------------------------------------------------------------------------
  // Neck mirroring
  // ---------------------------------------------------------------------------

  /** Values written to the left-tilt and right-tilt channels. */
  datatype NeckPair = NeckPair(left: int, right: int)

  /** The left channel's value for a right-channel value: reflected about TILT_LEFT_OFFSET. */
  function Mirror(a: int): int
  {
    TILT_LEFT_OFFSET - (a - TILT_LEFT_OFFSET)
  }

  /** min(max(angle, TILT_UP), TILT_DOWN). */
  function ClampTilt(angle: int): (a: int)
    ensures TILT_UP <= a <= TILT_DOWN
    ensures TILT_UP <= angle <= TILT_DOWN ==> a == angle
    ensures angle < TILT_UP ==> a == TILT_UP
    ensures angle > TILT_DOWN ==> a == TILT_DOWN
  {
    Min(Max(angle, TILT_UP), TILT_DOWN)
  }

  /** tilt_neck's two channel values: the angle is clamped first, then mirrored. */
  function NeckCommand(angle: int): (n: NeckPair)
    ensures n.right == ClampTilt(angle)
    ensures n.left + n.right == 2 * TILT_LEFT_OFFSET
    ensures TILT_UP <= n.right <= TILT_DOWN
    ensures Mirror(TILT_DOWN) <= n.left <= Mirror(TILT_UP)
  {
    var a := ClampTilt(angle);
    NeckPair(Mirror(a), a)
  }

  /** Clamping before mirroring bounds the left channel by the mirrored range [330, 480], not by
      its own [servo_min, servo_max] = [320, 470]: at TILT_UP the left channel gets 480. */
  lemma ClampThenMirror(angle: int)
    ensures NeckCommand(angle).left == Min(Max(Mirror(angle), Mirror(TILT_DOWN)), Mirror(TILT_UP))
    ensures NeckCommand(TILT_UP).left == 480 > SERVO_MAX[SERVO_LEFT_TILT]
  {
  }
}
