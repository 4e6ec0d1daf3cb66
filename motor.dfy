/**
 * Sign-magnitude motor drive: Python's int() and round() on floats, the pin split of
 * set_motor and the clip move_robot applies in bobby_js.py (but not in bobby.py).
 */
module Motor {
  import opened Basics

  const WHEEL_SPEED_MAX := 4095

  const MOT_1A := 9
  const MOT_1B := 10
  const MOT_2A := 11
  const MOT_2B := 12
  const MOT_3A := 14
  const MOT_3B := 13

  const MOT1_SCALE: real := 1.0
  const MOT2_SCALE: real := 0.9
  const MOT3_SCALE: real := 0.9

  /** Pre-clip speeds of the three wheels, as computed by move_robot's kinematics. */
  datatype WheelSpeeds = WheelSpeeds(v1: real, v2: real, v3: real)

  /** Python's int() on a float: truncation toward zero. */
  function Trunc(x: real): (i: int)
    ensures 0.0 <= x ==> i as real <= x < i as real + 1.0
    ensures x < 0.0 ==> i as real - 1.0 < x <= i as real
  {
    if x >= 0.0 then x.Floor else -((-x).Floor)
  }

  /** Python 2's round() on a float: the nearest integer, halves rounded away from zero. */
  function Round(x: real): (i: int)
    ensures -0.5 <= i as real - x <= 0.5
    ensures i as real - x == 0.5 ==> x > 0.0
    ensures x - i as real == 0.5 ==> x < 0.0
  {
    if x >= 0.0 then (x + 0.5).Floor else -((-x + 0.5).Floor)
  }

  /** Round is symmetric about zero. */
  lemma RoundOdd(x: real)
    ensures Round(-x) == -Round(x)
  {
  }

  /** Values written to pinA and pinB. */
  datatype PinPair = PinPair(a: int, b: int)

  /** set_motor's choice: a positive speed drives pinB, anything else drives pinA with |s|. */
  function MotorPins(s: int): (p: PinPair)
    ensures p.a >= 0 && p.b >= 0
    ensures p.a == 0 || p.b == 0
    ensures p.b - p.a == s
    ensures s == 0 ==> p == PinPair(0, 0)
  {
    if s > 0 then PinPair(0, s) else PinPair(Abs(s), 0)
  }

  /** The pin pair is the only pair of non-negative values, one of them zero, that encodes s. */
  lemma MotorPinsUnique(s: int, p: PinPair)
    requires p.a >= 0 && p.b >= 0 && (p.a == 0 || p.b == 0) && p.b - p.a == s
    ensures MotorPins(s) == p
  {
  }

  /** max(min(x, WHEEL_SPEED_MAX), -WHEEL_SPEED_MAX). */
  function Clip(x: real): (c: real)
    ensures -(WHEEL_SPEED_MAX as real) <= c <= WHEEL_SPEED_MAX as real
    ensures -(WHEEL_SPEED_MAX as real) <= x <= WHEEL_SPEED_MAX as real ==> c == x
    ensures x > WHEEL_SPEED_MAX as real ==> c == WHEEL_SPEED_MAX as real
    ensures x < -(WHEEL_SPEED_MAX as real) ==> c == -(WHEEL_SPEED_MAX as real)
  {
    var m := WHEEL_SPEED_MAX as real;
    var lo := if x <= m then x else m;
    if lo >= -m then lo else -m
  }

  /** The speed bobby_js.py's move_robot hands set_motor for one wheel: round, scale, clip. */
  function ClippedSpeed(v: real, scale: real): (speed: real)
    ensures -(WHEEL_SPEED_MAX as real) <= speed <= WHEEL_SPEED_MAX as real
  {
    Clip(Round(v) as real * scale)
  }

  /** With the clip, neither pin ever receives more than WHEEL_SPEED_MAX, whatever the speed. */
  lemma ClippedPinsBounded(v: real, scale: real)
    ensures 0 <= MotorPins(Trunc(ClippedSpeed(v, scale))).a <= WHEEL_SPEED_MAX
    ensures 0 <= MotorPins(Trunc(ClippedSpeed(v, scale))).b <= WHEEL_SPEED_MAX
  {
    var c := ClippedSpeed(v, scale);
    assert -(WHEEL_SPEED_MAX as real) <= c <= WHEEL_SPEED_MAX as real;
  }

  /** Without the clip (bobby.py), the active pin carries |round(v)| exactly, however large. */
  lemma UnclippedPins(v: real)
    ensures MotorPins(Trunc(Round(v) as real)).a + MotorPins(Trunc(Round(v) as real)).b == Abs(Round(v))
    ensures MotorPins(Trunc(Round(6000.0) as real)).b == 6000 > WHEEL_SPEED_MAX
  {
    TruncOfInteger(Round(v));
    TruncOfInteger(6000);
  }

  /** int() leaves an integer-valued float unchanged. */
  lemma TruncOfInteger(i: int)
    ensures Trunc(i as real) == i
  {
  }
}
