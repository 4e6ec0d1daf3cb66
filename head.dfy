/**
 * The actuator layer both scripts share: the PWM chip (kept as a log of set_pwm commands),
 * the global servo_pos list, and the functions tilt_neck, ramp_tilt, ramp_jaw, ramp_pin,
 * set_motor, move_robot and position_servos that write to them.
 */
module Head {
  import opened Basics
  import opened Pwm
  import opened Servo
  import opened Motor
  import opened Ramp

  // ---------------------------------------------------------------------------
  // The command sequences each operation appends to the chip's log
  // ---------------------------------------------------------------------------

  /** tilt_neck's two writes: the left channel first, then the right. */
  function NeckCommands(angle: int): seq<Command>
  {
    [Command(SERVO_LEFT_TILT, 0, NeckCommand(angle).left),
     Command(SERVO_RIGHT_TILT, 0, NeckCommand(angle).right)]
  }

  /** The writes of one tilt_neck call per angle, in order. */
  function NeckTrace(angles: seq<int>): seq<Command>
    decreases |angles|
  {
    if angles == [] then []
    else NeckTrace(angles[..|angles| - 1]) + NeckCommands(angles[|angles| - 1])
  }

  /** One write per value, all to the same channel. */
  function ChannelTrace(channel: int, values: seq<int>): seq<Command>
  {
    seq(|values|, i requires 0 <= i < |values| => Command(channel, 0, values[i]))
  }

  /** position_servos: value i goes to channel i. */
  function ServoTrace(positions: seq<int>): seq<Command>
  {
    seq(|positions|, i requires 0 <= i < |positions| => Command(i, 0, positions[i]))
  }

  /** set_motor's two writes: pinA first, then pinB. */
  function MotorCommands(pinA: int, pinB: int, speed: real): seq<Command>
  {
    var p := MotorPins(Trunc(speed));
    [Command(pinA, 0, p.a), Command(pinB, 0, p.b)]
  }

  /** bobby_js.py's move_robot: each wheel's speed is rounded, scaled and clipped. */
  function DriveCommands(w: WheelSpeeds): seq<Command>
  {
    MotorCommands(MOT_1A, MOT_1B, ClippedSpeed(w.v1, MOT1_SCALE)) +
    MotorCommands(MOT_2A, MOT_2B, ClippedSpeed(w.v2, MOT2_SCALE)) +
    MotorCommands(MOT_3A, MOT_3B, ClippedSpeed(w.v3, MOT3_SCALE))
  }

  /** bobby.py's move_robot: each wheel's speed is only rounded. */
  function UnclippedDriveCommands(w: WheelSpeeds): seq<Command>
  {
    MotorCommands(MOT_1A, MOT_1B, Round(w.v1) as real) +
    MotorCommands(MOT_2A, MOT_2B, Round(w.v2) as real) +
    MotorCommands(MOT_3A, MOT_3B, Round(w.v3) as real)
  }

  // ---------------------------------------------------------------------------
  // What the command sequences guarantee
  // ---------------------------------------------------------------------------

  /** Every tilt_neck in a sequence of calls writes a mirrored pair: the right channel gets the
      clamped angle, the left channel its mirror image. */
  lemma {:induction false} NeckTraceMirrored(angles: seq<int>)
    ensures |NeckTrace(angles)| == 2 * |angles|
    ensures forall i :: 0 <= i < |angles| ==>
      NeckTrace(angles)[2 * i] == Command(SERVO_LEFT_TILT, 0, Mirror(ClampTilt(angles[i]))) &&
      NeckTrace(angles)[2 * i + 1] == Command(SERVO_RIGHT_TILT, 0, ClampTilt(angles[i]))
    decreases |angles|
  {
    if angles != [] {
      var init := angles[..|angles| - 1];
      NeckTraceMirrored(init);
      forall i | 0 <= i < |angles|
        ensures NeckTrace(angles)[2 * i] == Command(SERVO_LEFT_TILT, 0, Mirror(ClampTilt(angles[i])))
        ensures NeckTrace(angles)[2 * i + 1] == Command(SERVO_RIGHT_TILT, 0, ClampTilt(angles[i]))
      {
        if i < |init| {
          assert angles[i] == init[i];
        }
      }
    }
  }

  /** The clipped drive never writes more than WHEEL_SPEED_MAX to a pin, and never drives both
      pins of a wheel at once. */
  lemma DriveCommandsBounded(w: WheelSpeeds)
    ensures |DriveCommands(w)| == 6
    ensures forall c :: c in DriveCommands(w) ==> c.on == 0 && 0 <= c.off <= WHEEL_SPEED_MAX
    ensures forall i :: 0 <= i < 3 ==> DriveCommands(w)[2 * i].off == 0 || DriveCommands(w)[2 * i + 1].off == 0
  {
    ClippedPinsBounded(w.v1, MOT1_SCALE);
    ClippedPinsBounded(w.v2, MOT2_SCALE);
    ClippedPinsBounded(w.v3, MOT3_SCALE);
  }

  /** The final move_robot(0.0, 0, 0) writes 0 to all six motor pins. */
  lemma StopDriveIsAllZero()
    ensures DriveCommands(WheelSpeeds(0.0, 0.0, 0.0)) ==
      [Command(MOT_1A, 0, 0), Command(MOT_1B, 0, 0), Command(MOT_2A, 0, 0),
       Command(MOT_2B, 0, 0), Command(MOT_3A, 0, 0), Command(MOT_3B, 0, 0)]
  {
    assert Round(0.0) == 0;
    assert Trunc(0.0) == 0;
  }

  /** Without the clip each wheel's active pin carries |round(v)|, the other pin 0. */
  lemma UnclippedDriveMagnitudes(w: WheelSpeeds)
    ensures |UnclippedDriveCommands(w)| == 6
    ensures UnclippedDriveCommands(w)[0].off + UnclippedDriveCommands(w)[1].off == Abs(Round(w.v1))
    ensures UnclippedDriveCommands(w)[2].off + UnclippedDriveCommands(w)[3].off == Abs(Round(w.v2))
    ensures UnclippedDriveCommands(w)[4].off + UnclippedDriveCommands(w)[5].off == Abs(Round(w.v3))
    ensures forall i :: 0 <= i < 3 ==>
      UnclippedDriveCommands(w)[2 * i].off == 0 || UnclippedDriveCommands(w)[2 * i + 1].off == 0
  {
    UnclippedPins(w.v1);
    UnclippedPins(w.v2);
    UnclippedPins(w.v3);
  }

  // ---------------------------------------------------------------------------
  // The chip and servo_pos
  // ---------------------------------------------------------------------------

  /** The PWM chip and the global servo_pos list (left tilt, right tilt, jaw). */
  class Hardware {
    /** Every set_pwm command sent to the chip so far. */
    ghost var log: seq<Command>
    var servoPos: seq<int>

    ghost predicate Valid()
      reads this
    {
      |servoPos| == 3
    }

    /** The module-level servo_pos and a freshly created chip. */
    constructor ()
      ensures Valid() && log == []
      ensures servoPos == [RCS_CENTER_POS, RCS_CENTER_POS, RCS_CENTER_POS]
    {
      log := [];
      servoPos := [RCS_CENTER_POS, RCS_CENTER_POS, RCS_CENTER_POS];
    }

    /** pwm.set_pwm(channel, on, off). */
    method SetPwm(channel: int, on: int, off: int)
      modifies this
      ensures log == old(log) + [Command(channel, on, off)]
      ensures servoPos == old(servoPos)
    {
      log := log + [Command(channel, on, off)];
    }

    /** tilt_neck: clamp the angle, then write its mirror to the left channel and the angle to the
        right channel, recording both in servo_pos; the jaw entry is untouched. */
    method TiltNeck(angle: int)
      requires Valid()
      modifies this
      ensures Valid()
      ensures log == old(log) + NeckCommands(angle)
      ensures servoPos == old(servoPos)[SERVO_LEFT_TILT := NeckCommand(angle).left]
                                       [SERVO_RIGHT_TILT := NeckCommand(angle).right]
    {
      var a := Min(Max(angle, TILT_UP), TILT_DOWN);
      SetPwm(SERVO_LEFT_TILT, 0, TILT_LEFT_OFFSET - (a - TILT_LEFT_OFFSET));
      servoPos := servoPos[SERVO_LEFT_TILT := TILT_LEFT_OFFSET - (a - TILT_LEFT_OFFSET)];
      SetPwm(SERVO_RIGHT_TILT, 0, a);
      servoPos := servoPos[SERVO_RIGHT_TILT := a];
    }

    /** ramp_tilt: tilt_neck on every counter value from start in steps of 3, then tilt_neck(end).
        The loop only stops when 3 divides end - start (RampTerminatesIff). */
    method RampTilt(start: int, end: int)
      requires Valid()
      requires Abs(start - end) % TILT_STEP == 0
      modifies this
      ensures Valid()
      ensures log == old(log) + NeckTrace(RampValues(start, end, TILT_STEP)) + NeckCommands(end)
      ensures servoPos == old(servoPos)[SERVO_LEFT_TILT := NeckCommand(end).left]
                                       [SERVO_RIGHT_TILT := NeckCommand(end).right]
    {
      ghost var values := RampValues(start, end, TILT_STEP);
      ghost var k: nat := 0;
      var a := start;
      while a != end
        invariant Valid()
        invariant k <= |values|
        invariant a == Counter(start, end, TILT_STEP, k)
        invariant log == old(log) + NeckTrace(values[..k])
        invariant servoPos[SERVO_JAW] == old(servoPos)[SERVO_JAW]
        decreases |values| - k
      {
        CounterHitsEnd(start, end, TILT_STEP, k);
        TiltNeck(a);
        assert values[..k + 1][..k] == values[..k];
        if start > end {
          a := a - 3;
        } else {
          a := a + 3;
        }
        k := k + 1;
      }
      CounterHitsEnd(start, end, TILT_STEP, k);
      assert values[..k] == values;
      TiltNeck(end);
    }

    /** ramp_jaw: writes every counter value from start in steps of 40 to the jaw channel, recording
        each in servo_pos, then writes end without recording it: servo_pos keeps the last loop
        value, one step short of end. The loop only stops when 40 divides end - start. */
    method RampJaw(start: int, end: int)
      requires Valid()
      requires Abs(start - end) % JAW_STEP == 0
      modifies this
      ensures Valid()
      ensures log == old(log) + ChannelTrace(SERVO_JAW, RampValues(start, end, JAW_STEP)) +
                     [Command(SERVO_JAW, 0, end)]
      ensures servoPos == if start == end then old(servoPos)
                          else old(servoPos)[SERVO_JAW := if start > end then end + JAW_STEP else end - JAW_STEP]
    {
      ghost var values := RampValues(start, end, JAW_STEP);
      ghost var k: nat := 0;
      var a := start;
      while a != end
        invariant Valid()
        invariant k <= |values|
        invariant a == Counter(start, end, JAW_STEP, k)
        invariant log == old(log) + ChannelTrace(SERVO_JAW, values[..k])
        invariant servoPos == if k == 0 then old(servoPos)
                              else old(servoPos)[SERVO_JAW := values[k - 1]]
        decreases |values| - k
      {
        CounterHitsEnd(start, end, JAW_STEP, k);
        SetPwm(SERVO_JAW, 0, a);
        servoPos := servoPos[SERVO_JAW := a];
        assert ChannelTrace(SERVO_JAW, values[..k + 1]) == ChannelTrace(SERVO_JAW, values[..k]) + [Command(SERVO_JAW, 0, a)];
        if start > end {
          a := a - 40;
        } else {
          a := a + 40;
        }
        k := k + 1;
      }
      CounterHitsEnd(start, end, JAW_STEP, k);
      assert values[..k] == values;
      RampValuesShape(start, end, JAW_STEP);
      SetPwm(SERVO_JAW, 0, end);
    }

    /** ramp_pin: writes the counter to `pin` on every pass, moving it by `step` toward end and
        clamping it there; end itself is never written. With step < 1 and start != end the loop
        never stops. */
    method RampPin(pin: int, start: int, end: int, step: int)
      requires step >= 1 || start == end
      modifies this
      ensures log == old(log) + ChannelTrace(pin, PinRamp(start, end, step))
      ensures servoPos == old(servoPos)
    {
      ghost var emitted: seq<int> := [];
      var a := start;
      while a != end
        invariant Between(start, a, end)
        invariant step >= 1 || a == end
        invariant PinRamp(start, end, step) == emitted + PinRamp(a, end, step)
        invariant log == old(log) + ChannelTrace(pin, emitted)
        invariant servoPos == old(servoPos)
        decreases Abs(a - end)
      {
        SetPwm(pin, 0, a);
        assert ChannelTrace(pin, emitted + [a]) == ChannelTrace(pin, emitted) + [Command(pin, 0, a)];
        ghost var next := StepToward(a, end, step);
        PinRampUnfold(a, end, step);
        assert emitted + ([a] + PinRamp(next, end, step)) == (emitted + [a]) + PinRamp(next, end, step);
        emitted := emitted + [a];
        if start > end {
          a := a - step;
          if a < end {
            a := end;
          }
        } else {
          a := a + step;
          if a > end {
            a := end;
          }
        }
        assert a == next;
      }
    }

    /** set_motor: truncates speed toward zero; a positive value goes to pinB with pinA at 0,
        anything else goes to pinA as its magnitude with pinB at 0. */
    method SetMotor(pinA: int, pinB: int, speed: real)
      modifies this
      ensures log == old(log) + MotorCommands(pinA, pinB, speed)
      ensures servoPos == old(servoPos)
    {
      var s := Trunc(speed);
      if s > 0 {
        SetPwm(pinA, 0, 0);
        SetPwm(pinB, 0, s);
      } else {
        SetPwm(pinA, 0, Abs(s));
        SetPwm(pinB, 0, 0);
      }
    }

    /** bobby_js.py's move_robot, from the three pre-clip wheel speeds on. */
    method MoveRobot(w: WheelSpeeds)
      modifies this
      ensures log == old(log) + DriveCommands(w)
      ensures servoPos == old(servoPos)
    {
      SetMotor(MOT_1A, MOT_1B, Clip(Round(w.v1) as real * MOT1_SCALE));
      SetMotor(MOT_2A, MOT_2B, Clip(Round(w.v2) as real * MOT2_SCALE));
      SetMotor(MOT_3A, MOT_3B, Clip(Round(w.v3) as real * MOT3_SCALE));
    }

    /** bobby.py's move_robot, from the three wheel speeds on: no scale and no clip. */
    method MoveRobotUnclipped(w: WheelSpeeds)
      modifies this
      ensures log == old(log) + UnclippedDriveCommands(w)
      ensures servoPos == old(servoPos)
    {
      SetMotor(MOT_1A, MOT_1B, Round(w.v1) as real);
      SetMotor(MOT_2A, MOT_2B, Round(w.v2) as real);
      SetMotor(MOT_3A, MOT_3B, Round(w.v3) as real);
    }

    /** position_servos: writes positions[i] to channel i for every index. */
    method PositionServos(positions: seq<int>)
      modifies this
      ensures log == old(log) + ServoTrace(positions)
      ensures servoPos == old(servoPos)
    {
      for i := 0 to |positions|
        invariant log == old(log) + ServoTrace(positions[..i])
        invariant servoPos == old(servoPos)
      {
        SetPwm(i, 0, positions[i]);
        assert ServoTrace(positions[..i + 1]) == ServoTrace(positions[..i]) + [Command(i, 0, positions[i])];
      }
      assert positions[..|positions|] == positions;
    }
  }
}
