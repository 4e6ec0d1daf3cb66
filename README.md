# bobby: the integer control layer of a three-wheeled robot head

Two Python 2 scripts drive a small robot: `bobby_js.py` reads a game controller, and `bobby.py`
reads keys from a terminal. Both send every actuator command through one PCA9685 PWM chip, using
`set_pwm(channel, on, off)`. Three servos move the head: the left tilt, the right tilt and the jaw.
Three omni wheels each have a sign-magnitude pair of motor pins.

This project models the discrete part of both scripts in Dafny:

- the chip is a ghost log of the `(channel, on, off)` commands sent to it;
- the global `servo_pos` list is a field of the class `Head.Hardware`;
- every operation is specified by the commands it appends to the log and by the new `servo_pos`.

The modules follow the scripts' structure:

- `Basics`: `Option`, `Abs`/`Min`/`Max`, the ceiling division, monotonicity of multiplication and uniqueness of Euclidean division.
- `Pwm`: the `Command` record the chip receives.
- `Servo`: the servo constants; `calc_servo_positions` and its one-tick step; convergence of
  repeated steps; the clamp-then-mirror pair that `tilt_neck` writes.
- `Motor`: Python's `int()` (truncation toward zero) and Python 2's `round` (halves away from
  zero); `set_motor`'s sign-magnitude split; the clip in `bobby_js.py`'s `move_robot`.
- `Ramp`: the counter sequences of `ramp_tilt`, `ramp_jaw` and `ramp_pin`, and when those loops stop.
- `Head`: the class holding the chip log and `servo_pos`, with `tilt_neck`, `ramp_tilt`,
  `ramp_jaw`, `ramp_pin`, `set_motor`, both versions of `move_robot`, and `position_servos` as methods.
- `Joystick`: the axis and button name tables, and the fold of one decoded joystick record
  into the state dictionary (`read_js_event`).
- `JoystickControl`: the loop of `bobby_js.py`'s `main`. It covers quit on HOME, the
  angular speed from the right stick, the jaw and tilt targets from R_TRIGGER and the hat, one
  servo ramp tick per pass, and the final stop.
- `Keyboard`: the loop of `bobby.py`'s `main`. Each key updates some of (quit, direction,
  v_linear, v_angular). One move_robot per pass, then one stop command.

`tilt_neck`, `ramp_tilt`, `ramp_jaw`, `ramp_pin` and `set_motor` are the same text in both
scripts (`bobby_js.py:124-177` and `bobby.py:49-102`), so each is modelled once. The table cites
one of the two copies. `move_robot` differs between the scripts. `bobby_js.py` scales and clips
each wheel speed; `bobby.py` only rounds it. The two versions are `Head.Hardware.MoveRobot` and
`Head.Hardware.MoveRobotUnclipped`.

`tilt_neck` clamps only the angle, to [TILT_UP, TILT_DOWN], and then mirrors it, so the left
channel ranges over [330, 480], beyond its `servo_max` of 470; the joystick targets are never
clamped. `Servo.ClampThenMirror` and `JoystickControl.TargetsNotClamped` state this.

## Model

| member | source | states |
|---|---|---|
| Servo.StepToward | bobby_js.py:196-201 | one tick never overshoots: the new position lies between the old position and the target, moves by at most `rate`, and its distance to the target shrinks by exactly `rate` or to 0; a position already at its target is unchanged |
| Servo.StepAll | bobby_js.py:192-202 | the stepped list has the length of the shorter input (`zip`); every entry already at its target is unchanged, every entry stays between its old position and its target, within `rate`, and its distance to the target is exactly max(old distance - rate, 0) |
| Servo.CalcServoPositions | bobby_js.py:192-202 | the loop's list is the per-element step of the two lists, with the no-overshoot bounds for each entry |
| Servo.StepNDistance | bobby_js.py:196-199 | after n ticks the distance to the target is max(d - n*rate, 0), and the position is between the start and the target |
| Servo.StepNMonotone | bobby_js.py:196-199 | later ticks are never farther from the target than earlier ones, and they lie between the earlier position and the target |
| Servo.ConvergesExactly | bobby_js.py:192-202 | with rate > 0, repeated ticks reach the target after exactly ceil(abs(pos - targ) / rate) ticks; they are not there earlier and stay there afterwards |
| Servo.StepAllN | bobby_js.py:367 | defines servo_pos after n passes of `calc_servo_positions` toward fixed targets |
| Servo.StepAllNPointwise | bobby_js.py:192-202 | n ticks of the whole list move each servo exactly as n ticks of that servo alone (StepN), and keep the length |
| Servo.ServosSettle | bobby_js.py:192-202 | with rate > 0, once n covers every servo's ceil(distance / rate), the list after n ticks equals the targets |
| Servo.TiltRampTakesFiftyTicks | bobby_js.py:196-199 | 470 to 320 at rate 3 takes exactly 50 ticks |
| Servo.ClampTilt | bobby_js.py:125 | the clamped angle is in [TILT_UP, TILT_DOWN]; it equals the angle inside that range, and the nearer bound outside it |
| Servo.NeckCommand | bobby_js.py:124-129 | the right channel gets the clamped angle; left + right == 2 * TILT_LEFT_OFFSET; each channel stays in its range |
| Servo.ClampThenMirror | bobby_js.py:117-129 | the clamp comes before the mirror: the left value is the mirrored angle clamped to the mirrored bounds, and TILT_UP gives the left channel 480, above its servo_max |
| Motor.Trunc | bobby_js.py:171 | `int()` truncates toward zero: it is the integer below a non-negative value and the integer above a negative value, less than 1 away |
| Motor.Round | bobby_js.py:187-189 | Python 2 `round` lands within 1/2 of the value, and a half is rounded away from zero |
| Motor.RoundOdd | bobby_js.py:187-189 | rounding is symmetric: round(-x) == -round(x) |
| Motor.MotorPins | bobby_js.py:170-177 | both pins are non-negative, at least one is 0, pinB - pinA equals the speed, and speed 0 gives (0, 0) |
| Motor.MotorPinsUnique | bobby_js.py:170-177 | any split with those properties is the one set_motor writes |
| Motor.Clip | bobby_js.py:187-189 | the clipped value lies in [-4095, 4095]; it equals the input inside that range and the nearer bound outside it |
| Motor.ClippedSpeed | bobby_js.py:187-189 | the rounded, scaled and clipped wheel speed is within +-WHEEL_SPEED_MAX |
| Motor.ClippedPinsBounded | bobby_js.py:170-189 | after the clip, neither pin of a wheel is ever written a value above 4095 |
| Motor.UnclippedPins | bobby.py:95-112 | without the clip the two pins carry abs(round(v)) in total; round(6000.0) drives a pin with 6000 > 4095 |
| Motor.TruncOfInteger | bobby.py:96 | int() of an integral float is that integer, so bobby.py's set_motor(round(v)) writes round(v) itself |
| Ramp.Counter | bobby.py:57-64 | defines the counter `a` after k passes: start moved k steps toward end |
| Ramp.RampValues | bobby.py:56-77 | defines the counter values the ramp_tilt / ramp_jaw loop body runs on, before the counter equals end |
| Ramp.PinRamp | bobby.py:80-93 | defines the values ramp_pin writes: the counter, then the counter stepped toward end and clamped there, until it equals end |
| Ramp.CounterAtEnd | bobby.py:58-64 | the counter equals end after k passes exactly when k * step is the distance |
| Ramp.CounterHitsEnd | bobby.py:58-64 | with step > 0 the counter reaches end exactly when the distance is a multiple of step, after distance / step passes |
| Ramp.RampTerminatesIff | bobby.py:56-77 | the ramp_tilt / ramp_jaw loop stops for some number of passes if and only if step divides end - start |
| Ramp.RampValueAt | bobby.py:56-65 | every counter value the loop acts on lies between start and end, is never end, and differs from the previous one by +-step toward end |
| Ramp.RampValuesShape | bobby.py:56-77 | the loop acts on distance / step values, starting at start, one step apart, and never on end; the last one is one step short of end |
| Ramp.DemoRampLengths | bobby.py:67-77 | TILT_DOWN to TILT_UP is 50 passes; JAW_CLOSED to JAW_OPEN is 6 passes, over 320, 360, ..., 520 |
| Ramp.PinRampShape | bobby.py:80-93 | with step >= 1 ramp_pin writes ceil(distance / step) values, none when start == end; each lies in [start, end) toward end and is never end; the values are strictly monotone |
| Ramp.PinSweepLength | bobby.py:80-93 | sweeping 0 to 4095 in steps of 10 writes 410 values and never 4095 |
| Head.NeckCommands | bobby_js.py:124-129 | defines tilt_neck's two writes: the left channel, then the right channel |
| Head.NeckTrace | bobby_js.py:131-140 | defines the writes of one tilt_neck per angle, in order |
| Head.ChannelTrace | bobby.py:67-77 | defines one write per value to a single channel, as ramp_jaw and ramp_pin send them |
| Head.ServoTrace | bobby_js.py:204-206 | defines position_servos' writes: value i to channel i |
| Head.MotorCommands | bobby_js.py:170-177 | defines set_motor's two writes: pinA, then pinB, from the sign-magnitude split of int(speed) |
| Head.DriveCommands | bobby_js.py:187-189 | defines the clipped move_robot's six writes, wheel 1, 2, 3 |
| Head.UnclippedDriveCommands | bobby.py:110-112 | defines the six writes of bobby.py's move_robot, from round(v_i) alone |
| Head.NeckTraceMirrored | bobby_js.py:124-140 | a sequence of tilt_neck calls writes two commands per angle: the left channel gets the mirror of the clamped angle, then the right channel gets the clamped angle |
| Head.DriveCommandsBounded | bobby_js.py:170-189 | the clipped move_robot writes 6 commands, each with on == 0 and off in [0, 4095], and never drives both pins of a wheel |
| Head.StopDriveIsAllZero | bobby_js.py:370 | the final move_robot(0.0, 0, 0) writes 0 to all six motor pins |
| Head.UnclippedDriveMagnitudes | bobby.py:104-112 | the unclipped move_robot writes abs(round(v_i)) on exactly one pin of wheel i and 0 on the other |
| Head.Hardware.constructor | bobby_js.py:120 | servo_pos starts at RCS_CENTER_POS for all three servos, and the chip log is empty |
| Head.Hardware.SetPwm | bobby_js.py:126 | a set_pwm appends exactly its command to the chip log and changes nothing else |
| Head.Hardware.TiltNeck | bobby.py:49-54 | appends the left then the right neck command; servo_pos gets the mirrored pair; the jaw entry is unchanged |
| Head.Hardware.RampTilt | bobby.py:56-65 | appends one tilt_neck per counter value, followed by tilt_neck(end); servo_pos ends on end's pair with the jaw unchanged |
| Head.Hardware.RampJaw | bobby.py:67-77 | appends one jaw write per counter value, then a write of end; servo_pos[JAW] is left one step short of end, or unchanged when start == end |
| Head.Hardware.RampPin | bobby.py:80-93 | appends exactly the clamped pin sweep's writes to `pin`; servo_pos is unchanged |
| Head.Hardware.SetMotor | bobby.py:95-102 | appends pinA's then pinB's sign-magnitude split of int(speed) |
| Head.Hardware.MoveRobot | bobby_js.py:179-189 | appends the three wheels' clipped set_motor commands, in the order wheel 1, 2, 3 |
| Head.Hardware.MoveRobotUnclipped | bobby.py:104-112 | appends the three wheels' rounded, unclipped set_motor commands |
| Head.Hardware.PositionServos | bobby_js.py:204-206 | appends positions[i] to channel i for every i, in order |
| Joystick.AxisName | bobby_js.py:95-100 | axes 0 to 5 have names, and no other number does; the name maps back to its number |
| Joystick.ButtonName | bobby_js.py:102-112 | buttons 0 to 9 and 12 have names, and no other number does; the name maps back to its number |
| Joystick.NameTablesRoundTrip | bobby_js.py:95-112 | looking up the number of any axis or button name gives that name back |
| Joystick.AxisKeyFor | bobby_js.py:249 | `.get(n, n)`: the axis name when there is one, the raw number otherwise |
| Joystick.ButtonKeyFor | bobby_js.py:244 | `.get(n, n)`: the button name when there is one, the raw number otherwise |
| Joystick.ButtonValueName | bobby_js.py:114 | JS_BUTTON_VALUES holds exactly 0 (released) and 1 (pressed) |
| Joystick.EventItemsTags | bobby_js.py:239-249 | for an accepted record, the INIT, BUTTON and AXIS groups of the event list carry exactly the tags of the bits set, in that order |
| Joystick.ReadEvent | bobby_js.py:239-251 | the fold fails exactly when the button bit is set and the value is neither 0 nor 1; otherwise the new keys are the old keys plus the written keys, written keys get the value, other keys keep theirs, and the event list's tags are INIT, BUTTON, AXIS in that order, for each bit set |
| Joystick.InitOnlyLeavesState | bobby_js.py:240-251 | a record with neither the button nor the axis bit leaves the state unchanged |
| Joystick.ButtonRecordWritesKey | bobby_js.py:242-246 | a button record with value 0 or 1 lists its tag, key and state, and writes only its key |
| Joystick.AxisRecordWritesKey | bobby_js.py:247-251 | an axis record lists its tag, key and value, and writes only its key |
| Joystick.UnknownNumbersShareKeys | bobby_js.py:244-251 | any number that names neither an axis nor a button writes the same raw key as a button record and as an axis record; 13 is such a number |
| JoystickControl.Truthy | bobby_js.py:322 | defines `if js_state.get(k):` on integer values: present and non-zero |
| JoystickControl.JawTarget | bobby_js.py:337-341 | defines the jaw target: JAW_OPEN when R_TRIGGER is truthy, JAW_CLOSED otherwise |
| JoystickControl.TiltTargets | bobby_js.py:343-362 | defines the tilt targets as a priority mapping: hat_y first, then hat_x, then the center pair |
| JoystickControl.ServoTargets | bobby_js.py:337-362 | defines servo_targets after a pass: left tilt, right tilt, jaw |
| JoystickControl.PassState | bobby_js.py:320-367 | defines one pass on values: fold the record, HOME sets quit, RIGHT_X sets v_angular, targets from the state, one ramp tick of servo_pos; nothing on a failed lookup |
| JoystickControl.PassCommands | bobby_js.py:366-368 | defines a completed pass's writes: the drive, then the new servo positions |
| JoystickControl.PassStateReadsEvent | bobby_js.py:239-251 | a pass fails exactly when the fold of its record fails, and otherwise carries on from the state the fold returns; a pass without a record keeps the state |
| JoystickControl.RunFrom | bobby_js.py:319-368 | defines `while quit != True:` on values: the state after each completed pass, and whether a pass failed |
| JoystickControl.PassesLog | bobby_js.py:366-368 | defines the writes of the completed passes: pass i's drive with input i's speeds, then its servo positions |
| JoystickControl.PassesLogSnoc | bobby_js.py:366-368 | one more completed pass appends exactly its own drive and servo writes to the writes so far |
| JoystickControl.RunUsesInputs | bobby_js.py:319-368 | the completed passes, plus a failed one, never exceed the inputs; a run that neither quits nor fails uses all of them |
| JoystickControl.Final | bobby_js.py:319-368 | defines the state the loop leaves: that of its last completed pass |
| JoystickControl.RunStopsAtFirstQuit | bobby_js.py:319-323 | from a start without quit or HOME: quit equals HOME's truthiness in every pass's state and in the state the loop leaves, and no pass before the last has quit |
| JoystickControl.AngularSpeed | bobby_js.py:325-327 | Python 2 integer division floors: the speed is the largest v with v * 32767 <= -rotate * 4095 |
| JoystickControl.AngularSpeedRange | bobby_js.py:325-327 | for a 16-bit axis the speed lies within +-4095 with the opposite sign; full deflection gives -+4095; the floor makes 1 give -1 but -1 give 0 |
| JoystickControl.JawOpenIffTrigger | bobby_js.py:337-341 | the jaw target is JAW_OPEN exactly when R_TRIGGER is truthy, and JAW_CLOSED exactly when it is not |
| JoystickControl.HatYOverridesHatX | bobby_js.py:343-362 | while hat_y is truthy, any hat_x value gives the same targets |
| JoystickControl.CenterWithoutHat | bobby_js.py:360-362 | with both hat axes falsy the tilt targets are (420, 380) |
| JoystickControl.MirroredUnlessHatX | bobby_js.py:343-362 | the targets sum to 800 if and only if the hat_x branch does not decide; in that branch they are (480, 470) or (330, 320) |
| JoystickControl.TargetsNotClamped | bobby_js.py:343-362 | the targets keep the mirrored ranges only; hat_y up sends the left target to 480, above servo_max (lines 117-118 are never consulted) |
| JoystickControl.JoystickControl.constructor | bobby_js.py:117-121 | the globals start as servo_pos at center, servo_targets (380, 380, JAW_CLOSED), an empty state, quit false |
| JoystickControl.JoystickControl.ReadJsEvent | bobby_js.py:234-254 | with no ready record the state is unchanged; a record either updates the state in place as the fold says, or fails before writing anything |
| JoystickControl.JoystickControl.UpdateIntent | bobby_js.py:322-327 | quit becomes true once HOME is truthy and is never cleared; v_angular is recomputed when RIGHT_X is present and kept otherwise |
| JoystickControl.JoystickControl.UpdateTargets | bobby_js.py:337-362 | the if-chain on R_TRIGGER, hat_x and hat_y leaves servo_targets equal to the target mapping of the state |
| JoystickControl.JoystickControl.Actuate | bobby_js.py:366-368 | appends the clipped drive, then one ramp tick of servo_pos toward the targets written to channels 0 to 2 |
| JoystickControl.JoystickControl.Tick | bobby_js.py:319-368 | a pass either fails at the button-value lookup with nothing changed, or folds the record, updates quit, v_angular and the targets, drives, and steps the servos; its new state is exactly PassState of the old one |
| JoystickControl.JoystickControl.Pass | bobby_js.py:319-368 | one pass seen on values: the new state is PassState of the old one; a failed pass changes nothing, a completed one appends its PassCommands |
| JoystickControl.JoystickControl.RunPasses | bobby_js.py:319-368 | the loop's passes are exactly RunFrom of the state it starts in: the same number of passes and whether one failed, the same final state, and PassesLog of those passes appended to the log, nine writes per pass |
| JoystickControl.JoystickControl.Run | bobby_js.py:309-370 | after resetting js_state, quit and v_angular and tilt_neck(TILT_CENTER), the log is those two writes, then PassesLog of the passes RunFrom gives, then the six-pin stop exactly when the run quit; the final state is the last pass's; quit holds exactly when HOME is truthy in the final state; 9 writes per pass |
| Keyboard.KeyStep | bobby.py:165-199 | q sets only quit; a/s/d set only v_angular, to 3000, 0 and -3000; digits set only direction and v_linear (3000, or 0 for 5); any other key changes nothing |
| Keyboard.ReplayQuit | bobby.py:162-199 | quit is true after a key sequence exactly when it contains q |
| Keyboard.ReplaySpeeds | bobby.py:165-199 | v_linear is always 0 or 3000, and v_angular always 0, 3000 or -3000 |
| Keyboard.Replay | bobby.py:162-199 | defines the loop variables after a sequence of keys, starting from quit false and all speeds 0 |
| Keyboard.KeyboardLoop | bobby.py:162-204 | the loop reads keys up to and including the first q; after each key, including the q, it drives with the state so far; after a q exactly one stop drive follows |

## Left out

- Trigonometry and square roots are not modelled. This covers `math.cos`/`math.sin` in `move_robot` and `math.atan2`/`math.sqrt` for the joystick heading and linear speed (bobby_js.py:182-184, 329-335). Instead, move_robot takes the three pre-clip wheel speeds as real inputs (`Motor.WheelSpeeds`).
- Keyboard headings are kept as exact multiples of pi (`Keyboard.Heading`). The keyboard loop records each move_robot call as a `Drive` request; the wheel speeds computed from it are not modelled.
- JoystickControl.JoystickControl.Tick: the wheel speeds of each pass are an input. As a result, the `v_angular` that the model computes does not feed into them, and neither do the stick's direction and v_linear.
- Byte parsing of joystick records is not modelled: `select.select`, `sys.stdin.read` and `struct.unpack("lhBB")`. Each pass receives the decoded (value, type, number) record, or None when no record is ready.
- Library and terminal calls are not modelled: PCA9685 initialisation, `set_pwm_freq`, `time.sleep`, every `print`, and the curses setup and teardown. This includes the teardown in bobby_js.py, which references an undefined `stdscr`.
- The printed event list is not modelled beyond its order of type tags. Each entry of `Joystick.Item` is recorded, but `print` itself is left out.
- `interpret_key` in bobby_js.py is not modelled. It only assigns local variables, and it raises on an unbound name before its move_robot. The keyboard mapping is modelled from bobby.py's main.
- `test_motors` is not modelled as an operation. It is a fixed sequence of ramp calls; `Ramp.DemoRampLengths` and `Ramp.PinSweepLength` state what its calls produce.
- Floating point is modelled as exact real arithmetic. MOT2_SCALE and MOT3_SCALE are the exact real 0.9, and `round` is exact on reals.
- Head.Hardware.RampTilt: requires that 3 divide end - start, because otherwise the source loop never stops. `Ramp.RampTerminatesIff` proves that this condition is exactly when the loop stops.
- Head.Hardware.RampJaw: requires that 40 divide end - start, for the same reason.
- Head.Hardware.RampPin: requires step >= 1 or start == end, because otherwise the source loop never stops.
- JoystickControl.JoystickControl.Run: also stops when its finite list of passes runs out. The source loops until quit is set.
- Keyboard.KeyboardLoop: also stops when its finite list of keys runs out. The source blocks in `getch` until the next key.
- JoystickControl.JoystickControl.Run: a failed button-value lookup raises a KeyError out of main. The model ends the run at that pass, without the stop command.
