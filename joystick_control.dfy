/**
 * The control loop of bobby_js.py's main: each pass folds at most one joystick record into the
 * state dictionary, derives quit, the angular speed and the three servo targets from it, drives
 * the wheels and ramps the servos one step toward their targets.
 */
module JoystickControl {
  import opened Basics
  import opened Pwm
  import opened Servo
  import opened Motor
  import opened Joystick
  import opened Head

  /** `if js_state.get(k):` holds when k is present with a non-zero value. */
  predicate Truthy(js: map<Key, int>, k: Key)
  {
    k in js && js[k] != 0
  }

  /** -rotate * WHEEL_SPEED_MAX / JS_AXIS_MAX on Python 2 integers: the division floors. */
  function AngularSpeed(rotate: int): (v: int)
    ensures v * JS_AXIS_MAX <= -rotate * WHEEL_SPEED_MAX < (v + 1) * JS_AXIS_MAX
  {
    (-rotate * WHEEL_SPEED_MAX) / JS_AXIS_MAX
  }

  /** A 16-bit axis value gives an angular speed within +-WHEEL_SPEED_MAX, of the opposite sign;
      flooring makes the scale asymmetric: rotate = 1 gives -1 but rotate = -1 gives 0. */
  lemma AngularSpeedRange(rotate: int)
    requires -32768 <= rotate <= 32767
    ensures -WHEEL_SPEED_MAX <= AngularSpeed(rotate) <= WHEEL_SPEED_MAX
    ensures rotate > 0 ==> AngularSpeed(rotate) < 0
    ensures rotate <= 0 ==> AngularSpeed(rotate) >= 0
    ensures AngularSpeed(1) == -1 && AngularSpeed(-1) == 0
    ensures AngularSpeed(JS_AXIS_MAX) == -WHEEL_SPEED_MAX && AngularSpeed(JS_AXIS_MIN) == WHEEL_SPEED_MAX
  {
    assert AngularSpeed(1) * JS_AXIS_MAX <= -WHEEL_SPEED_MAX;
    assert AngularSpeed(-1) * JS_AXIS_MAX <= WHEEL_SPEED_MAX;
  }

  /** The jaw target: open while R_TRIGGER is held, closed otherwise. */
  function JawTarget(js: map<Key, int>): int
  {
    if Truthy(js, ButtonKey(RTrigger)) then JAW_OPEN else JAW_CLOSED
  }

  /** The tilt targets: a non-zero hat_y nods the head (a mirrored pair for TILT_DOWN or TILT_UP),
      else a non-zero hat_x rolls it (an unmirrored pair), else the mirrored pair for TILT_CENTER. */
  function TiltTargets(js: map<Key, int>): NeckPair
  {
    if Truthy(js, AxisKey(HatY)) then
      NeckCommand(if js[AxisKey(HatY)] < 0 then TILT_DOWN else TILT_UP)
    else if Truthy(js, AxisKey(HatX)) then
      if js[AxisKey(HatX)] < 0 then NeckPair(Mirror(TILT_UP), TILT_DOWN)
      else NeckPair(Mirror(TILT_DOWN), TILT_UP)
    else
      NeckCommand(TILT_CENTER)
  }

  /** servo_targets after a pass: left tilt, right tilt, jaw. */
  function ServoTargets(js: map<Key, int>): seq<int>
  {
    [TiltTargets(js).left, TiltTargets(js).right, JawTarget(js)]
  }

  /** The jaw target is JAW_OPEN exactly when R_TRIGGER is truthy, JAW_CLOSED otherwise. */
  lemma JawOpenIffTrigger(js: map<Key, int>)
    ensures ServoTargets(js)[SERVO_JAW] == JAW_OPEN <==> Truthy(js, ButtonKey(RTrigger))
    ensures ServoTargets(js)[SERVO_JAW] == JAW_CLOSED <==> !Truthy(js, ButtonKey(RTrigger))
  {
  }

  /** While hat_y is non-zero, hat_x has no effect on the targets. */
  lemma HatYOverridesHatX(js: map<Key, int>, v: int)
    requires Truthy(js, AxisKey(HatY))
    ensures ServoTargets(js[AxisKey(HatX) := v]) == ServoTargets(js)
  {
    assert Truthy(js[AxisKey(HatX) := v], AxisKey(HatY));
  }

  /** With both hat axes absent or zero the head is centered: left 420, right 380. */
  lemma CenterWithoutHat(js: map<Key, int>)
    requires !Truthy(js, AxisKey(HatX)) && !Truthy(js, AxisKey(HatY))
    ensures TiltTargets(js) == NeckPair(420, 380)
  {
  }

  /** The two tilt targets are mirrored (sum 2 * TILT_LEFT_OFFSET = 800) exactly when the hat_x
      branch is not the one that decides; in the hat_x branch they sum to 950 or 650. */
  lemma MirroredUnlessHatX(js: map<Key, int>)
    ensures TiltTargets(js).left + TiltTargets(js).right == 2 * TILT_LEFT_OFFSET <==>
      !(Truthy(js, AxisKey(HatX)) && !Truthy(js, AxisKey(HatY)))
    ensures Truthy(js, AxisKey(HatX)) && !Truthy(js, AxisKey(HatY)) ==>
      TiltTargets(js) == (if js[AxisKey(HatX)] < 0 then NeckPair(800 - TILT_UP, TILT_DOWN)
                          else NeckPair(800 - TILT_DOWN, TILT_UP))
  {
  }

  /** The targets are never clamped to servo_min / servo_max: hat_y up sends the left channel to
      480, above its servo_max of 470; the ranges the targets do keep are the mirrored ones. */
  lemma TargetsNotClamped(js: map<Key, int>)
    ensures TILT_UP <= TiltTargets(js).right <= TILT_DOWN
    ensures Mirror(TILT_DOWN) <= TiltTargets(js).left <= Mirror(TILT_UP)
    ensures TiltTargets(map[AxisKey(HatY) := 1]).left == 480 > SERVO_MAX[SERVO_LEFT_TILT]
  {
    assert Truthy(map[AxisKey(HatY) := 1], AxisKey(HatY));
  }

  /** The values main's loop carries from one pass to the next: js_state, quit, v_angular,
      servo_targets and servo_pos. */
  datatype LoopState = LoopState(js: map<Key, int>, quit: bool, vAngular: int, targets: seq<int>, servoPos: seq<int>)

  /** One pass of the loop on values: the record (if any) is folded into js_state, HOME sets quit,
      RIGHT_X sets v_angular, the targets follow the state and servo_pos ramps one tick toward
      them. None when the button-value lookup fails. */
  function PassState(s: LoopState, ev: Option<Event>): Option<LoopState>
  {
    if ev.Some? && Rejected(ev.value) then None
    else
      var js := if ev.None? then s.js else Record(s.js, ev.value);
      Some(LoopState(js, s.quit || Truthy(js, ButtonKey(Home)),
                     if AxisKey(RightX) in js then AngularSpeed(js[AxisKey(RightX)]) else s.vAngular,
                     ServoTargets(js), StepAll(s.servoPos, ServoTargets(js), SERVO_RATE)))
  }

  /** A pass fails exactly when read_js_event does, and otherwise carries on from the state it
      returns. */
  lemma PassStateReadsEvent(s: LoopState, e: Event)
    ensures PassState(s, Some(e)).None? <==> ReadEvent(s.js, e).UnknownButtonValue?
    ensures PassState(s, Some(e)).Some? ==> PassState(s, Some(e)).value.js == ReadEvent(s.js, e).states
    ensures PassState(s, None) == Some(PassState(s, None).value) && PassState(s, None).value.js == s.js
  {
  }

  /** The commands one completed pass sends: the drive, then the new servo positions. */
  function PassCommands(after: LoopState, speeds: WheelSpeeds): seq<Command>
  {
    DriveCommands(speeds) + ServoTrace(after.servoPos)
  }

  /** What the loop does from a state on: the state after each completed pass, and whether a
      pass failed at the button-value lookup. */
  datatype RunTrace = RunTrace(states: seq<LoopState>, crashed: bool)

  /** `while quit != True`: passes run until quit is set, a lookup fails or the inputs run out. */
  function RunFrom(s: LoopState, inputs: seq<TickInput>): RunTrace
    decreases |inputs|
  {
    if s.quit || inputs == [] then RunTrace([], false)
    else
      match PassState(s, inputs[0].event)
      case None => RunTrace([], true)
      case Some(next) =>
        var rest := RunFrom(next, inputs[1..]);
        RunTrace([next] + rest.states, rest.crashed)
  }

  /** The commands the completed passes send, pass i with the wheel speeds of input i. */
  function PassesLog(states: seq<LoopState>, inputs: seq<TickInput>): seq<Command>
    requires |states| <= |inputs|
    decreases |states|
  {
    if states == [] then []
    else
      var n := |states| - 1;
      PassesLog(states[..n], inputs) + PassCommands(states[n], inputs[n].speeds)
  }

  lemma PassesLogLast(states: seq<LoopState>, inputs: seq<TickInput>)
    requires 0 < |states| <= |inputs|
    ensures PassesLog(states, inputs) ==
      PassesLog(states[..|states| - 1], inputs) + PassCommands(states[|states| - 1], inputs[|states| - 1].speeds)
  {
  }

  /** One more completed pass appends its commands. */
  lemma PassesLogSnoc(states: seq<LoopState>, inputs: seq<TickInput>, next: LoopState)
    requires |states| < |inputs|
    ensures PassesLog(states + [next], inputs) ==
      PassesLog(states, inputs) + PassCommands(next, inputs[|states|].speeds)
  {
    var longer := states + [next];
    PassesLogLast(longer, inputs);
    assert longer[..|states|] == states && longer[|states|] == next;
  }

  /** The state the loop leaves behind: that of the last completed pass. */
  function Final(s: LoopState, states: seq<LoopState>): LoopState
  {
    if states == [] then s else states[|states| - 1]
  }

  /** The loop never takes more passes than it has inputs, and a run that neither quits nor fails
      uses up all of them. */
  lemma {:induction false} RunUsesInputs(s: LoopState, inputs: seq<TickInput>)
    ensures |RunFrom(s, inputs).states| + (if RunFrom(s, inputs).crashed then 1 else 0) <= |inputs|
    ensures !RunFrom(s, inputs).crashed && !Final(s, RunFrom(s, inputs).states).quit ==>
      |RunFrom(s, inputs).states| == |inputs|
    decreases |inputs|
  {
    if !s.quit && inputs != [] && PassState(s, inputs[0].event).Some? {
      var next := PassState(s, inputs[0].event).value;
      RunUsesInputs(next, inputs[1..]);
    }
  }

  /** The loop stops at the first pass whose state has HOME truthy: quit equals HOME's truthiness
      in every pass's state and in the state the loop leaves, and no pass before the last has
      quit set. */
  lemma {:induction false} RunStopsAtFirstQuit(s: LoopState, inputs: seq<TickInput>)
    requires !s.quit && !Truthy(s.js, ButtonKey(Home))
    ensures forall i :: 0 <= i < |RunFrom(s, inputs).states| ==>
      (RunFrom(s, inputs).states[i].quit <==> Truthy(RunFrom(s, inputs).states[i].js, ButtonKey(Home)))
    ensures forall i :: 0 <= i < |RunFrom(s, inputs).states| - 1 ==> !RunFrom(s, inputs).states[i].quit
    ensures Final(s, RunFrom(s, inputs).states).quit <==> Truthy(Final(s, RunFrom(s, inputs).states).js, ButtonKey(Home))
    decreases |inputs|
  {
    if inputs != [] && PassState(s, inputs[0].event).Some? {
      var next := PassState(s, inputs[0].event).value;
      if !next.quit {
        RunStopsAtFirstQuit(next, inputs[1..]);
      }
    }
  }

  lemma AppendAssoc<T>(a: seq<T>, b: seq<T>, c: seq<T>)
    ensures (a + b) + c == a + (b + c)
  {
  }

  /** Unfolding RunFrom at input k after a completed pass. */
  lemma RunFromPass(cur: LoopState, inputs: seq<TickInput>, k: nat, next: LoopState)
    requires k < |inputs| && !cur.quit && PassState(cur, inputs[k].event) == Some(next)
    ensures RunFrom(cur, inputs[k..]) ==
      RunTrace([next] + RunFrom(next, inputs[k + 1..]).states, RunFrom(next, inputs[k + 1..]).crashed)
  {
    assert inputs[k..][1..] == inputs[k + 1..];
  }

  /** The run from s0 splits, after k passes, into the passes done so far and the run from the
      current state on. */
  ghost predicate RunSplits(s0: LoopState, inputs: seq<TickInput>, k: nat, states: seq<LoopState>, cur: LoopState)
  {
    k <= |inputs| &&
    RunFrom(s0, inputs) == RunTrace(states + RunFrom(cur, inputs[k..]).states, RunFrom(cur, inputs[k..]).crashed)
  }

  /** A completed pass moves one state from the pending run to the done part. */
  lemma PassKeepsSplit(s0: LoopState, inputs: seq<TickInput>, k: nat, states: seq<LoopState>,
                       cur: LoopState, next: LoopState)
    requires k < |inputs| && !cur.quit && PassState(cur, inputs[k].event) == Some(next)
    requires RunSplits(s0, inputs, k, states, cur)
    ensures RunSplits(s0, inputs, k + 1, states + [next], next)
  {
    RunFromPass(cur, inputs, k, next);
    AppendAssoc(states, [next], RunFrom(next, inputs[k + 1..]).states);
  }

  /** After a completed pass the loop's bookkeeping moves on by one: the split, the commands
      appended after `before`, and their count (nine per pass with three servos). */
  lemma PassAdvances(s0: LoopState, inputs: seq<TickInput>, states: seq<LoopState>, cur: LoopState,
                     next: LoopState, before: seq<Command>)
    requires |states| < |inputs| && !cur.quit && PassState(cur, inputs[|states|].event) == Some(next)
    requires RunSplits(s0, inputs, |states|, states, cur)
    requires |next.servoPos| == 3 && |PassesLog(states, inputs)| == 9 * |states|
    ensures RunSplits(s0, inputs, |states| + 1, states + [next], next)
    ensures before + PassesLog(states, inputs) + PassCommands(next, inputs[|states|].speeds) ==
            before + PassesLog(states + [next], inputs)
    ensures |PassesLog(states + [next], inputs)| == 9 * |states + [next]|
  {
    PassKeepsSplit(s0, inputs, |states|, states, cur, next);
    PassesLogSnoc(states, inputs, next);
    DriveCommandsBounded(inputs[|states|].speeds);
    AppendAssoc(before, PassesLog(states, inputs), PassCommands(next, inputs[|states|].speeds));
  }

  /** Unfolding RunFrom at input k when the pass fails at the button-value lookup. */
  lemma RunFromCrash(cur: LoopState, inputs: seq<TickInput>, k: nat)
    requires k < |inputs| && !cur.quit && PassState(cur, inputs[k].event).None?
    ensures RunFrom(cur, inputs[k..]) == RunTrace([], true)
  {
  }

  /** Unfolding RunFrom once quit is set or the inputs are used up. */
  lemma RunFromDone(cur: LoopState, inputs: seq<TickInput>, k: nat)
    requires k <= |inputs| && (cur.quit || k == |inputs|)
    ensures RunFrom(cur, inputs[k..]) == RunTrace([], false)
  {
  }

  /** One pass's inputs: the record select found ready (None when there was none) and the three
      wheel speeds move_robot's kinematics computes for this pass. */
  datatype TickInput = TickInput(event: Option<Event>, speeds: WheelSpeeds)

  /** The state main keeps across passes, beside the chip and servo_pos. */
  class JoystickControl {
    const head: Hardware
    var jsState: map<Key, int>
    var servoTargets: seq<int>
    var quit: bool
    var vAngular: int

    ghost predicate Valid()
      reads this, head
    {
      head.Valid() && |servoTargets| == 3
    }

    /** The loop's variables as one value. */
    ghost function State(): LoopState
      reads this, head
    {
      LoopState(jsState, quit, vAngular, servoTargets, head.servoPos)
    }

    /** The module-level globals and a freshly created chip. */
    constructor ()
      ensures Valid() && fresh(head) && head.log == []
      ensures head.servoPos == [RCS_CENTER_POS, RCS_CENTER_POS, RCS_CENTER_POS]
      ensures servoTargets == [TILT_CENTER, TILT_CENTER, JAW_CLOSED]
      ensures jsState == map[] && !quit && vAngular == 0
    {
      head := new Hardware();
      jsState := map[];
      servoTargets := [TILT_CENTER, TILT_CENTER, JAW_CLOSED];
      quit := false;
      vAngular := 0;
    }

    /** read_js_event: folds the ready record, if any, into js_states in place. A button value
        other than 0 or 1 fails the JS_BUTTON_VALUES lookup before anything is written. */
    method ReadJsEvent(ev: Option<Event>) returns (failed: bool)
      modifies this
      ensures failed <==> ev.Some? && ReadEvent(old(jsState), ev.value).UnknownButtonValue?
      ensures jsState == if ev.None? || failed then old(jsState) else ReadEvent(old(jsState), ev.value).states
      ensures servoTargets == old(servoTargets) && quit == old(quit) && vAngular == old(vAngular)
    {
      failed := false;
      if ev.Some? {
        var e := ev.value;
        if e.eventType & JS_EVENT_BUTTON != 0 {
          if ButtonValueName(e.value).None? {
            failed := true;
            return;
          }
          jsState := jsState[ButtonKeyFor(e.number) := e.value];
        }
        if e.eventType & JS_EVENT_AXIS != 0 {
          jsState := jsState[AxisKeyFor(e.number) := e.value];
        }
      }
    }

    /** One pass of main's loop. A failed button-value lookup raises out of the loop: the pass
        stops there and nothing else changes. */
    method Tick(input: TickInput) returns (crashed: bool)
      requires Valid()
      modifies this, head
      ensures Valid()
      ensures crashed <==> input.event.Some? && Rejected(input.event.value)
      ensures crashed ==> jsState == old(jsState) && quit == old(quit) && vAngular == old(vAngular)
      ensures crashed ==> servoTargets == old(servoTargets)
      ensures crashed ==> head.log == old(head.log) && head.servoPos == old(head.servoPos)
      ensures !crashed ==> jsState == if input.event.None? then old(jsState) else Record(old(jsState), input.event.value)
      ensures !crashed ==> quit == (old(quit) || Truthy(jsState, ButtonKey(Home)))
      ensures !crashed ==> vAngular == if AxisKey(RightX) in jsState then AngularSpeed(jsState[AxisKey(RightX)])
                                       else old(vAngular)
      ensures !crashed ==> servoTargets == ServoTargets(jsState)
      ensures !crashed ==> head.servoPos == StepAll(old(head.servoPos), servoTargets, SERVO_RATE)
      ensures !crashed ==> head.log == old(head.log) + DriveCommands(input.speeds) + ServoTrace(head.servoPos)
      ensures PassState(old(State()), input.event) == if crashed then None else Some(State())
    {
      crashed := ReadJsEvent(input.event);
      if crashed {
        return;
      }
      UpdateIntent();
      UpdateTargets();
      Actuate(input.speeds);
    }

    /** The HOME button sets quit; the right stick's x axis sets the angular speed. */
    method UpdateIntent()
      modifies this
      ensures quit == (old(quit) || Truthy(jsState, ButtonKey(Home)))
      ensures vAngular == if AxisKey(RightX) in jsState then AngularSpeed(jsState[AxisKey(RightX)])
                          else old(vAngular)
      ensures jsState == old(jsState) && servoTargets == old(servoTargets)
    {
      if ButtonKey(Home) in jsState && jsState[ButtonKey(Home)] != 0 {
        quit := true;
      }
      if AxisKey(RightX) in jsState {
        var rotate := jsState[AxisKey(RightX)];
        vAngular := -rotate * WHEEL_SPEED_MAX / JS_AXIS_MAX;
      }
    }

    /** The jaw target from R_TRIGGER, then the tilt targets from hat_x, overridden by hat_y,
        with the center pair when both are zero or absent. */
    method UpdateTargets()
      requires |servoTargets| == 3
      modifies this
      ensures servoTargets == ServoTargets(jsState)
      ensures jsState == old(jsState) && quit == old(quit) && vAngular == old(vAngular)
    {
      if ButtonKey(RTrigger) in jsState && jsState[ButtonKey(RTrigger)] != 0 {
        servoTargets := servoTargets[SERVO_JAW := JAW_OPEN];
      } else {
        servoTargets := servoTargets[SERVO_JAW := JAW_CLOSED];
      }
      var hatX := if AxisKey(HatX) in jsState then jsState[AxisKey(HatX)] else 0;
      if hatX != 0 {
        if hatX < 0 {
          servoTargets := servoTargets[SERVO_LEFT_TILT := TILT_LEFT_OFFSET - (TILT_UP - TILT_LEFT_OFFSET)];
          servoTargets := servoTargets[SERVO_RIGHT_TILT := TILT_DOWN];
        } else {
          servoTargets := servoTargets[SERVO_LEFT_TILT := TILT_LEFT_OFFSET - (TILT_DOWN - TILT_LEFT_OFFSET)];
          servoTargets := servoTargets[SERVO_RIGHT_TILT := TILT_UP];
        }
      }
      var hatY := if AxisKey(HatY) in jsState then jsState[AxisKey(HatY)] else 0;
      if hatY != 0 {
        if hatY < 0 {
          servoTargets := servoTargets[SERVO_LEFT_TILT := TILT_LEFT_OFFSET - (TILT_DOWN - TILT_LEFT_OFFSET)];
          servoTargets := servoTargets[SERVO_RIGHT_TILT := TILT_DOWN];
        } else {
          servoTargets := servoTargets[SERVO_LEFT_TILT := TILT_LEFT_OFFSET - (TILT_UP - TILT_LEFT_OFFSET)];
          servoTargets := servoTargets[SERVO_RIGHT_TILT := TILT_UP];
        }
      } else if hatX == 0 {
        servoTargets := servoTargets[SERVO_LEFT_TILT := TILT_LEFT_OFFSET - (TILT_CENTER - TILT_LEFT_OFFSET)];
        servoTargets := servoTargets[SERVO_RIGHT_TILT := TILT_CENTER];
      }
    }

    /** move_robot, then one ramp step of servo_pos toward servo_targets, then position_servos. */
    method Actuate(speeds: WheelSpeeds)
      requires Valid()
      modifies head
      ensures Valid()
      ensures head.servoPos == StepAll(old(head.servoPos), servoTargets, SERVO_RATE)
      ensures head.log == old(head.log) + DriveCommands(speeds) + ServoTrace(head.servoPos)
    {
      head.MoveRobot(speeds);
      var newPos := CalcServoPositions(head.servoPos, servoTargets, SERVO_RATE);
      head.servoPos := newPos;
      head.PositionServos(head.servoPos);
    }

    /** One Tick, seen through the value model: the new state is PassState of the old one, and a
        completed pass appends its PassCommands. */
    method Pass(input: TickInput) returns (crashed: bool)
      requires Valid()
      modifies this, head
      ensures Valid()
      ensures PassState(old(State()), input.event) == if crashed then None else Some(State())
      ensures crashed ==> State() == old(State()) && head.log == old(head.log)
      ensures !crashed ==> head.log == old(head.log) + PassCommands(State(), input.speeds)
    {
      crashed := Tick(input);
    }

    /** `while quit != True:` from the current state on, one Tick per input. */
    method RunPasses(inputs: seq<TickInput>) returns (passes: nat, crashed: bool)
      requires Valid()
      modifies this, head
      ensures Valid()
      ensures var t := RunFrom(old(State()), inputs);
              && crashed == t.crashed
              && passes == |t.states| + (if crashed then 1 else 0) <= |inputs|
              && Final(old(State()), t.states) == State()
              && head.log == old(head.log) + PassesLog(t.states, inputs)
              && |PassesLog(t.states, inputs)| == 9 * |t.states|
    {
      ghost var s0 := State();
      ghost var states: seq<LoopState> := [];
      passes, crashed := 0, false;
      assert inputs[0..] == inputs;
      assert RunSplits(s0, inputs, 0, states, s0);
      while !quit && passes < |inputs|
        invariant Valid()
        invariant passes <= |inputs| && |states| == passes && !crashed
        invariant Final(s0, states) == State()
        invariant head.log == old(head.log) + PassesLog(states, inputs)
        invariant |PassesLog(states, inputs)| == 9 * |states|
        invariant RunSplits(s0, inputs, passes, states, State())
        decreases |inputs| - passes
      {
        ghost var cur := State();
        var input := inputs[passes];
        crashed := Pass(input);
        passes := passes + 1;
        if crashed {
          RunFromCrash(cur, inputs, passes - 1);
          assert states + [] == states;
          break;
        }
        ghost var next := State();
        PassAdvances(s0, inputs, states, cur, next, old(head.log));
        states := states + [next];
      }
      if !crashed {
        RunFromDone(State(), inputs, passes);
        assert states + [] == states;
      }
      assert RunFrom(s0, inputs).states == states;
    }

    /** main from its local initialisation on: center the head, run passes until quit is set (or
        the inputs run out), then send one stop command to all wheels. A failed lookup ends the
        run at once, without the stop command. */
    method Run(inputs: seq<TickInput>) returns (passes: nat, crashed: bool)
      requires Valid()
      modifies this, head
      ensures Valid()
      ensures var s0 := LoopState(map[], false, 0, old(servoTargets),
                                  old(head.servoPos)[SERVO_LEFT_TILT := NeckCommand(TILT_CENTER).left]
                                                    [SERVO_RIGHT_TILT := NeckCommand(TILT_CENTER).right]);
              var t := RunFrom(s0, inputs);
              && crashed == t.crashed
              && passes == |t.states| + (if crashed then 1 else 0) <= |inputs|
              && Final(s0, t.states) == State()
              && head.log == old(head.log) + NeckCommands(TILT_CENTER) + PassesLog(t.states, inputs) +
                             (if quit && !crashed then DriveCommands(WheelSpeeds(0.0, 0.0, 0.0)) else [])
      ensures !crashed && !quit ==> passes == |inputs|
      ensures quit <==> Truthy(jsState, ButtonKey(Home))
      ensures |head.log| == |old(head.log)| + 2 + 9 * (if crashed then passes - 1 else passes) +
                            (if quit && !crashed then 6 else 0)
    {
      jsState := map[];
      quit := false;
      vAngular := 0;
      head.TiltNeck(TILT_CENTER);
      ghost var s0 := State();
      ghost var logStart := head.log;
      passes, crashed := RunPasses(inputs);
      ghost var t := RunFrom(s0, inputs);
      RunUsesInputs(s0, inputs);
      RunStopsAtFirstQuit(s0, inputs);
      if quit && !crashed {
        head.MoveRobot(WheelSpeeds(0.0, 0.0, 0.0));
        DriveCommandsBounded(WheelSpeeds(0.0, 0.0, 0.0));
      } else {
        assert head.log == logStart + PassesLog(t.states, inputs) + [];
      }
    }
  }
}
