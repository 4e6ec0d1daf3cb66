/**
 * The control loop of bobby.py's main: each key read from the terminal updates some of
 * (quit, direction, v_linear, v_angular); every pass then calls move_robot with the current
 * values, and after the loop one final move_robot(0.0, 0, 0) stops the wheels.
 */
module Keyboard {
  import opened Basics

  const SPEED: real := 3000.0

  /** A heading, written as the multiple of pi it is (direction = turns * pi). */
  datatype Heading = PiTimes(turns: real)

  /** main's four loop variables. */
  datatype DriveState = DriveState(quit: bool, direction: Heading, vLinear: real, vAngular: real)

  /** One call move_robot(direction, v_linear, v_angular). */
  datatype Drive = Drive(direction: Heading, vLinear: real, vAngular: real)

  /** The values main starts the loop with. */
  const Initial := DriveState(false, PiTimes(0.0), 0.0, 0.0)

  /** The call after the loop: move_robot(0.0, 0, 0). */
  const StopDrive := Drive(PiTimes(0.0), 0.0, 0.0)

  function DriveOf(s: DriveState): Drive
  {
    Drive(s.direction, s.vLinear, s.vAngular)
  }

  /** The numeric-keypad layout: the heading each digit selects; 5 is the stop key. */
  function KeypadHeading(key: string): Option<Heading>
  {
    match key
    case "1" => Some(PiTimes(-1.5))
    case "2" => Some(PiTimes(1.0))
    case "3" => Some(PiTimes(1.5))
    case "4" => Some(PiTimes(0.5))
    case "5" => Some(PiTimes(0.0))
    case "6" => Some(PiTimes(-0.5))
    case "7" => Some(PiTimes(0.25))
    case "8" => Some(PiTimes(0.0))
    case "9" => Some(PiTimes(-0.25))
    case _ => None
  }

  /** The spin keys: a turns one way, d the other, s stops turning. */
  function SpinSpeed(key: string): Option<real>
  {
    match key
    case "a" => Some(SPEED)
    case "s" => Some(0.0)
    case "d" => Some(-SPEED)
    case _ => None
  }

  /** One pass's if/elif chain on curses.keyname(c). Each key touches only its own variables:
      q only quit, a/s/d only v_angular, a digit only direction and v_linear (SPEED, or 0 for 5);
      any other key nothing. */
  function KeyStep(s: DriveState, key: string): (r: DriveState)
    ensures key == "q" ==> r == s.(quit := true)
    ensures SpinSpeed(key).Some? ==> r == s.(vAngular := SpinSpeed(key).value)
    ensures KeypadHeading(key).Some? ==>
      r == s.(direction := KeypadHeading(key).value, vLinear := if key == "5" then 0.0 else SPEED)
    ensures key != "q" && SpinSpeed(key).None? && KeypadHeading(key).None? ==> r == s
  {
    if key == "q" then s.(quit := true)
    else if key == "a" then s.(vAngular := SPEED)
    else if key == "s" then s.(vAngular := 0.0)
    else if key == "d" then s.(vAngular := -SPEED)
    else if key == "1" then s.(direction := PiTimes(-3.0 / 2.0), vLinear := SPEED)
    else if key == "2" then s.(direction := PiTimes(1.0), vLinear := SPEED)
    else if key == "3" then s.(direction := PiTimes(3.0 / 2.0), vLinear := SPEED)
    else if key == "4" then s.(direction := PiTimes(1.0 / 2.0), vLinear := SPEED)
    else if key == "5" then s.(direction := PiTimes(0.0), vLinear := 0.0)
    else if key == "6" then s.(direction := PiTimes(-1.0 / 2.0), vLinear := SPEED)
    else if key == "7" then s.(direction := PiTimes(1.0 / 4.0), vLinear := SPEED)
    else if key == "8" then s.(direction := PiTimes(0.0), vLinear := SPEED)
    else if key == "9" then s.(direction := PiTimes(-1.0 / 4.0), vLinear := SPEED)
    else s
  }

  /** The loop variables after the given keys, starting from Initial. */
  function Replay(keys: seq<string>): DriveState
    decreases |keys|
  {
    if keys == [] then Initial else KeyStep(Replay(keys[..|keys| - 1]), keys[|keys| - 1])
  }

  /** quit is set exactly when a q has been read; no other key clears it. */
  lemma {:induction false} ReplayQuit(keys: seq<string>)
    ensures Replay(keys).quit <==> "q" in keys
    decreases |keys|
  {
    if keys != [] {
      var init := keys[..|keys| - 1];
      ReplayQuit(init);
      assert keys == init + [keys[|keys| - 1]];
    }
  }

  /** After any keys, the speeds are among the values the keys can set. */
  lemma {:induction false} ReplaySpeeds(keys: seq<string>)
    ensures Replay(keys).vLinear == 0.0 || Replay(keys).vLinear == SPEED
    ensures Replay(keys).vAngular in {0.0, SPEED, -SPEED}
    decreases |keys|
  {
    if keys != [] {
      ReplaySpeeds(keys[..|keys| - 1]);
    }
  }

  /** main's loop from `while quit != True` to the final move_robot, over the keys getch returns.
      It returns the move_robot calls in order, how many keys it read, and whether it quit. */
  method KeyboardLoop(keys: seq<string>) returns (drives: seq<Drive>, consumed: nat, quit: bool)
    ensures consumed <= |keys|
    ensures quit <==> "q" in keys
    ensures quit ==> 0 < consumed && keys[consumed - 1] == "q" && "q" !in keys[..consumed - 1]
    ensures !quit ==> consumed == |keys|
    ensures |drives| == consumed + (if quit then 1 else 0)
    ensures forall j :: 0 <= j < consumed ==> drives[j] == DriveOf(Replay(keys[..j + 1]))
    ensures quit ==> drives[consumed] == StopDrive
  {
    var s := Initial;
    drives, consumed := [], 0;
    while !s.quit && consumed < |keys|
      invariant consumed <= |keys|
      invariant s == Replay(keys[..consumed])
      invariant consumed > 0 ==> "q" !in keys[..consumed - 1]
      invariant |drives| == consumed
      invariant forall j :: 0 <= j < consumed ==> drives[j] == DriveOf(Replay(keys[..j + 1]))
    {
      ReplayQuit(keys[..consumed]);
      var c := keys[consumed];
      s := KeyStep(s, c);
      assert keys[..consumed + 1][..consumed] == keys[..consumed];
      drives := drives + [DriveOf(s)];
      consumed := consumed + 1;
    }
    ReplayQuit(keys[..consumed]);
    if !s.quit {
      assert keys[..consumed] == keys;
    } else {
      assert keys[..consumed] == keys[..consumed - 1] + [keys[consumed - 1]];
    }
    quit := s.quit;
    if quit {
      drives := drives + [StopDrive];
    }
  }
}
