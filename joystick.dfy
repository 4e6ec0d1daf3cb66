/**
 * Joystick events of bobby_js.py: the name tables for axes and buttons, and how
 * read_js_event folds one decoded (type, number, value) record into the state dictionary.
 */
module Joystick {
  import opened Basics

  /** Bits of the event type byte. */
  const JS_EVENT_BUTTON: bv8 := 0x01
  const JS_EVENT_AXIS: bv8 := 0x02
  const JS_EVENT_INIT: bv8 := 0x80

  const JS_AXIS_MIN := -32767
  const JS_AXIS_MAX := 32767

  const JS_BUTTON_RELEASED := 0
  const JS_BUTTON_PRESSED := 1

  /** The names of JS_AXIS_NUMBERS. */
  datatype Axis = LeftX | LeftY | RightX | RightY | HatX | HatY

  /** The names of JS_BUTTON_NUMBERS. */
  datatype Button = Square | X | O | Triangle | LTrigger2 | RTrigger2 | LTrigger | RTrigger | Stop | Play | Home

  /** A key of the state dictionary: a known axis or button name, or an unknown raw number
      (unknown axis and button numbers share these keys, as in the dictionary). */
  datatype Key = AxisKey(axis: Axis) | ButtonKey(button: Button) | Raw(number: int)

  function AxisNumber(a: Axis): int
  {
    match a
    case LeftX => 0
    case LeftY => 1
    case RightX => 2
    case RightY => 3
    case HatX => 4
    case HatY => 5
  }

  function ButtonNumber(b: Button): int
  {
    match b
    case Square => 0
    case X => 1
    case O => 2
    case Triangle => 3
    case LTrigger2 => 4
    case RTrigger2 => 5
    case LTrigger => 6
    case RTrigger => 7
    case Stop => 8
    case Play => 9
    case Home => 12
  }

  /** JS_AXIS_NUMBERS lookup: axes 0 to 5 have names. */
  function AxisName(n: int): (r: Option<Axis>)
    ensures r.Some? <==> 0 <= n <= 5
    ensures r.Some? ==> AxisNumber(r.value) == n
  {
    if n == 0 then Some(LeftX)
    else if n == 1 then Some(LeftY)
    else if n == 2 then Some(RightX)
    else if n == 3 then Some(RightY)
    else if n == 4 then Some(HatX)
    else if n == 5 then Some(HatY)
    else None
  }

  /** JS_BUTTON_NUMBERS lookup: buttons 0 to 9 and 12 have names. */
  function ButtonName(n: int): (r: Option<Button>)
    ensures r.Some? <==> 0 <= n <= 9 || n == 12
    ensures r.Some? ==> ButtonNumber(r.value) == n
  {
    if n == 0 then Some(Square)
    else if n == 1 then Some(X)
    else if n == 2 then Some(O)
    else if n == 3 then Some(Triangle)
    else if n == 4 then Some(LTrigger2)
    else if n == 5 then Some(RTrigger2)
    else if n == 6 then Some(LTrigger)
    else if n == 7 then Some(RTrigger)
    else if n == 8 then Some(Stop)
    else if n == 9 then Some(Play)
    else if n == 12 then Some(Home)
    else None
  }

  /** Every name is found again from its number. */
  lemma NameTablesRoundTrip(a: Axis, b: Button)
    ensures AxisName(AxisNumber(a)) == Some(a)
    ensures ButtonName(ButtonNumber(b)) == Some(b)
  {
  }

  /** JS_AXIS_NUMBERS.get(n, n): the axis name, or the raw number when there is none. */
  function AxisKeyFor(n: int): (k: Key)
    ensures k.Raw? <==> AxisName(n).None?
    ensures k.Raw? ==> k.number == n
    ensures k.AxisKey? ==> AxisNumber(k.axis) == n
  {
    match AxisName(n)
    case Some(a) => AxisKey(a)
    case None => Raw(n)
  }

  /** JS_BUTTON_NUMBERS.get(n, n): the button name, or the raw number when there is none. */
  function ButtonKeyFor(n: int): (k: Key)
    ensures k.Raw? <==> ButtonName(n).None?
    ensures k.Raw? ==> k.number == n
    ensures k.ButtonKey? ==> ButtonNumber(k.button) == n
  {
    match ButtonName(n)
    case Some(b) => ButtonKey(b)
    case None => Raw(n)
  }

  /** JS_BUTTON_VALUES lookup: 0 is RELEASED, 1 is PRESSED, anything else is missing. */
  function ButtonValueName(v: int): (r: Option<bool>)
    ensures r.Some? <==> v == JS_BUTTON_RELEASED || v == JS_BUTTON_PRESSED
    ensures r.Some? ==> (r.value <==> v == JS_BUTTON_PRESSED)
  {
    if v == JS_BUTTON_PRESSED then Some(true)
    else if v == JS_BUTTON_RELEASED then Some(false)
    else None
  }

  /** A decoded record: the value, the type bit mask and the axis or button number. */
  datatype Event = Event(value: int, eventType: bv8, number: int)

  predicate HasBit(t: bv8, bit: bv8)
  {
    t & bit != 0
  }

  /** The type names of JS_EVENT_TYPES. */
  datatype EventTag = InitTag | ButtonTag | AxisTag

  /** An entry of the event list read_js_event prints. */
  datatype Item = Tag(tag: EventTag) | Name(key: Key) | ButtonState(pressed: bool) | AxisValue(value: int)

  /** The outcome of folding one record: the event list and the new state, or the KeyError
      raised when a button record carries a value other than 0 or 1. */
  datatype ReadResult =
    | Read(items: seq<Item>, states: map<Key, int>)
    | UnknownButtonValue(value: int)

  /** The keys a record writes: its button key if the button bit is set, its axis key if the
      axis bit is set. */
  function Written(e: Event): set<Key>
  {
    (if HasBit(e.eventType, JS_EVENT_BUTTON) then {ButtonKeyFor(e.number)} else {}) +
    (if HasBit(e.eventType, JS_EVENT_AXIS) then {AxisKeyFor(e.number)} else {})
  }

  /** The type tags of an event list, in order. */
  function TagsOf(items: seq<Item>): seq<EventTag>
    decreases |items|
  {
    if items == [] then []
    else (if items[0].Tag? then [items[0].tag] else []) + TagsOf(items[1..])
  }

  lemma {:induction false} TagsOfAppend(a: seq<Item>, b: seq<Item>)
    ensures TagsOf(a + b) == TagsOf(a) + TagsOf(b)
    decreases |a|
  {
    if a == [] {
      assert a + b == b;
    } else {
      assert (a + b)[0] == a[0];
      assert (a + b)[1..] == a[1..] + b;
      TagsOfAppend(a[1..], b);
    }
  }

  /** A tag followed by entries that are not tags contributes exactly that tag. */
  lemma {:induction false} TagsOfGroup(tag: EventTag, rest: seq<Item>)
    requires forall i :: 0 <= i < |rest| ==> !rest[i].Tag?
    ensures TagsOf([Tag(tag)] + rest) == [tag]
    decreases |rest|
  {
    assert ([Tag(tag)] + rest)[1..] == rest;
    if rest != [] {
      TagsOfGroup(tag, rest[1..]);
      assert TagsOf(rest) == TagsOf([Tag(tag)] + rest[1..])[1..];
    }
  }

  /** The tags a type byte announces, INIT before BUTTON before AXIS. */
  function TagsFor(t: bv8): seq<EventTag>
  {
    (if HasBit(t, JS_EVENT_INIT) then [InitTag] else []) +
    (if HasBit(t, JS_EVENT_BUTTON) then [ButtonTag] else []) +
    (if HasBit(t, JS_EVENT_AXIS) then [AxisTag] else [])
  }

  /** The event list's entries for the INIT bit. */
  function InitItems(t: bv8): seq<Item>
  {
    if HasBit(t, JS_EVENT_INIT) then [Tag(InitTag)] else []
  }

  /** The event list's entries for the BUTTON bit: tag, key and state. */
  function ButtonItems(e: Event): seq<Item>
    requires HasBit(e.eventType, JS_EVENT_BUTTON) ==> ButtonValueName(e.value).Some?
  {
    if HasBit(e.eventType, JS_EVENT_BUTTON)
    then [Tag(ButtonTag), Name(ButtonKeyFor(e.number)), ButtonState(ButtonValueName(e.value).value)]
    else []
  }

  /** The event list's entries for the AXIS bit: tag, key and value. */
  function AxisItems(e: Event): seq<Item>
  {
    if HasBit(e.eventType, JS_EVENT_AXIS) then [Tag(AxisTag), Name(AxisKeyFor(e.number)), AxisValue(e.value)] else []
  }

  /** The three groups of entries carry exactly the tags the type byte announces, in order. */
  lemma EventItemsTags(e: Event)
    requires HasBit(e.eventType, JS_EVENT_BUTTON) ==> ButtonValueName(e.value).Some?
    ensures TagsOf(InitItems(e.eventType) + ButtonItems(e) + AxisItems(e)) == TagsFor(e.eventType)
  {
    var t := e.eventType;
    if HasBit(t, JS_EVENT_BUTTON) {
      TagsOfGroup(ButtonTag, ButtonItems(e)[1..]);
      assert ButtonItems(e) == [Tag(ButtonTag)] + ButtonItems(e)[1..];
    }
    if HasBit(t, JS_EVENT_AXIS) {
      TagsOfGroup(AxisTag, AxisItems(e)[1..]);
      assert AxisItems(e) == [Tag(AxisTag)] + AxisItems(e)[1..];
    }
    TagsOfAppend(InitItems(t), ButtonItems(e));
    TagsOfAppend(InitItems(t) + ButtonItems(e), AxisItems(e));
  }

  /** read_js_event fails on a button record whose value is neither 0 nor 1. */
  predicate Rejected(e: Event)
  {
    HasBit(e.eventType, JS_EVENT_BUTTON) && ButtonValueName(e.value).None?
  }

  /** The state read_js_event leaves for an accepted record: the button write, then the axis
      write. */
  function Record(states: map<Key, int>, e: Event): map<Key, int>
  {
    var afterButton := if HasBit(e.eventType, JS_EVENT_BUTTON) then states[ButtonKeyFor(e.number) := e.value] else states;
    if HasBit(e.eventType, JS_EVENT_AXIS) then afterButton[AxisKeyFor(e.number) := e.value] else afterButton
  }

  /** The body of read_js_event after a record has been decoded. */
  function ReadEvent(states: map<Key, int>, e: Event): (r: ReadResult)
    ensures r.UnknownButtonValue? <==>
      HasBit(e.eventType, JS_EVENT_BUTTON) && e.value != JS_BUTTON_RELEASED && e.value != JS_BUTTON_PRESSED
    ensures r.Read? ==> r.states.Keys == states.Keys + Written(e)
    ensures r.Read? ==> forall k :: k in r.states ==> r.states[k] == if k in Written(e) then e.value else states[k]
    ensures r.Read? ==> TagsOf(r.items) == TagsFor(e.eventType)
  {
    if Rejected(e) then UnknownButtonValue(e.value)
    else
      EventItemsTags(e);
      Read(InitItems(e.eventType) + ButtonItems(e) + AxisItems(e), Record(states, e))
  }

  /** A record with neither the button nor the axis bit (an INIT-only record, for one) leaves the
      state as it was. */
  lemma InitOnlyLeavesState(states: map<Key, int>, e: Event)
    requires !HasBit(e.eventType, JS_EVENT_BUTTON) && !HasBit(e.eventType, JS_EVENT_AXIS)
    ensures ReadEvent(states, e).Read? && ReadEvent(states, e).states == states
  {
  }

  /** A button record with value 0 or 1 sets exactly its button key (the name, or the raw number
      for an unknown button) to the value. */
  lemma ButtonRecordWritesKey(states: map<Key, int>, e: Event)
    requires e.eventType == JS_EVENT_BUTTON && (e.value == 0 || e.value == 1)
    ensures ReadEvent(states, e) ==
      Read([Tag(ButtonTag), Name(ButtonKeyFor(e.number)), ButtonState(e.value == 1)],
           states[ButtonKeyFor(e.number) := e.value])
  {
  }

  /** An axis record sets exactly its axis key to the value. */
  lemma AxisRecordWritesKey(states: map<Key, int>, e: Event)
    requires e.eventType == JS_EVENT_AXIS
    ensures ReadEvent(states, e) ==
      Read([Tag(AxisTag), Name(AxisKeyFor(e.number)), AxisValue(e.value)],
           states[AxisKeyFor(e.number) := e.value])
  {
  }

  /** A number that names neither an axis nor a button lands on the same raw key whether it
      arrives as a button or as an axis record; 13 is such a number. */
  lemma UnknownNumbersShareKeys(n: int)
    requires AxisName(n).None? && ButtonName(n).None?
    ensures ButtonKeyFor(n) == AxisKeyFor(n) == Raw(n)
    ensures AxisName(13).None? && ButtonName(13).None?
  {
  }
}
