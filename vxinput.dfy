/**
 * The virtual-controller binding: the D-pad code, the stick direction chosen
 * from a clock hour or a compass point, the fixed sequence of setter calls
 * `set_state` makes for a flag mask, the `Controller` object over one
 * virtual controller and the `VXInput` object over the virtual bus.
 */
module VXInput {
  import opened Wrappers
  import opened PyText
  import opened GamepadFlags
  import opened Environment
  import XI = XInput

  const AXIS_MAX: int := 0x8000 - 1
  const AXIS_MIN: int := -AXIS_MAX
  const TRIGGER_MAX: int := 0x80 - 1
  const TRIGGER_MIN: int := -TRIGGER_MAX

  const DPAD_UP: bv8 := 0x01
  const DPAD_DOWN: bv8 := 0x02
  const DPAD_LEFT: bv8 := 0x04
  const DPAD_RIGHT: bv8 := 0x08
  const DPAD_OFF: bv8 := 0

  // ---------------------------------------------------------------------------
  // The D-pad code.

  /**
   * The value `set_state` hands to `SetDpad`: the XOR of the bits of the
   * pressed directions. The bits are distinct, so the XOR is their sum.
   */
  function DpadCode(up: bool, down: bool, left: bool, right: bool): (code: int)
    ensures code == (if up then 1 else 0) + (if down then 2 else 0) + (if left then 4 else 0) + (if right then 8 else 0)
    ensures 0 <= code < 16
    ensures code == DPAD_OFF as int <==> !up && !down && !left && !right
  {
    ((if up then DPAD_UP else 0)
      ^ (if down then DPAD_DOWN else 0)
      ^ (if left then DPAD_LEFT else 0)
      ^ (if right then DPAD_RIGHT else 0)) as int
  }

  /** The XOR equals the OR of the pressed bits, and each bit reads back. */
  lemma DpadCodeBits(up: bool, down: bool, left: bool, right: bool)
    ensures var c := DpadCode(up, down, left, right) as bv8;
      && c == (if up then DPAD_UP else 0) | (if down then DPAD_DOWN else 0)
              | (if left then DPAD_LEFT else 0) | (if right then DPAD_RIGHT else 0)
      && (c & DPAD_UP != 0 <==> up) && (c & DPAD_DOWN != 0 <==> down)
      && (c & DPAD_LEFT != 0 <==> left) && (c & DPAD_RIGHT != 0 <==> right)
  {
  }

  // ---------------------------------------------------------------------------
  // The direction of a stick.

  /** `clock_to_xy`'s angle: 30 degrees per hour of `clock % 12`. */
  function ClockAngle(clock: int): (deg: real)
    ensures 0.0 <= deg < 360.0
  {
    (360.0 / 12.0) * ((clock % 12) as real)
  }

  /** Two hours point the same way exactly when they agree modulo 12. */
  lemma ClockSameDirection(c: int, d: int)
    ensures ClockAngle(c) == ClockAngle(d) <==> c % 12 == d % 12
  {
  }

  /** Python's `%` is never negative for the divisor 12, so hour -3 is hour 9. */
  lemma ClockHours()
    ensures ClockAngle(0) == 0.0 && ClockAngle(12) == 0.0
    ensures ClockAngle(3) == 90.0 && ClockAngle(6) == 180.0 && ClockAngle(9) == 270.0
    ensures ClockAngle(-3) == 270.0 && ClockAngle(15) == 90.0
  {
  }

  /** The sixteen compass points, clockwise from north. */
  const COMPASS_POINTS: seq<string> := [
    "N", "NNE", "NE", "ENE", "E", "ESE", "SE", "SSE",
    "S", "SSW", "SW", "WSW", "W", "WNW", "NW", "NNW"
  ]

  /** `compass_to_xy`'s table of angles in degrees. */
  const COMPASS: map<string, real> := map[
    "N" := 0.0, "E" := 90.0, "S" := 180.0, "W" := 270.0,
    "NE" := 45.0, "NW" := 315.0, "SE" := 135.0, "SW" := 225.0,
    "NNE" := 22.5, "ENE" := 67.5, "ESE" := 112.5, "SSE" := 157.5,
    "SSW" := 202.5, "WSW" := 247.5, "WNW" := 292.5, "NNW" := 337.5
  ]

  /** `compass_to_xy`'s angle: the table's entry, and 0 for any other word. */
  function CompassAngle(dir: string): real {
    if dir in COMPASS then COMPASS[dir] else 0.0
  }

  /**
   * The table names exactly the sixteen points, the i-th of them at
   * 22.5 * i degrees; every other word points north.
   */
  lemma CompassTable(dir: string)
    ensures dir in COMPASS <==> dir in COMPASS_POINTS
    ensures forall i :: 0 <= i < |COMPASS_POINTS| ==> CompassAngle(COMPASS_POINTS[i]) == 22.5 * i as real
    ensures dir !in COMPASS_POINTS ==> CompassAngle(dir) == 0.0
  {
    CompassKeys(dir);
    CompassAngles();
  }

  lemma CompassKeys(dir: string)
    ensures dir in COMPASS <==> dir in COMPASS_POINTS
  {
  }

  lemma CompassAngles()
    ensures forall i :: 0 <= i < |COMPASS_POINTS| ==> CompassAngle(COMPASS_POINTS[i]) == 22.5 * i as real
  {
  }

  /**
   * The angle `set_ls`/`set_rs` aim at: the clock angle when `int(dir)`
   * succeeds, otherwise (ValueError) the compass angle of `dir`.
   */
  function StickAngle(dir: string): real {
    match ParseInt(dir)
    case Some(clock) => ClockAngle(clock)
    case None => CompassAngle(dir)
  }

  /** Any integer written out is read as a clock hour. */
  lemma StickAngleOfNumber(k: int)
    ensures StickAngle(FormatInt(k)) == ClockAngle(k)
  {
    ParseFormat(k);
  }

  /** A compass point is not a number, so it reaches the compass table. */
  lemma StickAngleOfCompassPoint(i: int)
    requires 0 <= i < |COMPASS_POINTS|
    ensures ParseInt(COMPASS_POINTS[i]) == None
    ensures StickAngle(COMPASS_POINTS[i]) == 22.5 * i as real
  {
    var p := COMPASS_POINTS[i];
    assert !IsSpace(p[0]) && !IsSpace(p[|p| - 1]) && !IsDigit(p[0]);
    assert TrimRight(TrimLeft(p)) == p;
    CompassTable(p);
  }

  /** The hours 12, 3, 6 and 9 point like N, E, S and W. */
  lemma ClockMatchesCompass()
    ensures StickAngle("12") == StickAngle("N") == 0.0
    ensures StickAngle("3") == StickAngle("E") == 90.0
    ensures StickAngle("6") == StickAngle("S") == 180.0
    ensures StickAngle("9") == StickAngle("W") == 270.0
  {
    NoonIsNorth();
    ThreeIsEast();
    SixIsSouth();
    NineIsWest();
  }

  lemma NoonIsNorth()
    ensures StickAngle("12") == StickAngle("N") == 0.0
  {
    assert FormatInt(12) == "12" && COMPASS_POINTS[0] == "N";
    HourMatchesPoint(12, 0);
    StickAngleOfCompassPoint(0);
  }

  lemma ThreeIsEast()
    ensures StickAngle("3") == StickAngle("E") == 90.0
  {
    assert FormatInt(3) == "3" && COMPASS_POINTS[4] == "E";
    HourMatchesPoint(3, 4);
    StickAngleOfCompassPoint(4);
  }

  lemma SixIsSouth()
    ensures StickAngle("6") == StickAngle("S") == 180.0
  {
    assert FormatInt(6) == "6" && COMPASS_POINTS[8] == "S";
    HourMatchesPoint(6, 8);
    StickAngleOfCompassPoint(8);
  }

  lemma NineIsWest()
    ensures StickAngle("9") == StickAngle("W") == 270.0
  {
    assert FormatInt(9) == "9" && COMPASS_POINTS[12] == "W";
    HourMatchesPoint(9, 12);
    StickAngleOfCompassPoint(12);
  }

  lemma HourMatchesPoint(k: int, i: int)
    requires 0 <= i < |COMPASS_POINTS| && ClockAngle(k) == 22.5 * i as real
    ensures StickAngle(FormatInt(k)) == StickAngle(COMPASS_POINTS[i])
  {
    StickAngleOfNumber(k);
    StickAngleOfCompassPoint(i);
  }

  /** Whitespace around a number is stripped, as `int()` does. */
  lemma PaddedHour()
    ensures StickAngle(" 15 ") == 90.0
  {
    assert TrimRight(TrimLeft(" 15 ")) == "15";
    assert DigitsValue("15") == 15 by {
      assert "15"[..1] == "1";
      assert "1"[..0] == "";
    }
  }

  /** A word that is neither a number nor one of the sixteen points aims north. */
  lemma UnknownWordIsNorth(dir: string)
    ensures ParseInt(dir).None? && dir !in COMPASS_POINTS ==> StickAngle(dir) == 0.0
  {
    CompassTable(dir);
  }

  /** The points are upper case: lower-case `north` is an unknown word. */
  lemma LowerCaseNorth()
    ensures StickAngle("north") == 0.0
  {
    assert !IsDigit("north"[0]);
    assert TrimRight(TrimLeft("north")) == "north";
    UnknownWordIsNorth("north");
  }

  /**
   * The two axis calls of `set_ls`/`set_rs`. `polar` stands for the cosine
   * and sine scaling by `AXIS_MAX` and `AXIS_MIN` and the `int()`
   * truncation: it maps an angle in degrees and an amount to the x and y
   * values.
   */
  function StickTrace(
    id: nat, fx: Setter, fy: Setter, dir: string, amount: int, polar: (real, int) -> (int, int)
  ): seq<Event> {
    var xy := polar(StickAngle(dir), amount);
    [Dll(Set(fx, id, Marshal(fx, [Int(xy.0)]))), Dll(Set(fy, id, Marshal(fy, [Int(xy.1)])))]
  }

  /**
   * The declared axis and trigger ranges fit the DLL's argument types: a
   * value within them reaches the setter unchanged.
   */
  lemma RangesFitArgTypes(n: int)
    ensures AXIS_MIN <= n <= AXIS_MAX ==> Convert(CShort, Int(n)) == n
    ensures TRIGGER_MIN <= n <= TRIGGER_MAX ==> Convert(CByte, Int(n)) == n
  {
    ConvertInRange(CShort, n);
    ConvertInRange(CByte, n);
  }

  /** The stick moves on its own two axes, x first, to the values `polar` gives. */
  lemma StickTraceShape(
    id: nat, fx: Setter, fy: Setter, dir: string, amount: int, polar: (real, int) -> (int, int)
  )
    requires fx != fy && ArgTypes(fx) == ArgTypes(fy) == [CShort]
    ensures var t := StickTrace(id, fx, fy, dir, amount, polar);
      var xy := polar(StickAngle(dir), amount);
      && Calls(t) == [fx, fy]
      && Latest(t, fx, id) == Some([Convert(CShort, Int(xy.0))])
      && Latest(t, fy, id) == Some([Convert(CShort, Int(xy.1))])
  {
    var t := StickTrace(id, fx, fy, dir, amount, polar);
    var xy := polar(StickAngle(dir), amount);
    assert t[..1] == [t[0]];
    assert t[..1][..0] == [];
    assert Marshal(fx, [Int(xy.0)]) == [Convert(CShort, Int(xy.0))];
    assert Marshal(fy, [Int(xy.1)]) == [Convert(CShort, Int(xy.1))];
  }

  // ---------------------------------------------------------------------------
  // `set_state`: the setter calls for a reading and a flag mask.

  /** The setter `set_state` calls for each single flag. */
  function SetterFor(f: Flag): Setter {
    match f
    case Dpad => SetDpad
    case Start => SetBtnStart
    case Back => SetBtnBack
    case Lt => SetBtnLT
    case Rt => SetBtnRT
    case Lb => SetBtnLB
    case Rb => SetBtnRB
    case A => SetBtnA
    case B => SetBtnB
    case X => SetBtnX
    case Y => SetBtnY
    case TriggerL => SetTriggerL
    case TriggerR => SetTriggerR
    case AxisLx => SetAxisX
    case AxisLy => SetAxisY
    case AxisRx => SetAxisRx
    case AxisRy => SetAxisRy
  }

  /** The field of the reading `set_state` passes for each single flag. */
  function Reading(f: Flag, s: XI.PadState): Value {
    match f
    case Dpad => Int(DpadCode(s.dpadUp, s.dpadDown, s.dpadLeft, s.dpadRight))
    case Start => Bool(s.start)
    case Back => Bool(s.back)
    case Lt => Bool(s.leftThumb)
    case Rt => Bool(s.rightThumb)
    case Lb => Bool(s.leftShoulder)
    case Rb => Bool(s.rightShoulder)
    case A => Bool(s.a)
    case B => Bool(s.b)
    case X => Bool(s.x)
    case Y => Bool(s.y)
    case TriggerL => Int(s.leftTrigger)
    case TriggerR => Int(s.rightTrigger)
    case AxisLx => Int(s.lThumbX)
    case AxisLy => Int(s.lThumbY)
    case AxisRx => Int(s.rThumbX)
    case AxisRy => Int(s.rThumbY)
  }

  /** The call `set_state` makes for flag `f`. */
  function Entry(id: nat, s: XI.PadState, f: Flag): Event {
    Dll(Set(SetterFor(f), id, Marshal(SetterFor(f), [Reading(f, s)])))
  }

  /** One `if GamepadState.f in flags:` line: its call, or nothing. */
  function Pick(id: nat, s: XI.PadState, flags: Mask, f: Flag): seq<Event> {
    if Has(flags, f) then [Entry(id, s, f)] else []
  }

  /** Distinct flags drive distinct setters. */
  lemma {:induction false} SetterForInjective(f: Flag, g: Flag)
    ensures SetterFor(f) == SetterFor(g) ==> f == g
  {
    match f
    case Dpad =>
    case Start =>
    case Back =>
    case Lt =>
    case Rt =>
    case Lb =>
    case Rb =>
    case A =>
    case B =>
    case X =>
    case Y =>
    case TriggerL =>
    case TriggerR =>
    case AxisLx =>
    case AxisLy =>
    case AxisRx =>
    case AxisRy =>
  }

  /** The flags of the lines of `set_state`, in order: every single flag, then `axis_ry` again. */
  const SET_STATE_LINES: seq<Flag> := [
    Dpad, Start, Back, Lt, Rt, Lb, Rb, A, B, X, Y, TriggerL, TriggerR,
    AxisLx, AxisLy, AxisRx, AxisRy, AxisRy
  ]

  /** The calls the lines for the flags `fs` make, one line after the other. */
  function Lines(id: nat, s: XI.PadState, flags: Mask, fs: seq<Flag>): seq<Event>
    decreases |fs|
  {
    if fs == [] then []
    else Lines(id, s, flags, fs[..|fs| - 1]) + Pick(id, s, flags, fs[|fs| - 1])
  }

  /** All of `set_state`. */
  function SetStateTrace(id: nat, s: XI.PadState, flags: Mask): seq<Event> {
    Lines(id, s, flags, SET_STATE_LINES)
  }

  lemma LinesSnoc(id: nat, s: XI.PadState, flags: Mask, fs: seq<Flag>, g: Flag)
    ensures Lines(id, s, flags, fs + [g]) == Lines(id, s, flags, fs) + Pick(id, s, flags, g)
  {
    assert (fs + [g])[..|fs|] == fs;
  }

  /** The flags of `fs` that are in the mask, in order. */
  function Chosen(flags: Mask, fs: seq<Flag>): (c: seq<Flag>)
    ensures |c| <= |fs|
  {
    if fs == [] then []
    else Chosen(flags, fs[..|fs| - 1]) + (if Has(flags, fs[|fs| - 1]) then [fs[|fs| - 1]] else [])
  }

  lemma {:induction false} ChosenMembers(flags: Mask, fs: seq<Flag>, g: Flag)
    ensures g in Chosen(flags, fs) <==> g in fs && Has(flags, g)
    decreases |fs|
  {
    if fs != [] {
      ChosenMembers(flags, fs[..|fs| - 1], g);
      assert fs == fs[..|fs| - 1] + [fs[|fs| - 1]];
    }
  }

  /** Where every flag of `fs` is in the mask, all of them are chosen. */
  lemma {:induction false} ChosenEvery(flags: Mask, fs: seq<Flag>)
    requires forall i :: 0 <= i < |fs| ==> Has(flags, fs[i])
    ensures Chosen(flags, fs) == fs
    decreases |fs|
  {
    if fs != [] {
      var init := fs[..|fs| - 1];
      assert forall i :: 0 <= i < |init| ==> init[i] == fs[i];
      ChosenEvery(flags, init);
      assert fs == init + [fs[|fs| - 1]];
    }
  }

  /** Where no flag of `fs` is in the mask, none is chosen. */
  lemma {:induction false} ChosenNone(flags: Mask, fs: seq<Flag>)
    requires forall i :: 0 <= i < |fs| ==> !Has(flags, fs[i])
    ensures Chosen(flags, fs) == []
    decreases |fs|
  {
    if fs != [] {
      var init := fs[..|fs| - 1];
      assert forall i :: 0 <= i < |init| ==> init[i] == fs[i];
      ChosenNone(flags, init);
    }
  }

  lemma {:induction false} ChosenAppend(flags: Mask, a: seq<Flag>, b: seq<Flag>)
    ensures Chosen(flags, a + b) == Chosen(flags, a) + Chosen(flags, b)
    decreases |b|
  {
    if b == [] {
      assert a + b == a;
    } else {
      var b' := b[..|b| - 1];
      assert (a + b)[..|a + b| - 1] == a + b';
      ChosenAppend(flags, a, b');
    }
  }

  /** The calls for a list of flags, one per flag. */
  function Entries(id: nat, s: XI.PadState, c: seq<Flag>): (es: seq<Event>)
    ensures |es| == |c|
  {
    seq(|c|, i requires 0 <= i < |c| => Entry(id, s, c[i]))
  }

  /** The lines for `fs` make the calls of the chosen flags, in order. */
  lemma {:induction false} LinesAreEntries(id: nat, s: XI.PadState, flags: Mask, fs: seq<Flag>)
    ensures Lines(id, s, flags, fs) == Entries(id, s, Chosen(flags, fs))
    decreases |fs|
  {
    if fs != [] {
      var init := fs[..|fs| - 1];
      var last := fs[|fs| - 1];
      LinesAreEntries(id, s, flags, init);
      var c := Chosen(flags, init);
      if Has(flags, last) {
        assert Entries(id, s, c + [last]) == Entries(id, s, c) + [Entry(id, s, last)];
      } else {
        assert c + [] == c;
        assert Lines(id, s, flags, init) + [] == Lines(id, s, flags, init);
      }
    }
  }

  /** Distinct flags make distinct calls. */
  lemma EntryInjective(id: nat, s: XI.PadState, f: Flag, g: Flag)
    ensures Entry(id, s, f) == Entry(id, s, g) ==> f == g
  {
    SetterForInjective(f, g);
  }

  /** Every flag has a line. */
  lemma EveryFlagHasALine(f: Flag)
    ensures f in SET_STATE_LINES
  {
    EveryFlagListed(f);
    assert SET_STATE_LINES == FLAGS + [AxisRy];
  }

  /** The calls for `c` include the call of `f` exactly when `f` is in `c`. */
  lemma EntriesHas(id: nat, s: XI.PadState, c: seq<Flag>, f: Flag)
    ensures Entry(id, s, f) in Entries(id, s, c) <==> f in c
  {
    if Entry(id, s, f) in Entries(id, s, c) {
      var i :| 0 <= i < |c| && Entries(id, s, c)[i] == Entry(id, s, f);
      EntryInjective(id, s, c[i], f);
    }
    if f in c {
      var i :| 0 <= i < |c| && c[i] == f;
      assert Entries(id, s, c)[i] == Entry(id, s, f);
    }
  }

  /** `set_state` makes the call of a flag exactly when the flag is in the mask. */
  lemma SetStateHasEntry(id: nat, s: XI.PadState, flags: Mask, f: Flag)
    ensures Entry(id, s, f) in SetStateTrace(id, s, flags) <==> Has(flags, f)
  {
    LinesAreEntries(id, s, flags, SET_STATE_LINES);
    EntriesHas(id, s, Chosen(flags, SET_STATE_LINES), f);
    ChosenMembers(flags, SET_STATE_LINES, f);
    EveryFlagHasALine(f);
  }

  /** Every call `set_state` makes is the call of a flag in the mask. */
  lemma SetStateOnlySelected(id: nat, s: XI.PadState, flags: Mask, e: Event)
    requires e in SetStateTrace(id, s, flags)
    ensures exists f :: Has(flags, f) && e == Entry(id, s, f)
  {
    LinesAreEntries(id, s, flags, SET_STATE_LINES);
    var c := Chosen(flags, SET_STATE_LINES);
    var i :| 0 <= i < |c| && Entries(id, s, c)[i] == e;
    ChosenMembers(flags, SET_STATE_LINES, c[i]);
    assert Has(flags, c[i]) && e == Entry(id, s, c[i]);
  }

  /** With every flag set, the calls come in the order of the source lines. */
  lemma SetStateOrder(id: nat, s: XI.PadState)
    ensures SetStateTrace(id, s, ALL) == [
      Entry(id, s, Dpad), Entry(id, s, Start), Entry(id, s, Back),
      Entry(id, s, Lt), Entry(id, s, Rt), Entry(id, s, Lb), Entry(id, s, Rb),
      Entry(id, s, A), Entry(id, s, B), Entry(id, s, X), Entry(id, s, Y),
      Entry(id, s, TriggerL), Entry(id, s, TriggerR),
      Entry(id, s, AxisLx), Entry(id, s, AxisLy), Entry(id, s, AxisRx),
      Entry(id, s, AxisRy), Entry(id, s, AxisRy)]
  {
    AllLinesChosen();
    LinesAreEntries(id, s, ALL, SET_STATE_LINES);
    EntriesOfLines(id, s);
  }

  lemma AllLinesChosen()
    ensures Chosen(ALL, SET_STATE_LINES) == SET_STATE_LINES
  {
    CompositeValues();
    assert forall i :: 0 <= i < |SET_STATE_LINES| ==> Has(ALL, SET_STATE_LINES[i]);
    ChosenEvery(ALL, SET_STATE_LINES);
  }

  lemma EntriesOfLines(id: nat, s: XI.PadState)
    ensures Entries(id, s, SET_STATE_LINES) == [
      Entry(id, s, Dpad), Entry(id, s, Start), Entry(id, s, Back),
      Entry(id, s, Lt), Entry(id, s, Rt), Entry(id, s, Lb), Entry(id, s, Rb),
      Entry(id, s, A), Entry(id, s, B), Entry(id, s, X), Entry(id, s, Y),
      Entry(id, s, TriggerL), Entry(id, s, TriggerR),
      Entry(id, s, AxisLx), Entry(id, s, AxisLy), Entry(id, s, AxisRx),
      Entry(id, s, AxisRy), Entry(id, s, AxisRy)]
  {
  }

  /** `axis_l`, the mask the poller uses by default, moves the left stick and nothing else. */
  lemma SetStateLeftStick(id: nat, s: XI.PadState)
    ensures SetStateTrace(id, s, AXIS_L) == [
      Dll(Set(SetAxisX, id, [s.lThumbX])), Dll(Set(SetAxisY, id, [s.lThumbY]))]
  {
    LeftStickEntries(id, s);
    EntryValue(id, s, AxisLx);
    EntryValue(id, s, AxisLy);
  }

  lemma LeftStickEntries(id: nat, s: XI.PadState)
    ensures SetStateTrace(id, s, AXIS_L) == [Entry(id, s, AxisLx), Entry(id, s, AxisLy)]
  {
    LeftStickChosen();
    LinesAreEntries(id, s, AXIS_L, SET_STATE_LINES);
    assert Entries(id, s, [AxisLx, AxisLy]) == [Entry(id, s, AxisLx), Entry(id, s, AxisLy)];
  }

  lemma LeftStickChosen()
    ensures Chosen(AXIS_L, SET_STATE_LINES) == [AxisLx, AxisLy]
  {
    var before := SET_STATE_LINES[..13];
    var left := [AxisLx, AxisLy];
    var after := [AxisRx, AxisRy, AxisRy];
    assert SET_STATE_LINES == before + left + after;
    CompositeValues();
    assert forall i :: 0 <= i < |before| ==> !Has(AXIS_L, before[i]);
    assert forall i :: 0 <= i < |left| ==> Has(AXIS_L, left[i]);
    assert forall i :: 0 <= i < |after| ==> !Has(AXIS_L, after[i]);
    ChosenNone(AXIS_L, before);
    ChosenEvery(AXIS_L, left);
    ChosenNone(AXIS_L, after);
    ChosenAppend(AXIS_L, before + left, after);
    ChosenAppend(AXIS_L, before, left);
  }

  /** The last call of `f`'s setter among the calls for `c`. */
  lemma {:induction false} LatestEntries(id: nat, s: XI.PadState, c: seq<Flag>, f: Flag)
    ensures Latest(Entries(id, s, c), SetterFor(f), id)
      == if f in c then Some(Marshal(SetterFor(f), [Reading(f, s)])) else None
    decreases |c|
  {
    if c != [] {
      var init := c[..|c| - 1];
      var last := c[|c| - 1];
      assert c == init + [last];
      assert Entries(id, s, c) == Entries(id, s, init) + [Entry(id, s, last)];
      assert [Entry(id, s, last)][..0] == [];
      LatestAppend(Entries(id, s, init), [Entry(id, s, last)], SetterFor(f), id);
      LatestEntries(id, s, init, f);
      SetterForInjective(f, last);
    }
  }

  /**
   * After `set_state`, the last value every setter of a flag in the mask
   * received is the reading's field for that flag, and the setters of the
   * other flags were not called.
   */
  lemma SetStateLatest(id: nat, s: XI.PadState, flags: Mask, f: Flag)
    ensures Latest(SetStateTrace(id, s, flags), SetterFor(f), id)
      == if Has(flags, f) then Some(Marshal(SetterFor(f), [Reading(f, s)])) else None
  {
    LinesAreEntries(id, s, flags, SET_STATE_LINES);
    LatestEntries(id, s, Chosen(flags, SET_STATE_LINES), f);
    ChosenMembers(flags, SET_STATE_LINES, f);
    EveryFlagHasALine(f);
  }

  /** With every flag set, each flag's setter ends with the converted field. */
  lemma MirrorAllValue(id: nat, s: XI.PadState, f: Flag)
    ensures Latest(SetStateTrace(id, s, ALL), SetterFor(f), id)
      == Some([Convert(FirstArgType(SetterFor(f)), Reading(f, s))])
  {
    SetStateLatest(id, s, ALL, f);
    CompositeMembers(f);
    MarshalOne(SetterFor(f), Reading(f, s));
  }

  /**
   * What the virtual device is meant to see for each field of a reading:
   * the D-pad code; each button as 1 or 0, with the thumb-stick clicks on
   * LT/RT and the shoulders on LB/RB; the thumb axes unchanged; and the
   * triggers' eight bits read as a signed byte.
   */
  function DeviceReading(f: Flag, s: XI.PadState): int {
    match f
    case Dpad => DpadCode(s.dpadUp, s.dpadDown, s.dpadLeft, s.dpadRight)
    case Start => if s.start then 1 else 0
    case Back => if s.back then 1 else 0
    case Lt => if s.leftThumb then 1 else 0
    case Rt => if s.rightThumb then 1 else 0
    case Lb => if s.leftShoulder then 1 else 0
    case Rb => if s.rightShoulder then 1 else 0
    case A => if s.a then 1 else 0
    case B => if s.b then 1 else 0
    case X => if s.x then 1 else 0
    case Y => if s.y then 1 else 0
    case TriggerL => if s.leftTrigger < 128 then s.leftTrigger else s.leftTrigger - 256
    case TriggerR => if s.rightTrigger < 128 then s.rightTrigger else s.rightTrigger - 256
    case AxisLx => s.lThumbX
    case AxisLy => s.lThumbY
    case AxisRx => s.rThumbX
    case AxisRy => s.rThumbY
  }

  /** The ctypes conversion of each field yields exactly that value. */
  lemma DeviceValue(s: XI.PadState, f: Flag)
    ensures Convert(FirstArgType(SetterFor(f)), Reading(f, s)) == DeviceReading(f, s)
  {
    match f
    case Dpad => ConvertInRange(CInt, DpadCode(s.dpadUp, s.dpadDown, s.dpadLeft, s.dpadRight));
    case Start =>
    case Back =>
    case Lt =>
    case Rt =>
    case Lb =>
    case Rb =>
    case A =>
    case B =>
    case X =>
    case Y =>
    case TriggerL => TriggerBitsKept(s.leftTrigger);
    case TriggerR => TriggerBitsKept(s.rightTrigger);
    case AxisLx => ConvertInRange(CShort, s.lThumbX);
    case AxisLy => ConvertInRange(CShort, s.lThumbY);
    case AxisRx => ConvertInRange(CShort, s.rThumbX);
    case AxisRy => ConvertInRange(CShort, s.rThumbY);
  }

  /** The call `set_state` makes for `f` carries the device's reading as the DLL sees it. */
  lemma EntryValue(id: nat, s: XI.PadState, f: Flag)
    ensures Entry(id, s, f) == Dll(Set(SetterFor(f), id, [DeviceReading(f, s)]))
  {
    MarshalOne(SetterFor(f), Reading(f, s));
    DeviceValue(s, f);
  }

  /** With every flag set, the device ends up with every field of the reading. */
  lemma MirrorAllFields(id: nat, s: XI.PadState, f: Flag)
    ensures Latest(SetStateTrace(id, s, ALL), SetterFor(f), id) == Some([DeviceReading(f, s)])
  {
    MirrorAllValue(id, s, f);
    DeviceValue(s, f);
  }

  /** A trigger reading of 0..255 passed as a `c_byte` keeps its eight bits. */
  lemma TriggerBitsKept(t: XI.uint8)
    ensures Convert(CByte, Int(t)) == if t < 128 then t else t - 256
    ensures Convert(CByte, Int(t)) % 256 == t
  {
  }

  /**
   * The second `axis_ry` line changes no setter's last value on any
   * controller: `set_state` leaves the device as the seventeen single lines do.
   */
  lemma RepeatedAxisRyIsHarmless(h: seq<Event>, id: nat, s: XI.PadState, flags: Mask, fn: Setter, id': nat)
    ensures Latest(h + SetStateTrace(id, s, flags), fn, id') == Latest(h + Lines(id, s, flags, FLAGS), fn, id')
  {
    assert SET_STATE_LINES == FLAGS + [AxisRy];
    assert FLAGS == FLAGS[..16] + [AxisRy];
    var once := Lines(id, s, flags, FLAGS);
    var before := Lines(id, s, flags, FLAGS[..16]);
    var last := Pick(id, s, flags, AxisRy);
    LinesSnoc(id, s, flags, FLAGS, AxisRy);
    LinesSnoc(id, s, flags, FLAGS[..16], AxisRy);
    Assoc(h, once, last);
    Assoc(h, before, last);
    LatestAppend(h + once, last, fn, id');
    LatestAppend(h + before, last, fn, id');
  }

  lemma LinesOne(id: nat, s: XI.PadState, flags: Mask, g: Flag)
    ensures Lines(id, s, flags, [g]) == Pick(id, s, flags, g)
  {
    assert [g][..0] == [];
    assert [] + Pick(id, s, flags, g) == Pick(id, s, flags, g);
  }

  /** The lines of two lists one after the other. */
  lemma {:induction false} LinesAppend(id: nat, s: XI.PadState, flags: Mask, a: seq<Flag>, b: seq<Flag>)
    ensures Lines(id, s, flags, a + b) == Lines(id, s, flags, a) + Lines(id, s, flags, b)
    decreases |b|
  {
    if b == [] {
      assert a + b == a;
    } else {
      var b' := b[..|b| - 1];
      assert (a + b)[..|a + b| - 1] == a + b';
      LinesAppend(id, s, flags, a, b');
      Assoc(Lines(id, s, flags, a), Lines(id, s, flags, b'), Pick(id, s, flags, b[|b| - 1]));
    }
  }

  /** Six lines after a prefix `x`, written out. */
  lemma LinesSix(x: seq<Event>, id: nat, s: XI.PadState, flags: Mask, f1: Flag, f2: Flag, f3: Flag, f4: Flag, f5: Flag, f6: Flag)
    ensures x + Lines(id, s, flags, [f1, f2, f3, f4, f5, f6])
      == x + Pick(id, s, flags, f1) + Pick(id, s, flags, f2) + Pick(id, s, flags, f3)
         + Pick(id, s, flags, f4) + Pick(id, s, flags, f5) + Pick(id, s, flags, f6)
  {
    LinesOne(id, s, flags, f1);
    var fs := [f1];
    var t := x + Pick(id, s, flags, f1);
    LinesSnoc(id, s, flags, fs, f2);
    Assoc(x, Lines(id, s, flags, fs), Pick(id, s, flags, f2));
    fs := fs + [f2];
    LinesSnoc(id, s, flags, fs, f3);
    Assoc(x, Lines(id, s, flags, fs), Pick(id, s, flags, f3));
    fs := fs + [f3];
    LinesSnoc(id, s, flags, fs, f4);
    Assoc(x, Lines(id, s, flags, fs), Pick(id, s, flags, f4));
    fs := fs + [f4];
    LinesSnoc(id, s, flags, fs, f5);
    Assoc(x, Lines(id, s, flags, fs), Pick(id, s, flags, f5));
    fs := fs + [f5];
    LinesSnoc(id, s, flags, fs, f6);
    Assoc(x, Lines(id, s, flags, fs), Pick(id, s, flags, f6));
    fs := fs + [f6];
    assert fs == [f1, f2, f3, f4, f5, f6];
  }

  lemma LinesSixHead(id: nat, s: XI.PadState, flags: Mask, f1: Flag, f2: Flag, f3: Flag, f4: Flag, f5: Flag, f6: Flag)
    ensures Lines(id, s, flags, [f1, f2, f3, f4, f5, f6])
      == Pick(id, s, flags, f1) + Pick(id, s, flags, f2) + Pick(id, s, flags, f3)
         + Pick(id, s, flags, f4) + Pick(id, s, flags, f5) + Pick(id, s, flags, f6)
  {
    LinesOne(id, s, flags, f1);
    var fs := [f1];
    LinesSnoc(id, s, flags, fs, f2);
    fs := fs + [f2];
    LinesSnoc(id, s, flags, fs, f3);
    fs := fs + [f3];
    LinesSnoc(id, s, flags, fs, f4);
    fs := fs + [f4];
    LinesSnoc(id, s, flags, fs, f5);
    fs := fs + [f5];
    LinesSnoc(id, s, flags, fs, f6);
    fs := fs + [f6];
    assert fs == [f1, f2, f3, f4, f5, f6];
  }

  /** `set_state` written out line by line, as the source has it. */
  lemma LinesUnrolled(id: nat, s: XI.PadState, flags: Mask)
    ensures SetStateTrace(id, s, flags) == Pick(id, s, flags, Dpad) + Pick(id, s, flags, Start) + Pick(id, s, flags, Back) + Pick(id, s, flags, Lt) + Pick(id, s, flags, Rt) + Pick(id, s, flags, Lb) + Pick(id, s, flags, Rb) + Pick(id, s, flags, A) + Pick(id, s, flags, B) + Pick(id, s, flags, X) + Pick(id, s, flags, Y) + Pick(id, s, flags, TriggerL) + Pick(id, s, flags, TriggerR) + Pick(id, s, flags, AxisLx) + Pick(id, s, flags, AxisLy) + Pick(id, s, flags, AxisRx) + Pick(id, s, flags, AxisRy) + Pick(id, s, flags, AxisRy)
  {
    var c1 := [Dpad, Start, Back, Lt, Rt, Lb];
    var c2 := [Rb, A, B, X, Y, TriggerL];
    var c3 := [TriggerR, AxisLx, AxisLy, AxisRx, AxisRy, AxisRy];
    assert SET_STATE_LINES == c1 + c2 + c3;
    LinesAppend(id, s, flags, c1 + c2, c3);
    LinesAppend(id, s, flags, c1, c2);
    LinesSixHead(id, s, flags, Dpad, Start, Back, Lt, Rt, Lb);
    LinesSix(Pick(id, s, flags, Dpad) + Pick(id, s, flags, Start) + Pick(id, s, flags, Back) + Pick(id, s, flags, Lt) + Pick(id, s, flags, Rt) + Pick(id, s, flags, Lb), id, s, flags, Rb, A, B, X, Y, TriggerL);
    LinesSix(Pick(id, s, flags, Dpad) + Pick(id, s, flags, Start) + Pick(id, s, flags, Back) + Pick(id, s, flags, Lt) + Pick(id, s, flags, Rt) + Pick(id, s, flags, Lb) + Pick(id, s, flags, Rb) + Pick(id, s, flags, A) + Pick(id, s, flags, B) + Pick(id, s, flags, X) + Pick(id, s, flags, Y) + Pick(id, s, flags, TriggerL), id, s, flags, TriggerR, AxisLx, AxisLy, AxisRx, AxisRy, AxisRy);
  }

  // ---------------------------------------------------------------------------
  // The controller object.

  class Controller {
    const lib: VBus
    const id: nat

    constructor (lib: VBus, id: nat)
      ensures this.lib == lib && this.id == id
    {
      this.lib := lib;
      this.id := id;
    }

    /**
     * Every `set_*` method (`control_setter`): forwards the id and all the
     * values to the DLL function and returns its answer. Its `filter` guard
     * is a filter object, which is always true, so no call is ever skipped,
     * not even `set_dpad_off()` with no values. ctypes refuses a call with
     * fewer values than the declared argument types.
     */
    method Control(fn: Setter, values: seq<Value>) returns (r: bool)
      requires |values| >= |ArgTypes(fn)|
      modifies lib.trace
      ensures lib.trace.events == old(lib.trace.events) + [Dll(Set(fn, id, Marshal(fn, values)))]
      ensures r == lib.answer(old(lib.trace.events), Set(fn, id, Marshal(fn, values)))
    {
      r := lib.Invoke(Set(fn, id, Marshal(fn, values)));
    }

    /** `destroy`: forced unplugging only when asked for. */
    method Destroy(force: bool) returns (r: bool)
      modifies lib.trace
      ensures lib.trace.events == old(lib.trace.events) + [Dll(if force then UnPlugForce(id) else UnPlug(id))]
      ensures r == lib.answer(old(lib.trace.events), if force then UnPlugForce(id) else UnPlug(id))
    {
      if force {
        r := lib.Invoke(UnPlugForce(id));
      } else {
        r := lib.Invoke(UnPlug(id));
      }
    }

    /** `set_ls`: the left stick towards a clock hour or a compass point. */
    method SetLs(dir: string, amount: int, polar: (real, int) -> (int, int))
      modifies lib.trace
      ensures lib.trace.events == old(lib.trace.events) + StickTrace(id, SetAxisX, SetAxisY, dir, amount, polar)
    {
      var xy := polar(StickAngle(dir), amount);
      var _ := Control(SetAxisX, [Int(xy.0)]);
      var _ := Control(SetAxisY, [Int(xy.1)]);
    }

    /** `set_rs`: the right stick towards a clock hour or a compass point. */
    method SetRs(dir: string, amount: int, polar: (real, int) -> (int, int))
      modifies lib.trace
      ensures lib.trace.events == old(lib.trace.events) + StickTrace(id, SetAxisRx, SetAxisRy, dir, amount, polar)
    {
      var xy := polar(StickAngle(dir), amount);
      var _ := Control(SetAxisRx, [Int(xy.0)]);
      var _ := Control(SetAxisRy, [Int(xy.1)]);
    }

    /** One line of `set_state`. */
    method SetLine(s: XI.PadState, flags: Mask, f: Flag)
      modifies lib.trace
      ensures lib.trace.events == old(lib.trace.events) + Pick(id, s, flags, f)
    {
      if Has(flags, f) {
        var _ := Control(SetterFor(f), [Reading(f, s)]);
      }
    }

    /** `set_state`: one guarded setter call per flag, `axis_ry` twice. */
    method SetState(s: XI.PadState, flags: Mask)
      modifies lib.trace
      ensures lib.trace.events == old(lib.trace.events) + SetStateTrace(id, s, flags)
    {
      ghost var start := lib.trace.events;
      SetLine(s, flags, Dpad);
      ghost var done := Pick(id, s, flags, Dpad);
      SetLine(s, flags, Start);
      Assoc(start, done, Pick(id, s, flags, Start));
      done := done + Pick(id, s, flags, Start);
      SetLine(s, flags, Back);
      Assoc(start, done, Pick(id, s, flags, Back));
      done := done + Pick(id, s, flags, Back);
      SetLine(s, flags, Lt);
      Assoc(start, done, Pick(id, s, flags, Lt));
      done := done + Pick(id, s, flags, Lt);
      SetLine(s, flags, Rt);
      Assoc(start, done, Pick(id, s, flags, Rt));
      done := done + Pick(id, s, flags, Rt);
      SetLine(s, flags, Lb);
      Assoc(start, done, Pick(id, s, flags, Lb));
      done := done + Pick(id, s, flags, Lb);
      SetLine(s, flags, Rb);
      Assoc(start, done, Pick(id, s, flags, Rb));
      done := done + Pick(id, s, flags, Rb);
      SetLine(s, flags, A);
      Assoc(start, done, Pick(id, s, flags, A));
      done := done + Pick(id, s, flags, A);
      SetLine(s, flags, B);
      Assoc(start, done, Pick(id, s, flags, B));
      done := done + Pick(id, s, flags, B);
      SetLine(s, flags, X);
      Assoc(start, done, Pick(id, s, flags, X));
      done := done + Pick(id, s, flags, X);
      SetLine(s, flags, Y);
      Assoc(start, done, Pick(id, s, flags, Y));
      done := done + Pick(id, s, flags, Y);
      SetLine(s, flags, TriggerL);
      Assoc(start, done, Pick(id, s, flags, TriggerL));
      done := done + Pick(id, s, flags, TriggerL);
      SetLine(s, flags, TriggerR);
      Assoc(start, done, Pick(id, s, flags, TriggerR));
      done := done + Pick(id, s, flags, TriggerR);
      SetLine(s, flags, AxisLx);
      Assoc(start, done, Pick(id, s, flags, AxisLx));
      done := done + Pick(id, s, flags, AxisLx);
      SetLine(s, flags, AxisLy);
      Assoc(start, done, Pick(id, s, flags, AxisLy));
      done := done + Pick(id, s, flags, AxisLy);
      SetLine(s, flags, AxisRx);
      Assoc(start, done, Pick(id, s, flags, AxisRx));
      done := done + Pick(id, s, flags, AxisRx);
      SetLine(s, flags, AxisRy);
      Assoc(start, done, Pick(id, s, flags, AxisRy));
      done := done + Pick(id, s, flags, AxisRy);
      SetLine(s, flags, AxisRy);
      Assoc(start, done, Pick(id, s, flags, AxisRy));
      done := done + Pick(id, s, flags, AxisRy);
      LinesUnrolled(id, s, flags);
    }
  }

  // ---------------------------------------------------------------------------
  // The bus object.

  /** The `VrtCtrlError`s the bus object raises. */
  datatype VrtCtrlError =
    | EmptyBusSlotsFailed
    | NotOwned(id: nat)
    | PlugInFailed(id: nat)

  /** What `controller(id)` does to the DLL, and whether it hands out a controller. */
  datatype Attempt = Attempt(calls: seq<Event>, outcome: Result<(), VrtCtrlError>)

  /**
   * `controller(id)` against a DLL that answers `answer` after history `h`:
   * an existing controller is only taken when we own it; an absent one is
   * plugged in.
   */
  function Connect(id: nat, answer: (seq<Event>, Call) -> bool, h: seq<Event>): Attempt {
    var h1 := h + [Dll(IsControllerExists(id))];
    if answer(h, IsControllerExists(id)) then
      if answer(h1, IsControllerOwned(id)) then Attempt([Dll(IsControllerExists(id)), Dll(IsControllerOwned(id))], Ok(()))
      else Attempt([Dll(IsControllerExists(id)), Dll(IsControllerOwned(id))], Err(NotOwned(id)))
    else if answer(h1, PlugIn(id)) then Attempt([Dll(IsControllerExists(id)), Dll(PlugIn(id))], Ok(()))
    else Attempt([Dll(IsControllerExists(id)), Dll(PlugIn(id))], Err(PlugInFailed(id)))
  }

  /**
   * The decision of `controller(id)`: it succeeds exactly for an owned
   * existing controller or a successful plug-in, it plugs in exactly when the
   * controller does not exist, and it only raises the two documented errors.
   */
  lemma ConnectCases(id: nat, answer: (seq<Event>, Call) -> bool, h: seq<Event>)
    ensures var a := Connect(id, answer, h);
      var exists_ := answer(h, IsControllerExists(id));
      var h1 := h + [Dll(IsControllerExists(id))];
      && a.calls[0] == Dll(IsControllerExists(id))
      && (Dll(PlugIn(id)) in a.calls <==> !exists_)
      && (Dll(IsControllerOwned(id)) in a.calls <==> exists_)
      && (a.outcome.Ok? <==> (exists_ && answer(h1, IsControllerOwned(id))) || (!exists_ && answer(h1, PlugIn(id))))
      && (a.outcome.Err? ==> a.outcome.error == if exists_ then NotOwned(id) else PlugInFailed(id))
  {
  }

  class VXInput {
    const lib: VBus

    constructor (lib: VBus)
      ensures this.lib == lib
    {
      this.lib := lib;
    }

    /** `get_num_empty_bus_slots`: the byte written back, or VrtCtrlError when the call fails. */
    method GetNumEmptyBusSlots() returns (r: Result<XI.uint8, VrtCtrlError>)
      modifies lib.trace
      ensures lib.trace.events == old(lib.trace.events) + [Dll(Call.GetNumEmptyBusSlots)]
      ensures r.Ok? <==> lib.answer(old(lib.trace.events), Call.GetNumEmptyBusSlots)
      ensures r.Ok? ==> r.value == lib.slots(old(lib.trace.events))
      ensures r.Err? ==> r.error == EmptyBusSlotsFailed
    {
      var before := lib.trace.events;
      var ok := lib.Invoke(Call.GetNumEmptyBusSlots);
      if !ok {
        return Err(EmptyBusSlotsFailed);
      }
      r := Ok(lib.slots(before));
    }

    method ControllerExists(id: nat) returns (r: bool)
      modifies lib.trace
      ensures lib.trace.events == old(lib.trace.events) + [Dll(IsControllerExists(id))]
      ensures r == lib.answer(old(lib.trace.events), IsControllerExists(id))
    {
      r := lib.Invoke(IsControllerExists(id));
    }

    method IsControllerOwned(id: nat) returns (r: bool)
      modifies lib.trace
      ensures lib.trace.events == old(lib.trace.events) + [Dll(Call.IsControllerOwned(id))]
      ensures r == lib.answer(old(lib.trace.events), Call.IsControllerOwned(id))
    {
      r := lib.Invoke(Call.IsControllerOwned(id));
    }

    /** `controller(id)`: a new controller object for `id`, as `Connect` decides. */
    method Controller(id: nat) returns (r: Result<Controller, VrtCtrlError>)
      modifies lib.trace
      ensures lib.trace.events == old(lib.trace.events) + Connect(id, lib.answer, old(lib.trace.events)).calls
      ensures r.Ok? <==> Connect(id, lib.answer, old(lib.trace.events)).outcome.Ok?
      ensures r.Err? ==> r.error == Connect(id, lib.answer, old(lib.trace.events)).outcome.error
      ensures r.Ok? ==> fresh(r.value) && r.value.lib == lib && r.value.id == id
    {
      var exists_ := ControllerExists(id);
      if exists_ {
        var owned := IsControllerOwned(id);
        if owned {
          var c := new Controller(lib, id);
          r := Ok(c);
        } else {
          r := Err(NotOwned(id));
        }
      } else {
        var plugged := lib.Invoke(PlugIn(id));
        if plugged {
          var c := new Controller(lib, id);
          r := Ok(c);
        } else {
          r := Err(PlugInFailed(id));
        }
      }
    }
  }
}
