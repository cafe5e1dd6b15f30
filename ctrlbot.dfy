/**
 * The chat commands of the bot's irc3 plugin and one round of the poller
 * that mirrors the physical gamepad onto the virtual one. Each command reads
 * its docopt arguments, decides which setters to call, calls them on the
 * virtual controller and hands the releases to the event loop; the model
 * keeps the decisions and the resulting trace.
 */
module CtrlBot {
  import opened Wrappers
  import opened PyText
  import opened GamepadFlags
  import opened Environment
  import XI = XInput
  import VX = VXInput

  /** The poller's pause between two readings, in seconds. */
  const POLLING_RATE: real := 1.0 / 100.0

  /** The pause between the steps of a D-pad command, in seconds. */
  const BUTTON_DELAY: real := 200.0 / 1000.0

  // ---------------------------------------------------------------------------
  // Reading the arguments.

  /** Python's `max(lo, min(hi, n))`. */
  function Clamp(lo: int, hi: int, n: int): int {
    if n < lo then lo else if n > hi then hi else n
  }

  /**
   * `_duration`: the optional `<duration>` argument in milliseconds, 200 when
   * it is missing (TypeError) or not an integer (ValueError), clamped to
   * 0 .. 10000 and returned in seconds.
   */
  function Duration(arg: Option<string>): (d: real)
    ensures 0.0 <= d <= 10.0
  {
    var ms := match arg
      case None => 200
      case Some(text) => match ParseInt(text) case Some(n) => n case None => 200;
    (Clamp(0, 10000, ms) as real) / 1000.0
  }

  /** A missing or non-numeric duration gives the default 0.2 s. */
  lemma DurationDefault(arg: Option<string>)
    requires arg.None? || ParseInt(arg.value).None?
    ensures Duration(arg) == 0.2
  {
  }

  /**
   * A number written out gives that many milliseconds, in seconds, as long as
   * it lies within 0 .. 10000; beyond either end the bound is used.
   */
  lemma DurationOfNumber(n: int)
    ensures 0 <= n <= 10000 ==> Duration(Some(FormatInt(n))) == n as real / 1000.0
    ensures n < 0 ==> Duration(Some(FormatInt(n))) == 0.0
    ensures n > 10000 ==> Duration(Some(FormatInt(n))) == 10.0
  {
    ParseFormat(n);
  }

  /**
   * The `<count>` of a D-pad command: 1 when it is missing or not an
   * integer, clamped to 1 .. 4.
   */
  function DpadCount(arg: Option<string>): (n: int)
    ensures 1 <= n <= 4
  {
    var count := match arg
      case None => 1
      case Some(text) => match ParseInt(text) case Some(n) => n case None => 1;
    Clamp(1, 4, count)
  }

  /** A missing or non-numeric count gives a single step. */
  lemma DpadCountDefault(arg: Option<string>)
    requires arg.None? || ParseInt(arg.value).None?
    ensures DpadCount(arg) == 1
  {
  }

  /** A number written out is the count, pulled into 1 .. 4. */
  lemma DpadCountOfNumber(n: int)
    ensures 1 <= n <= 4 ==> DpadCount(Some(FormatInt(n))) == n
    ensures n < 1 ==> DpadCount(Some(FormatInt(n))) == 1
    ensures n > 4 ==> DpadCount(Some(FormatInt(n))) == 4
  {
    ParseFormat(n);
  }

  // ---------------------------------------------------------------------------
  // Press now, release later.

  /** A setter called with `press` now and scheduled with `release` after `d`. */
  function Hold(id: nat, fn: Setter, press: Value, release: Value, d: real): seq<Event> {
    [Dll(Set(fn, id, Marshal(fn, [press]))), Later(d, Invocation(id, fn, [release]))]
  }

  /** The setters a hold calls now: just its own. */
  lemma HoldCalls(id: nat, fn: Setter, press: Value, release: Value, d: real)
    ensures Calls(Hold(id, fn, press, release, d)) == [fn]
    ensures Latest(Hold(id, fn, press, release, d), fn, id) == Some(Marshal(fn, [press]))
    ensures forall g :: g != fn ==> Latest(Hold(id, fn, press, release, d), g, id) == None
  {
    var h := Hold(id, fn, press, release, d);
    assert h[..1] == [h[0]];
    assert h[..1][..0] == [];
    forall g | g != fn ensures Latest(h, g, id) == None {
      assert Latest(h, g, id) == Latest(h[..1], g, id) == Latest(h[..1][..0], g, id);
    }
  }

  // ---------------------------------------------------------------------------
  // `button`: A, B, X and Y by letter, in either case.

  /** Python's `c in word.lower()` for a lower-case letter `c`. */
  predicate Names(word: string, c: char) {
    exists i :: 0 <= i < |word| && (word[i] == c || word[i] == UpperChar(c))
  }

  /** One `if "c" in buttons:` block on the lowered word. */
  function ButtonIf(id: nat, keys: string, c: char, fn: Setter, d: real): seq<Event> {
    if Contains(keys, [c]) then Hold(id, fn, Bool(true), Bool(false), d) else []
  }

  /** The calls and schedules `button` makes, in the order of its blocks. */
  function ButtonTrace(id: nat, word: string, d: real): seq<Event> {
    var keys := Lower(word);
    ButtonIf(id, keys, 'a', SetBtnA, d) + ButtonIf(id, keys, 'b', SetBtnB, d)
      + ButtonIf(id, keys, 'x', SetBtnX, d) + ButtonIf(id, keys, 'y', SetBtnY, d)
  }

  /** A block fires exactly when its letter is named, in either case. */
  lemma ButtonIfHold(id: nat, word: string, c: char, fn: Setter, d: real)
    requires 'a' <= c <= 'z'
    ensures ButtonIf(id, Lower(word), c, fn, d) == if Names(word, c) then Hold(id, fn, Bool(true), Bool(false), d) else []
  {
    LowerContainsLetter(word, c);
  }

  lemma ButtonIfCalls(id: nat, word: string, c: char, fn: Setter, d: real)
    requires 'a' <= c <= 'z'
    ensures Calls(ButtonIf(id, Lower(word), c, fn, d)) == if Names(word, c) then [fn] else []
  {
    ButtonIfHold(id, word, c, fn, d);
    HoldCalls(id, fn, Bool(true), Bool(false), d);
  }

  lemma ButtonIfLatest(id: nat, word: string, c: char, fn: Setter, d: real, g: Setter)
    requires 'a' <= c <= 'z'
    ensures Latest(ButtonIf(id, Lower(word), c, fn, d), g, id) == if g == fn && Names(word, c) then Some([1]) else None
  {
    ButtonIfHold(id, word, c, fn, d);
    HoldCalls(id, fn, Bool(true), Bool(false), d);
    MarshalTrue(fn);
  }

  lemma ButtonIfRelease(id: nat, word: string, c: char, fn: Setter, d: real, g: Setter)
    requires 'a' <= c <= 'z'
    ensures Later(d, Invocation(id, g, [Bool(false)])) in ButtonIf(id, Lower(word), c, fn, d)
      <==> g == fn && Names(word, c)
  {
    ButtonIfHold(id, word, c, fn, d);
  }

  /**
   * `button` calls the setters of the buttons its word names, in the order
   * A, B, X, Y, and no other setter.
   */
  lemma ButtonCalls(id: nat, word: string, d: real)
    ensures Calls(ButtonTrace(id, word, d)) ==
      (if Names(word, 'a') then [SetBtnA] else []) + (if Names(word, 'b') then [SetBtnB] else [])
      + (if Names(word, 'x') then [SetBtnX] else []) + (if Names(word, 'y') then [SetBtnY] else [])
  {
    var keys := Lower(word);
    var ta, tb, tx, ty := ButtonIf(id, keys, 'a', SetBtnA, d), ButtonIf(id, keys, 'b', SetBtnB, d),
      ButtonIf(id, keys, 'x', SetBtnX, d), ButtonIf(id, keys, 'y', SetBtnY, d);
    ButtonIfCalls(id, word, 'a', SetBtnA, d);
    ButtonIfCalls(id, word, 'b', SetBtnB, d);
    ButtonIfCalls(id, word, 'x', SetBtnX, d);
    ButtonIfCalls(id, word, 'y', SetBtnY, d);
    CallsAppend(ta + tb + tx, ty);
    CallsAppend(ta + tb, tx);
    CallsAppend(ta, tb);
  }

  /**
   * Each button named is pressed (`c_bool` 1) and its release scheduled; a
   * button not named is never called.
   */
  lemma ButtonPressed(id: nat, word: string, d: real, c: char, fn: Setter)
    requires (c, fn) in {('a', SetBtnA), ('b', SetBtnB), ('x', SetBtnX), ('y', SetBtnY)}
    ensures Latest(ButtonTrace(id, word, d), fn, id) == if Names(word, c) then Some([1]) else None
    ensures Later(d, Invocation(id, fn, [Bool(false)])) in ButtonTrace(id, word, d) <==> Names(word, c)
  {
    var keys := Lower(word);
    var ta, tb, tx, ty := ButtonIf(id, keys, 'a', SetBtnA, d), ButtonIf(id, keys, 'b', SetBtnB, d),
      ButtonIf(id, keys, 'x', SetBtnX, d), ButtonIf(id, keys, 'y', SetBtnY, d);
    assert ButtonTrace(id, word, d) == ta + tb + tx + ty;
    ButtonPressedLast(id, word, d, c, fn);
    ButtonIfRelease(id, word, 'a', SetBtnA, d, fn);
    ButtonIfRelease(id, word, 'b', SetBtnB, d, fn);
    ButtonIfRelease(id, word, 'x', SetBtnX, d, fn);
    ButtonIfRelease(id, word, 'y', SetBtnY, d, fn);
  }

  lemma ButtonPressedLast(id: nat, word: string, d: real, c: char, fn: Setter)
    requires (c, fn) in {('a', SetBtnA), ('b', SetBtnB), ('x', SetBtnX), ('y', SetBtnY)}
    ensures Latest(ButtonTrace(id, word, d), fn, id) == if Names(word, c) then Some([1]) else None
  {
    var keys := Lower(word);
    var ta, tb, tx, ty := ButtonIf(id, keys, 'a', SetBtnA, d), ButtonIf(id, keys, 'b', SetBtnB, d),
      ButtonIf(id, keys, 'x', SetBtnX, d), ButtonIf(id, keys, 'y', SetBtnY, d);
    assert ButtonTrace(id, word, d) == ta + tb + tx + ty;
    ButtonIfLatest(id, word, 'a', SetBtnA, d, fn);
    ButtonIfLatest(id, word, 'b', SetBtnB, d, fn);
    ButtonIfLatest(id, word, 'x', SetBtnX, d, fn);
    ButtonIfLatest(id, word, 'y', SetBtnY, d, fn);
    LatestOfFour(ta, tb, tx, ty, fn, id);
  }

  /** The last call of `fn` in four traces in a row: from the last of them that has one. */
  lemma LatestOfFour(a: seq<Event>, b: seq<Event>, c: seq<Event>, e: seq<Event>, fn: Setter, id: nat)
    ensures Latest(a + b + c + e, fn, id) ==
      if Latest(e, fn, id).Some? then Latest(e, fn, id)
      else if Latest(c, fn, id).Some? then Latest(c, fn, id)
      else if Latest(b, fn, id).Some? then Latest(b, fn, id)
      else Latest(a, fn, id)
  {
    LatestAppend(a + b + c, e, fn, id);
    LatestAppend(a + b, c, fn, id);
    LatestAppend(a, b, fn, id);
  }

  /** `!button Ab` presses A then B; a word without a, b, x or y does nothing. */
  lemma ButtonExamples(id: nat, d: real)
    ensures Calls(ButtonTrace(id, "Ab", d)) == [SetBtnA, SetBtnB]
    ensures ButtonTrace(id, "hello", d) == []
  {
    ButtonAb(id, d);
    ButtonHello(id, d);
  }

  lemma ButtonAb(id: nat, d: real)
    ensures Calls(ButtonTrace(id, "Ab", d)) == [SetBtnA, SetBtnB]
  {
    ButtonCalls(id, "Ab", d);
    assert "Ab"[0] == UpperChar('a') && "Ab"[1] == 'b';
    assert !Names("Ab", 'x') && !Names("Ab", 'y');
  }

  lemma ButtonHello(id: nat, d: real)
    ensures ButtonTrace(id, "hello", d) == []
  {
    LowerContainsLetter("hello", 'a');
    LowerContainsLetter("hello", 'b');
    LowerContainsLetter("hello", 'x');
    LowerContainsLetter("hello", 'y');
    assert !Names("hello", 'a') && !Names("hello", 'b') && !Names("hello", 'x') && !Names("hello", 'y');
  }

  // ---------------------------------------------------------------------------
  // `fire`: the triggers by capital letter.

  /** One `if "L" in selector:` block: pull the trigger fully, release to 0 after `d`. */
  function FireIf(id: nat, selector: string, c: char, fn: Setter, d: real): seq<Event> {
    if Contains(selector, [c]) then Hold(id, fn, Int(VX.TRIGGER_MAX), Int(0), d) else []
  }

  /** The calls and schedules `fire` makes: left trigger first. */
  function FireTrace(id: nat, selector: string, d: real): seq<Event> {
    FireIf(id, selector, 'L', SetTriggerL, d) + FireIf(id, selector, 'R', SetTriggerR, d)
  }

  lemma FireIfFacts(id: nat, selector: string, c: char, fn: Setter, d: real)
    requires fn == SetTriggerL || fn == SetTriggerR
    ensures Calls(FireIf(id, selector, c, fn, d)) == if c in selector then [fn] else []
    ensures Latest(FireIf(id, selector, c, fn, d), fn, id) == if c in selector then Some([VX.TRIGGER_MAX]) else None
    ensures forall g :: g != fn ==> Latest(FireIf(id, selector, c, fn, d), g, id) == None
    ensures forall g :: (Later(d, Invocation(id, g, [Int(0)])) in FireIf(id, selector, c, fn, d)
      <==> g == fn && c in selector)
  {
    ContainsChar(selector, c);
    HoldCalls(id, fn, Int(VX.TRIGGER_MAX), Int(0), d);
    MarshalOne(fn, Int(VX.TRIGGER_MAX));
    ConvertInRange(CByte, VX.TRIGGER_MAX);
  }

  /** `fire` calls the setter of each trigger whose letter is in the selector (case matters), left first. */
  lemma FireCalls(id: nat, selector: string, d: real)
    ensures Calls(FireTrace(id, selector, d)) ==
      (if 'L' in selector then [SetTriggerL] else []) + (if 'R' in selector then [SetTriggerR] else [])
  {
    var tl, tr := FireIf(id, selector, 'L', SetTriggerL, d), FireIf(id, selector, 'R', SetTriggerR, d);
    FireIfFacts(id, selector, 'L', SetTriggerL, d);
    FireIfFacts(id, selector, 'R', SetTriggerR, d);
    CallsAppend(tl, tr);
  }

  /**
   * Each trigger whose letter is in the selector is set to TRIGGER_MAX, with
   * a release to 0 scheduled after `d`; the other is never called.
   */
  lemma FireTriggers(id: nat, selector: string, d: real, c: char, fn: Setter)
    requires (c, fn) in {('L', SetTriggerL), ('R', SetTriggerR)}
    ensures Latest(FireTrace(id, selector, d), fn, id) == if c in selector then Some([VX.TRIGGER_MAX]) else None
    ensures Later(d, Invocation(id, fn, [Int(0)])) in FireTrace(id, selector, d) <==> c in selector
  {
    var tl, tr := FireIf(id, selector, 'L', SetTriggerL, d), FireIf(id, selector, 'R', SetTriggerR, d);
    FireIfFacts(id, selector, 'L', SetTriggerL, d);
    FireIfFacts(id, selector, 'R', SetTriggerR, d);
    LatestAppend(tl, tr, fn, id);
  }

  /** "LR" fires both triggers, "R" only the right one, and "lr" neither. */
  lemma FireExamples(id: nat, d: real)
    ensures Calls(FireTrace(id, "LR", d)) == [SetTriggerL, SetTriggerR]
    ensures Calls(FireTrace(id, "R", d)) == [SetTriggerR]
    ensures FireTrace(id, "lr", d) == []
  {
    FireBoth(id, d);
    FireRight(id, d);
    FireLowerCase(id, d);
  }

  lemma FireBoth(id: nat, d: real)
    ensures Calls(FireTrace(id, "LR", d)) == [SetTriggerL, SetTriggerR]
  {
    FireCalls(id, "LR", d);
    assert "LR"[0] == 'L' && "LR"[1] == 'R';
  }

  lemma FireRight(id: nat, d: real)
    ensures Calls(FireTrace(id, "R", d)) == [SetTriggerR]
  {
    FireCalls(id, "R", d);
    assert "R"[0] == 'R';
  }

  lemma FireLowerCase(id: nat, d: real)
    ensures FireTrace(id, "lr", d) == []
  {
    ContainsChar("lr", 'L');
    ContainsChar("lr", 'R');
  }

  // ---------------------------------------------------------------------------
  // `dpad`: a direction word, repeated presses.

  /**
   * The direction setter of a D-pad command: the lowered word is searched
   * for "up", then "down", "left" and "right"; `None` when none occurs.
   */
  function DpadSetter(dir: string): (fn: Option<Setter>)
    ensures fn.Some? ==> fn.value in {SetDpadUp, SetDpadDown, SetDpadLeft, SetDpadRight}
  {
    var d := Lower(dir);
    if Contains(d, "up") then Some(SetDpadUp)
    else if Contains(d, "down") then Some(SetDpadDown)
    else if Contains(d, "left") then Some(SetDpadLeft)
    else if Contains(d, "right") then Some(SetDpadRight)
    else None
  }

  /** `w` occurs somewhere in the lowered direction word. */
  predicate Mentions(dir: string, w: string) {
    exists i :: 0 <= i <= |dir| && OccursAt(Lower(dir), w, i)
  }

  /**
   * The choice for every word: "up" wherever it occurs; otherwise "down";
   * otherwise "left"; otherwise "right"; none when the word holds none of
   * the four.
   */
  lemma DpadSetterChoice(dir: string)
    ensures DpadSetter(dir) == Some(SetDpadUp) <==> Mentions(dir, "up")
    ensures DpadSetter(dir) == Some(SetDpadDown) <==> !Mentions(dir, "up") && Mentions(dir, "down")
    ensures DpadSetter(dir) == Some(SetDpadLeft) <==>
      !Mentions(dir, "up") && !Mentions(dir, "down") && Mentions(dir, "left")
    ensures DpadSetter(dir) == Some(SetDpadRight) <==>
      !Mentions(dir, "up") && !Mentions(dir, "down") && !Mentions(dir, "left") && Mentions(dir, "right")
    ensures DpadSetter(dir).None? <==>
      !Mentions(dir, "up") && !Mentions(dir, "down") && !Mentions(dir, "left") && !Mentions(dir, "right")
  {
    ContainsIff(Lower(dir), "up");
    ContainsIff(Lower(dir), "down");
    ContainsIff(Lower(dir), "left");
    ContainsIff(Lower(dir), "right");
  }

  /** The direction word is read without regard to case. */
  lemma DpadSetterIgnoresCase(dir: string)
    ensures DpadSetter(Lower(dir)) == DpadSetter(dir)
  {
    LowerIdempotent(dir);
  }

  /**
   * Matching is by substring and "up" wins over "down", "left" and "right";
   * a word naming no direction selects nothing.
   */
  lemma DpadSetterExamples()
    ensures DpadSetter("UP") == Some(SetDpadUp)
    ensures DpadSetter("Left") == Some(SetDpadLeft)
    ensures DpadSetter("downup") == Some(SetDpadUp)
    ensures DpadSetter("north") == None
  {
    DpadUpper();
    DpadLeft();
    DpadDownUp();
    DpadNorth();
  }

  lemma DpadUpper()
    ensures DpadSetter("UP") == Some(SetDpadUp)
  {
    assert Lower("UP") == "up";
  }

  lemma DpadLeft()
    ensures DpadSetter("Left") == Some(SetDpadLeft)
  {
    assert Lower("Left") == "left";
    FirstCharAbsent("left", "up");
    FirstCharAbsent("left", "down");
    assert IsPrefix("left", "left");
  }

  lemma DpadDownUp()
    ensures DpadSetter("downup") == Some(SetDpadUp)
  {
    assert Lower("downup") == "downup";
    assert "downup"[4..6] == "up";
    OccurrenceContained("downup", "up", 4);
  }

  lemma DpadNorth()
    ensures DpadSetter("north") == None
  {
    assert Lower("north") == "north";
    FirstCharAbsent("north", "up");
    FirstCharAbsent("north", "down");
    FirstCharAbsent("north", "left");
    TooLong("orth", "right");
    assert !IsPrefix("right", "north") by {
      assert "north"[0] != "right"[0];
    }
  }

  /** One step: press the direction, wait, release the pad, wait. */
  function DpadStep(id: nat, fn: Setter, delay: real): seq<Event> {
    [Dll(Set(fn, id, Marshal(fn, [Bool(true)]))), Slept(delay), Dll(Set(SetDpadOff, id, [])), Slept(delay)]
  }

  function Repeat(x: seq<Event>, n: nat): seq<Event> {
    if n == 0 then [] else Repeat(x, n - 1) + x
  }

  /** The k-th group of four events of a trace. */
  function Round(t: seq<Event>, k: nat): seq<Event>
    requires 4 * k + 4 <= |t|
  {
    t[4 * k..4 * k + 4]
  }

  /** `n` copies of a four-event step in a row: the k-th round is the step. */
  lemma {:induction false} RepeatRounds(x: seq<Event>, n: nat)
    requires |x| == 4
    ensures |Repeat(x, n)| == 4 * n
    ensures forall k :: 0 <= k < n ==> Round(Repeat(x, n), k) == x
  {
    if n > 0 {
      RepeatRounds(x, n - 1);
      var p := Repeat(x, n - 1);
      var r := Repeat(x, n);
      assert r == p + x;
      forall k | 0 <= k < n ensures Round(r, k) == x {
        if k < n - 1 {
          assert Round(r, k) == Round(p, k);
        } else {
          assert Round(r, k) == r[|p|..];
        }
      }
    }
  }

  /** The calls and sleeps of a D-pad command. */
  function DpadTrace(id: nat, dir: string, count: nat, delay: real): seq<Event> {
    match DpadSetter(dir)
    case None => []
    case Some(fn) => Repeat(DpadStep(id, fn, delay), count)
  }

  /**
   * A D-pad command naming a direction is `count` rounds of a press of that
   * direction (`c_int` 1), a sleep, a release, a sleep; one naming none
   * makes no call.
   */
  lemma DpadRounds(id: nat, dir: string, count: nat, delay: real)
    ensures DpadSetter(dir).None? ==> DpadTrace(id, dir, count, delay) == []
    ensures DpadSetter(dir).Some? ==>
      |DpadTrace(id, dir, count, delay)| == 4 * count
      && forall k :: 0 <= k < count ==> (Round(DpadTrace(id, dir, count, delay), k) ==
        [Dll(Set(DpadSetter(dir).value, id, [1])), Slept(delay), Dll(Set(SetDpadOff, id, [])), Slept(delay)])
  {
    if DpadSetter(dir).Some? {
      var fn := DpadSetter(dir).value;
      MarshalTrue(fn);
      RepeatRounds(DpadStep(id, fn, delay), count);
    }
  }

  // ---------------------------------------------------------------------------
  // The poller's mask.

  /** `ctrl_poll` mirrors the left stick only, or everything while Back is held. */
  function MirrorMask(s: XI.PadState): Mask {
    if s.back then ALL else AXIS_L
  }

  /**
   * Without Back, mirroring moves the left stick to the gamepad's thumb
   * values and calls nothing else; with Back, every setter ends with the
   * gamepad's reading for its flag.
   */
  lemma MirrorChoice(id: nat, s: XI.PadState)
    ensures !s.back ==> (VX.SetStateTrace(id, s, MirrorMask(s)) ==
      [Dll(Set(SetAxisX, id, [s.lThumbX])), Dll(Set(SetAxisY, id, [s.lThumbY]))])
    ensures s.back ==> (forall f :: (Latest(VX.SetStateTrace(id, s, MirrorMask(s)), VX.SetterFor(f), id)
      == Some([VX.DeviceReading(f, s)])))
  {
    if s.back {
      forall f ensures Latest(VX.SetStateTrace(id, s, ALL), VX.SetterFor(f), id) == Some([VX.DeviceReading(f, s)]) {
        VX.MirrorAllFields(id, s, f);
      }
    } else {
      VX.SetStateLeftStick(id, s);
    }
  }

  /** One round of `ctrl_poll` after a good reading: schedule the mirror in 1 s, then sleep. */
  function PollTrace(id: nat, s: XI.PadState): seq<Event> {
    [Later(1.0, Mirror(id, s, MirrorMask(s))), Slept(POLLING_RATE)]
  }

  /**
   * One pass of `ctrl_poll`'s loop body. An error from `update`, or the
   * AttributeError of `state` while the gamepad is disconnected, ends the
   * poller before it schedules anything.
   */
  method PollOnce(loop: EventLoop, ctrl: XI.XInputGamepad, vctrl: VX.Controller)
    returns (r: Result<(), XI.Error>)
    modifies ctrl, ctrl.lib.dll, loop.trace
    ensures ctrl.lastState == old(ctrl.currentState)
    ensures ctrl.lib.dll.queries == old(ctrl.lib.dll.queries) + [ctrl.deviceNumber]
    ensures var reading := ctrl.lib.dll.Read(old(ctrl.lib.dll.queries), ctrl.deviceNumber);
      r.Ok? <==> reading.Ok? && reading.value.Some?
    ensures var reading := ctrl.lib.dll.Read(old(ctrl.lib.dll.queries), ctrl.deviceNumber);
      reading.Ok? ==> ctrl.currentState == reading.value
    ensures var reading := ctrl.lib.dll.Read(old(ctrl.lib.dll.queries), ctrl.deviceNumber);
      reading.Err? ==> ctrl.currentState == old(ctrl.currentState)
    ensures var reading := ctrl.lib.dll.Read(old(ctrl.lib.dll.queries), ctrl.deviceNumber);
      reading.Err? ==> r == Err(reading.error)
    ensures var reading := ctrl.lib.dll.Read(old(ctrl.lib.dll.queries), ctrl.deviceNumber);
      reading.Ok? && reading.value.None? ==> r == Err(XI.AttributeError)
    ensures r.Ok? ==> ctrl.currentState.Some?
    ensures r.Ok? ==> (loop.trace.events ==
      old(loop.trace.events) + PollTrace(vctrl.id, XI.ToPadState(ctrl.currentState.value.gamepad)))
    ensures r.Err? ==> loop.trace.events == old(loop.trace.events)
    ensures ctrl.receivedPackets == old(ctrl.receivedPackets) && ctrl.missedPackets == old(ctrl.missedPackets)
  {
    var u := ctrl.Update();
    if u.Err? {
      return Err(u.error);
    }
    var state := ctrl.State();
    if state.Err? {
      return Err(state.error);
    }
    ScheduleMirror(loop, vctrl.id, state.value);
    return Ok(());
  }

  /** The rest of the loop body once the reading is in hand. */
  method ScheduleMirror(loop: EventLoop, id: nat, s: XI.PadState)
    modifies loop.trace
    ensures loop.trace.events == old(loop.trace.events) + PollTrace(id, s)
  {
    var mask := AXIS_L;
    if s.back {
      mask := ALL;
    }
    loop.CallLater(1.0, Mirror(id, s, mask));
    loop.Sleep(POLLING_RATE);
  }

  // ---------------------------------------------------------------------------
  // The plugin.

  /**
   * The plugin with its event loop, its virtual controller and the D-pad
   * delay. The loop and the controller's DLL write to the same trace.
   */
  class Plugin {
    const loop: EventLoop
    const vctrl: VX.Controller
    const buttonDelay: real

    predicate Valid() {
      vctrl.lib.trace == loop.trace
    }

    constructor (loop: EventLoop, vctrl: VX.Controller)
      requires vctrl.lib.trace == loop.trace
      ensures this.loop == loop && this.vctrl == vctrl && buttonDelay == BUTTON_DELAY
      ensures Valid()
    {
      this.loop := loop;
      this.vctrl := vctrl;
      this.buttonDelay := 200.0 / 1000.0;
    }

    /** `aim`: the right stick, at full magnitude, towards the direction word. */
    method Aim(dir: string, polar: (real, int) -> (int, int))
      requires Valid()
      modifies loop.trace
      ensures loop.trace.events == old(loop.trace.events) + VX.StickTrace(vctrl.id, SetAxisRx, SetAxisRy, dir, 100, polar)
    {
      vctrl.SetRs(dir, 100, polar);
    }

    /** A setter called now, and called again with `release` after `d`. */
    method HoldFor(fn: Setter, press: Value, release: Value, d: real)
      requires Valid() && |ArgTypes(fn)| <= 1
      modifies loop.trace
      ensures loop.trace.events == old(loop.trace.events) + Hold(vctrl.id, fn, press, release, d)
    {
      var _ := vctrl.Control(fn, [press]);
      loop.CallLater(d, Invocation(vctrl.id, fn, [release]));
    }

    /** `fire`: the triggers the selector names, each released after the duration. */
    method Fire(selector: string, duration: Option<string>)
      requires Valid()
      modifies loop.trace
      ensures loop.trace.events == old(loop.trace.events) + FireTrace(vctrl.id, selector, Duration(duration))
    {
      var d := Duration(duration);
      ghost var start := loop.trace.events;
      if Contains(selector, "L") {
        HoldFor(SetTriggerL, Int(VX.TRIGGER_MAX), Int(0), d);
      }
      ghost var done := FireIf(vctrl.id, selector, 'L', SetTriggerL, d);
      assert loop.trace.events == start + done;
      if Contains(selector, "R") {
        HoldFor(SetTriggerR, Int(VX.TRIGGER_MAX), Int(0), d);
      }
    }

    /** `button`: the buttons the lowered word names, each released after the duration. */
    method Button(buttons: string, duration: Option<string>)
      requires Valid()
      modifies loop.trace
      ensures loop.trace.events == old(loop.trace.events) + ButtonTrace(vctrl.id, buttons, Duration(duration))
    {
      var d := Duration(duration);
      var keys := Lower(buttons);
      var id := vctrl.id;
      ghost var start := loop.trace.events;
      if Contains(keys, "a") {
        HoldFor(SetBtnA, Bool(true), Bool(false), d);
      }
      ghost var done := ButtonIf(id, keys, 'a', SetBtnA, d);
      assert loop.trace.events == start + done;
      if Contains(keys, "b") {
        HoldFor(SetBtnB, Bool(true), Bool(false), d);
      }
      Assoc(start, done, ButtonIf(id, keys, 'b', SetBtnB, d));
      done := done + ButtonIf(id, keys, 'b', SetBtnB, d);
      assert loop.trace.events == start + done;
      if Contains(keys, "x") {
        HoldFor(SetBtnX, Bool(true), Bool(false), d);
      }
      Assoc(start, done, ButtonIf(id, keys, 'x', SetBtnX, d));
      done := done + ButtonIf(id, keys, 'x', SetBtnX, d);
      assert loop.trace.events == start + done;
      if Contains(keys, "y") {
        HoldFor(SetBtnY, Bool(true), Bool(false), d);
      }
      Assoc(start, done, ButtonIf(id, keys, 'y', SetBtnY, d));
    }

    /** One round of the `for` loop of `dpad`. */
    method DpadRound(fn: Setter)
      requires Valid() && ArgTypes(fn) == []
      modifies loop.trace
      ensures loop.trace.events == old(loop.trace.events) + DpadStep(vctrl.id, fn, buttonDelay)
    {
      var _ := vctrl.Control(fn, [Bool(true)]);
      loop.Sleep(buttonDelay);
      var _ := vctrl.Control(SetDpadOff, []);
      loop.Sleep(buttonDelay);
    }

    /** `dpad`: `count` rounds of the direction the word names, if it names one. */
    method Dpad(dir: string, count: Option<string>)
      requires Valid()
      modifies loop.trace
      ensures loop.trace.events == old(loop.trace.events) + DpadTrace(vctrl.id, dir, DpadCount(count), buttonDelay)
    {
      var n := DpadCount(count);
      var fn := DpadSetter(dir);
      if fn.Some? {
        var i := 0;
        while i < n
          invariant 0 <= i <= n
          invariant loop.trace.events == old(loop.trace.events) + Repeat(DpadStep(vctrl.id, fn.value, buttonDelay), i)
        {
          DpadRound(fn.value);
          i := i + 1;
        }
      }
    }
  }
}
