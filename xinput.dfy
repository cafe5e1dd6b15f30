/**
 * Reading physical gamepads through the Windows XInput library.
 *
 * The library itself is outside the model: `XInputDll` stands for it, answering
 * each XInputGetState call from a fixed oracle over the calls made so far.
 * What is modelled is this binding's own logic: the decoding of the 16-bit
 * button mask, `get_bit_values`, the classification of XInputGetState's result
 * code, the two-slot state shift of a gamepad object and the enumeration of
 * the four device slots.
 */
module XInput {
  import opened Wrappers

  /** XInputGetState's result codes (Windows system error codes). */
  const ERROR_SUCCESS := 0
  const ERROR_DEVICE_NOT_CONNECTED := 1167

  /** XInput serves at most four controllers, numbered 0 to 3. */
  const MAX_DEVICES: nat := 4

  type uint8 = x: int | 0 <= x < 0x100
  type int16 = x: int | -0x8000 <= x < 0x8000
  type uint32 = x: int | 0 <= x < 0x1_0000_0000

  // ---------------------------------------------------------------------------
  // The button mask (wButtons) and its decoding.

  /** The members of the `Buttons` flag enumeration. */
  datatype Button =
    | DpadUp | DpadDown | DpadLeft | DpadRight
    | Start | Back
    | LeftThumb | RightThumb
    | LeftShoulder | RightShoulder
    | A | B | X | Y

  /** The members in declaration order, the order in which `for flag in Buttons` visits them. */
  const BUTTONS: seq<Button> := [
    DpadUp, DpadDown, DpadLeft, DpadRight, Start, Back, LeftThumb, RightThumb,
    LeftShoulder, RightShoulder, A, B, X, Y
  ]

  /** The XINPUT_GAMEPAD_* bit of each button in the wButtons field. */
  function Bit(b: Button): bv16 {
    match b
    case DpadUp => 0x0001
    case DpadDown => 0x0002
    case DpadLeft => 0x0004
    case DpadRight => 0x0008
    case Start => 0x0010
    case Back => 0x0020
    case LeftThumb => 0x0040
    case RightThumb => 0x0080
    case LeftShoulder => 0x0100
    case RightShoulder => 0x0200
    case A => 0x1000
    case B => 0x2000
    case X => 0x4000
    case Y => 0x8000
  }

  /** The member's Python name, which is also its `GamepadState` field name. */
  function Name(b: Button): string {
    match b
    case DpadUp => "dpad_up"
    case DpadDown => "dpad_down"
    case DpadLeft => "dpad_left"
    case DpadRight => "dpad_right"
    case Start => "start"
    case Back => "back"
    case LeftThumb => "left_thumb"
    case RightThumb => "right_thumb"
    case LeftShoulder => "left_shoulder"
    case RightShoulder => "right_shoulder"
    case A => "a"
    case B => "b"
    case X => "x"
    case Y => "y"
  }

  /** The two bits of wButtons that name no button. */
  const UNUSED_BITS: bv16 := 0x0C00

  /** Python's `flag in value` for an IntFlag: every bit of the flag is set. */
  predicate IsSet(value: bv16, b: Button) {
    value & Bit(b) == Bit(b)
  }

  lemma {:induction false} EveryButtonListed(b: Button)
    ensures b in BUTTONS
  {
    match b
    case DpadUp => assert BUTTONS[0] == b;
    case DpadDown => assert BUTTONS[1] == b;
    case DpadLeft => assert BUTTONS[2] == b;
    case DpadRight => assert BUTTONS[3] == b;
    case Start => assert BUTTONS[4] == b;
    case Back => assert BUTTONS[5] == b;
    case LeftThumb => assert BUTTONS[6] == b;
    case RightThumb => assert BUTTONS[7] == b;
    case LeftShoulder => assert BUTTONS[8] == b;
    case RightShoulder => assert BUTTONS[9] == b;
    case A => assert BUTTONS[10] == b;
    case B => assert BUTTONS[11] == b;
    case X => assert BUTTONS[12] == b;
    case Y => assert BUTTONS[13] == b;
  }

  /** The button a bit value belongs to, if any. */
  function ButtonOfBit(v: bv16): Option<Button> {
    if v == 0x0001 then Some(DpadUp) else if v == 0x0002 then Some(DpadDown)
    else if v == 0x0004 then Some(DpadLeft) else if v == 0x0008 then Some(DpadRight)
    else if v == 0x0010 then Some(Start) else if v == 0x0020 then Some(Back)
    else if v == 0x0040 then Some(LeftThumb) else if v == 0x0080 then Some(RightThumb)
    else if v == 0x0100 then Some(LeftShoulder) else if v == 0x0200 then Some(RightShoulder)
    else if v == 0x1000 then Some(A) else if v == 0x2000 then Some(B)
    else if v == 0x4000 then Some(X) else if v == 0x8000 then Some(Y)
    else None
  }

  /** The button a field name belongs to, if any. */
  function ButtonOfName(k: string): Option<Button> {
    if k == "dpad_up" then Some(DpadUp) else if k == "dpad_down" then Some(DpadDown)
    else if k == "dpad_left" then Some(DpadLeft) else if k == "dpad_right" then Some(DpadRight)
    else if k == "start" then Some(Start) else if k == "back" then Some(Back)
    else if k == "left_thumb" then Some(LeftThumb) else if k == "right_thumb" then Some(RightThumb)
    else if k == "left_shoulder" then Some(LeftShoulder) else if k == "right_shoulder" then Some(RightShoulder)
    else if k == "a" then Some(A) else if k == "b" then Some(B)
    else if k == "x" then Some(X) else if k == "y" then Some(Y)
    else None
  }

  /** Each button's bit is a single bit outside the unused ones, and bit and name identify the button. */
  lemma {:induction false} ButtonBit(b: Button)
    ensures Bit(b) != 0 && Bit(b) & (Bit(b) - 1) == 0
    ensures Bit(b) & UNUSED_BITS == 0
    ensures ButtonOfBit(Bit(b)) == Some(b)
    ensures ButtonOfName(Name(b)) == Some(b)
  {
    match b
    case DpadUp =>
    case DpadDown =>
    case DpadLeft =>
    case DpadRight =>
    case Start =>
    case Back =>
    case LeftThumb =>
    case RightThumb =>
    case LeftShoulder =>
    case RightShoulder =>
    case A =>
    case B =>
    case X =>
    case Y =>
  }

  /** Two different single bits have no bit in common. */
  lemma SingleBitsDisjoint(u: bv16, v: bv16)
    requires u != 0 && u & (u - 1) == 0 && v != 0 && v & (v - 1) == 0 && u != v
    ensures u & v == 0
  {
  }

  /**
   * The button values are fourteen single bits, no two alike, none of them
   * one of the unused bits 0x0400 and 0x0800.
   */
  lemma ButtonBits(b: Button, c: Button)
    ensures Bit(b) != 0 && Bit(b) & (Bit(b) - 1) == 0
    ensures Bit(b) & UNUSED_BITS == 0
    ensures b != c ==> Bit(b) & Bit(c) == 0
    ensures Name(b) == Name(c) ==> b == c
  {
    ButtonBit(b);
    ButtonBit(c);
    if b != c {
      SingleBitsDisjoint(Bit(b), Bit(c));
    }
  }

  /** `Buttons.asdict(value)`: one entry per member name, true iff its bit is set. */
  function AsDict(value: bv16): (d: map<string, bool>)
    ensures forall b: Button :: Name(b) in d && d[Name(b)] == IsSet(value, b)
    ensures forall k :: k in d ==> exists b: Button :: Name(b) == k
  {
    forall b: Button ensures b in BUTTONS && forall c: Button :: Name(b) == Name(c) ==> b == c {
      EveryButtonListed(b);
      forall c: Button ensures Name(b) == Name(c) ==> b == c {
        ButtonBits(b, c);
      }
    }
    map b | b in BUTTONS :: Name(b) := IsSet(value, b)
  }

  lemma UnusedBitsIrrelevant(value: bv16, b: Button)
    ensures IsSet(value, b) == IsSet(value | UNUSED_BITS, b)
    ensures IsSet(value, b) == IsSet(value & !UNUSED_BITS, b)
  {
    ButtonBit(b);
  }

  /** Two masks that set the same buttons decode to the same dictionary. */
  lemma AsDictOfSameButtons(v: bv16, w: bv16)
    requires forall b: Button :: IsSet(v, b) == IsSet(w, b)
    ensures AsDict(v) == AsDict(w)
  {
    var d, e := AsDict(v), AsDict(w);
    forall k | k in d ensures k in e && d[k] == e[k] {
      var b: Button :| Name(b) == k;
    }
    forall k | k in e ensures k in d {
      var b: Button :| Name(b) == k;
    }
  }

  /** The unused bits 0x0400 and 0x0800 do not change the decoded buttons. */
  lemma AsDictIgnoresUnusedBits(value: bv16)
    ensures AsDict(value) == AsDict(value | UNUSED_BITS)
    ensures AsDict(value) == AsDict(value & !UNUSED_BITS)
  {
    forall b: Button ensures IsSet(value, b) == IsSet(value | UNUSED_BITS, b) == IsSet(value & !UNUSED_BITS, b) {
      UnusedBitsIrrelevant(value, b);
    }
    AsDictOfSameButtons(value, value | UNUSED_BITS);
    AsDictOfSameButtons(value, value & !UNUSED_BITS);
  }

  // ---------------------------------------------------------------------------
  // get_bit_values: the binary digits of a number, padded on the left.

  /** `f"{n:b}"` read back digit by digit, most significant first; "0" for zero. */
  function Binary(n: nat): (r: seq<int>)
    ensures |r| > 0
  {
    if n < 2 then [n] else Binary(n / 2) + [n % 2]
  }

  function Zeros(k: nat): (r: seq<int>)
    ensures |r| == k && forall i :: 0 <= i < k ==> r[i] == 0
  {
    seq(k, _ => 0)
  }

  /** The number a list of binary digits denotes, most significant first. */
  function FromBits(bits: seq<int>): int {
    if bits == [] then 0 else FromBits(bits[..|bits| - 1]) * 2 + bits[|bits| - 1]
  }

  function Pow2(k: nat): nat {
    if k == 0 then 1 else 2 * Pow2(k - 1)
  }

  /**
   * `get_bit_values(number, size)`. A negative number is formatted with a
   * minus sign, which `int` then rejects: Python raises ValueError (`None`).
   * Otherwise the digits are left-padded with zeros to `size`; a number whose
   * digits are longer than `size` is not cut.
   */
  function GetBitValues(number: int, size: int): Option<seq<int>> {
    if number < 0 then None
    else
      var digits := Binary(number);
      Some(Zeros(if size > |digits| then size - |digits| else 0) + digits)
  }

  lemma {:induction false} BinaryFacts(n: nat)
    ensures forall i :: 0 <= i < |Binary(n)| ==> Binary(n)[i] == 0 || Binary(n)[i] == 1
    ensures FromBits(Binary(n)) == n
    ensures n < Pow2(|Binary(n)|)
    ensures n > 0 ==> Binary(n)[0] == 1 && Pow2(|Binary(n)| - 1) <= n
    ensures n == 0 ==> Binary(n) == [0]
  {
    if n >= 2 {
      BinaryFacts(n / 2);
      var b := Binary(n);
      assert b[..|b| - 1] == Binary(n / 2);
    }
  }

  lemma {:induction false} LeadingZerosVanish(k: nat, bits: seq<int>)
    ensures FromBits(Zeros(k) + bits) == FromBits(bits)
    decreases |bits|
  {
    if bits == [] {
      assert Zeros(k) + bits == Zeros(k);
      ZerosAreZero(k);
    } else {
      var s := Zeros(k) + bits;
      assert s[..|s| - 1] == Zeros(k) + bits[..|bits| - 1];
      LeadingZerosVanish(k, bits[..|bits| - 1]);
    }
  }

  lemma {:induction false} ZerosAreZero(k: nat)
    ensures FromBits(Zeros(k)) == 0
  {
    if k > 0 {
      assert Zeros(k)[..k - 1] == Zeros(k - 1);
      ZerosAreZero(k - 1);
    }
  }

  /**
   * For n >= 0: only 0/1 digits, the most significant first, left-padded to
   * `size`, as long as the larger of `size` and the length of `f"{n:b}"`
   * (the bit length, or 1 for zero); and the digits read back as n.
   */
  lemma GetBitValuesSpec(n: int, size: int)
    requires n >= 0
    ensures GetBitValues(n, size).Some?
    ensures var r := GetBitValues(n, size).value;
      && (forall i :: 0 <= i < |r| ==> r[i] == 0 || r[i] == 1)
      && |r| == (if size > |Binary(n)| then size else |Binary(n)|)
      && r[|r| - |Binary(n)|..] == Binary(n)
      && (forall i :: 0 <= i < |r| - |Binary(n)| ==> r[i] == 0)
      && FromBits(r) == n
  {
    BinaryFacts(n);
    var b := Binary(n);
    var k := if size > |b| then size - |b| else 0;
    var r := Zeros(k) + b;
    assert GetBitValues(n, size).value == r;
    LeadingZerosVanish(k, b);
    assert r[k..] == b;
    PaddedDigits(k, b);
  }

  lemma PaddedDigits(k: nat, b: seq<int>)
    requires forall i :: 0 <= i < |b| ==> b[i] == 0 || b[i] == 1
    ensures forall i :: 0 <= i < |Zeros(k) + b| ==> (Zeros(k) + b)[i] == 0 || (Zeros(k) + b)[i] == 1
  {
    var r := Zeros(k) + b;
    forall i | 0 <= i < |r| ensures r[i] == 0 || r[i] == 1 {
      if i >= k {
        assert r[i] == b[i - k];
      }
    }
  }

  /** The small examples of get_bit_values' docstring, and a negative number. */
  lemma GetBitValuesExamples()
    ensures GetBitValues(1, 32) == Some(Zeros(31) + [1])
    ensures GetBitValues(3, 2) == Some([1, 1])
    ensures GetBitValues(3, 4) == Some([0, 0, 1, 1])
    ensures GetBitValues(-1, 32) == None
  {
    assert Binary(3) == [1, 1];
    assert Zeros(0) + [1, 1] == [1, 1];
    assert Zeros(2) + [1, 1] == [0, 0, 1, 1];
  }

  // ---------------------------------------------------------------------------
  // XInputGetState and its result.

  /** XINPUT_GAMEPAD, as a plain record. */
  datatype Gamepad = Gamepad(
    buttons: bv16,
    leftTrigger: uint8, rightTrigger: uint8,
    lThumbX: int16, lThumbY: int16,
    rThumbX: int16, rThumbY: int16)

  /** XINPUT_STATE, as a plain record. */
  datatype XInputState = XInputState(packetNumber: uint32, gamepad: Gamepad)

  /** The `GamepadState` named tuple: fourteen buttons, two triggers, four thumb axes. */
  datatype PadState = PadState(
    dpadUp: bool, dpadDown: bool, dpadLeft: bool, dpadRight: bool,
    start: bool, back: bool,
    leftThumb: bool, rightThumb: bool,
    leftShoulder: bool, rightShoulder: bool,
    a: bool, b: bool, x: bool, y: bool,
    leftTrigger: uint8, rightTrigger: uint8,
    lThumbX: int16, lThumbY: int16,
    rThumbX: int16, rThumbY: int16)

  /** The exceptions the physical side raises. */
  datatype Error =
    /** RuntimeError: "Unknown error <code> attempting to get state of device <device>" */
    | RuntimeError(code: int, device: nat)
    /** AttributeError: reading `.gamepad` of a `None` (disconnected) state */
    | AttributeError

  /** `XInput.get_state` once the library has answered `res` and filled in `state`. */
  function Classify(res: int, state: XInputState, device: nat): (r: Result<Option<XInputState>, Error>)
    ensures r == Ok(Some(state)) <==> res == ERROR_SUCCESS
    ensures r == Ok(None) <==> res == ERROR_DEVICE_NOT_CONNECTED
    ensures r.Err? <==> res != ERROR_SUCCESS && res != ERROR_DEVICE_NOT_CONNECTED
    ensures r.Err? ==> r.error == RuntimeError(res, device)
  {
    if res == ERROR_SUCCESS then Ok(Some(state))
    else if res != ERROR_DEVICE_NOT_CONNECTED then Err(RuntimeError(res, device))
    else Ok(None)
  }

  /** The `state` property's conversion: analog values verbatim, buttons through `asdict`. */
  function ToPadState(g: Gamepad): (p: PadState)
    ensures p.leftTrigger == g.leftTrigger && p.rightTrigger == g.rightTrigger
    ensures p.lThumbX == g.lThumbX && p.lThumbY == g.lThumbY
    ensures p.rThumbX == g.rThumbX && p.rThumbY == g.rThumbY
    ensures p.dpadUp == IsSet(g.buttons, DpadUp) && p.dpadDown == IsSet(g.buttons, DpadDown)
    ensures p.dpadLeft == IsSet(g.buttons, DpadLeft) && p.dpadRight == IsSet(g.buttons, DpadRight)
    ensures p.start == IsSet(g.buttons, Start) && p.back == IsSet(g.buttons, Back)
    ensures p.leftThumb == IsSet(g.buttons, LeftThumb) && p.rightThumb == IsSet(g.buttons, RightThumb)
    ensures p.leftShoulder == IsSet(g.buttons, LeftShoulder)
    ensures p.rightShoulder == IsSet(g.buttons, RightShoulder)
    ensures p.a == IsSet(g.buttons, A) && p.b == IsSet(g.buttons, B)
    ensures p.x == IsSet(g.buttons, X) && p.y == IsSet(g.buttons, Y)
  {
    var d := AsDict(g.buttons);
    PadState(
      dpadUp := d[Name(DpadUp)], dpadDown := d[Name(DpadDown)],
      dpadLeft := d[Name(DpadLeft)], dpadRight := d[Name(DpadRight)],
      start := d[Name(Start)], back := d[Name(Back)],
      leftThumb := d[Name(LeftThumb)], rightThumb := d[Name(RightThumb)],
      leftShoulder := d[Name(LeftShoulder)], rightShoulder := d[Name(RightShoulder)],
      a := d[Name(A)], b := d[Name(B)], x := d[Name(X)], y := d[Name(Y)],
      leftTrigger := g.leftTrigger, rightTrigger := g.rightTrigger,
      lThumbX := g.lThumbX, lThumbY := g.lThumbY,
      rThumbX := g.rThumbX, rThumbY := g.rThumbY)
  }

  /** [lo, lo + 1, ..., hi - 1] */
  function Range(lo: nat, hi: nat): (r: seq<nat>)
    ensures |r| == if hi > lo then hi - lo else 0
    ensures forall i :: 0 <= i < |r| ==> r[i] == lo + i
    decreases hi - lo
  {
    if hi <= lo then [] else [lo] + Range(lo + 1, hi)
  }

  lemma {:induction false} RangeSnoc(lo: nat, hi: nat)
    requires lo <= hi
    ensures Range(lo, hi + 1) == Range(lo, hi) + [hi]
  {
  }

  /**
   * The XInput library: XInputGetState answers with a result code and the
   * state it wrote, as the oracle `reply` gives them for the device asked and
   * the device numbers asked before.
   */
  class XInputDll {
    var queries: seq<nat>
    const reply: (seq<nat>, nat) -> (int, XInputState)

    constructor (reply: (seq<nat>, nat) -> (int, XInputState))
      ensures this.reply == reply && queries == []
    {
      this.reply := reply;
      queries := [];
    }

    /** What `get_state(device)` makes of the answer after the calls `history`. */
    function Read(history: seq<nat>, device: nat): Result<Option<XInputState>, Error> {
      Classify(reply(history, device).0, reply(history, device).1, device)
    }

    method XInputGetState(device: nat) returns (res: int, state: XInputState)
      modifies this
      ensures queries == old(queries) + [device]
      ensures (res, state) == reply(old(queries), device)
    {
      res, state := reply(queries, device).0, reply(queries, device).1;
      queries := queries + [device];
    }

    /** The reading of `device` when devices 0 .. device-1 were read after `history`. */
    function ReadAt(history: seq<nat>, device: nat): Result<Option<XInputState>, Error> {
      Read(history + Range(0, device), device)
    }

    /**
     * Probing devices 0 .. n-1 in turn from `history`: the connected ones in
     * increasing order, or the first error, which ends the probe.
     */
    function Scan(history: seq<nat>, n: nat): Result<seq<nat>, Error> {
      if n == 0 then Ok([])
      else match Scan(history, n - 1)
        case Err(e) => Err(e)
        case Ok(ids) =>
          match ReadAt(history, n - 1)
          case Err(e) => Err(e)
          case Ok(s) => Ok(ids + if s.Some? then [n - 1] else [])
    }

    /**
     * The probe succeeds iff no reading raised; it then lists, in increasing
     * order, exactly the devices whose reading was a state.
     */
    lemma ScanSpec(history: seq<nat>, n: nat)
      ensures Scan(history, n).Ok? <==> forall j :: 0 <= j < n ==> ReadAt(history, j).Ok?
      ensures Scan(history, n).Ok? ==> var ids := Scan(history, n).value;
        && (forall i, k :: 0 <= i < k < |ids| ==> ids[i] < ids[k])
        && (forall i :: 0 <= i < |ids| ==> ids[i] < n)
        && (forall j :: 0 <= j < n ==> (j in ids <==> ReadAt(history, j).value.Some?))
    {
      ScanOk(history, n);
      if Scan(history, n).Ok? {
        ScanIds(history, n);
      }
    }

    lemma {:induction false} ScanOk(history: seq<nat>, n: nat)
      ensures Scan(history, n).Ok? <==> forall j :: 0 <= j < n ==> ReadAt(history, j).Ok?
    {
      if n > 0 {
        ScanOk(history, n - 1);
      }
    }

    lemma {:induction false} ScanIds(history: seq<nat>, n: nat)
      requires Scan(history, n).Ok?
      ensures var ids := Scan(history, n).value;
        && (forall i :: 0 <= i < |ids| ==> ids[i] < n)
        && (forall i, k :: 0 <= i < k < |ids| ==> ids[i] < ids[k])
        && (forall j :: 0 <= j < n ==> (j in ids <==> ReadAt(history, j).Ok? && ReadAt(history, j).value.Some?))
    {
      if n > 0 {
        ScanIds(history, n - 1);
        var prev := Scan(history, n - 1).value;
        var ids := Scan(history, n).value;
        var s := ReadAt(history, n - 1).value;
        assert ids == prev + if s.Some? then [n - 1] else [];
      }
    }

    /**
     * A probe from `history` that stopped at device `k`: the first reading
     * to raise was that of `k`, and devices 0 .. k were queried.
     */
    predicate StoppedAt(history: seq<nat>, k: nat)
      reads this
    {
      && ReadAt(history, k).Err?
      && (forall j :: 0 <= j < k ==> ReadAt(history, j).Ok?)
      && queries == history + Range(0, k + 1)
    }

    /** After the first error the probe stays failed with that error. */
    lemma {:induction false} ScanErrorSticks(history: seq<nat>, n: nat, m: nat)
      requires n <= m && Scan(history, n).Err?
      ensures Scan(history, m) == Scan(history, n)
      decreases m - n
    {
      if n < m {
        ScanErrorSticks(history, n, m - 1);
      }
    }
  }

  /** The XInput wrapper object, holding the loaded library. */
  class XInput {
    const dll: XInputDll

    constructor (dll: XInputDll)
      ensures this.dll == dll
    {
      this.dll := dll;
    }

    /** `get_state`: the reading for code 0, `None` for 1167, a RuntimeError otherwise. */
    method GetState(device: nat) returns (r: Result<Option<XInputState>, Error>)
      modifies dll
      ensures dll.queries == old(dll.queries) + [device]
      ensures r == dll.Read(old(dll.queries), device)
    {
      var res, state := dll.XInputGetState(device);
      if res == ERROR_SUCCESS {
        return Ok(Some(state));
      }
      if res != ERROR_DEVICE_NOT_CONNECTED {
        return Err(RuntimeError(res, device));
      }
      return Ok(None);
    }

    /** `get_device`: a gamepad object, whose construction reads the device once. */
    method GetDevice(device: nat) returns (r: Result<XInputGamepad, Error>)
      modifies dll
      ensures dll.queries == old(dll.queries) + [device]
      ensures r.Ok? <==> dll.Read(old(dll.queries), device).Ok?
      ensures r.Err? ==> r.error == dll.Read(old(dll.queries), device).error
      ensures r.Ok? ==>
        && fresh(r.value) && r.value.lib == this && r.value.deviceNumber == device
        && r.value.currentState == r.value.lastState == dll.Read(old(dll.queries), device).value
    {
      var first := GetState(device);
      if first.Err? {
        return Err(first.error);
      }
      var g := new XInputGamepad(this, device, first.value);
      return Ok(g);
    }

    /** The device numbers of a list of gamepads. */
    function Ids(gs: seq<XInputGamepad>): (ids: seq<nat>)
      ensures |ids| == |gs| && forall i :: 0 <= i < |gs| ==> ids[i] == gs[i].deviceNumber
    {
      seq(|gs|, i requires 0 <= i < |gs| => gs[i].deviceNumber)
    }

    /**
     * `enumerate_devices`: builds a gamepad for each of the devices 0 to 3
     * and keeps the connected ones, in increasing device order; each keeps
     * the one reading its constructor took. An error from any reading ends
     * the enumeration right after the device that raised it.
     */
    method EnumerateDevices() returns (r: Result<seq<XInputGamepad>, Error>)
      modifies dll
      ensures r.Ok? <==> dll.Scan(old(dll.queries), MAX_DEVICES).Ok?
      ensures r.Err? ==> r.error == dll.Scan(old(dll.queries), MAX_DEVICES).error
      ensures r.Ok? ==>
        && Ids(r.value) == dll.Scan(old(dll.queries), MAX_DEVICES).value
        && dll.queries == old(dll.queries) + Range(0, MAX_DEVICES)
        && forall i :: 0 <= i < |r.value| ==> fresh(r.value[i]) && r.value[i].lib == this && r.value[i].IsConnected()
      ensures r.Ok? ==> forall i :: 0 <= i < |r.value| ==> r.value[i].HoldsReading(old(dll.queries))
      ensures r.Err? ==> exists k :: 0 <= k < MAX_DEVICES && dll.StoppedAt(old(dll.queries), k)
    {
      ghost var history := dll.queries;
      var found: seq<XInputGamepad> := [];
      var i := 0;
      while i < MAX_DEVICES
        invariant 0 <= i <= MAX_DEVICES
        invariant dll.queries == history + Range(0, i)
        invariant dll.Scan(history, i) == Ok(Ids(found))
        invariant forall k :: 0 <= k < |found| ==> fresh(found[k]) && found[k].Found(this, history)
      {
        var device := ProbeDevice(history, i);
        if device.Err? {
          return Err(device.error);
        }
        if device.value.IsConnected() {
          assert Ids(found + [device.value]) == Ids(found) + [i];
          found := found + [device.value];
        } else {
          assert Ids(found) + [] == Ids(found);
        }
        i := i + 1;
      }
      return Ok(found);
    }

    /**
     * One turn of `enumerate_devices`: the gamepad of device `i`, after
     * devices 0 .. i-1 were read without error. An error stops the probe.
     */
    method ProbeDevice(ghost history: seq<nat>, i: nat) returns (r: Result<XInputGamepad, Error>)
      requires i < MAX_DEVICES && dll.queries == history + Range(0, i) && dll.Scan(history, i).Ok?
      modifies dll
      ensures r.Err? ==> dll.StoppedAt(history, i) && dll.Scan(history, MAX_DEVICES) == Err(r.error)
      ensures r.Ok? ==> dll.queries == history + Range(0, i + 1)
      ensures r.Ok? ==> fresh(r.value) && r.value.deviceNumber == i && r.value.lib == this
      ensures r.Ok? ==> r.value.HoldsReading(history)
      ensures r.Ok? ==>
        dll.Scan(history, i + 1) == Ok(dll.Scan(history, i).value + if r.value.IsConnected() then [i] else [])
    {
      RangeSnoc(0, i);
      ghost var before := dll.queries;
      r := GetDevice(i);
      assert dll.Read(before, i) == dll.ReadAt(history, i);
      if r.Err? {
        dll.ScanOk(history, i);
        assert dll.StoppedAt(history, i);
        dll.ScanErrorSticks(history, i + 1, MAX_DEVICES);
      }
    }
  }

  /**
   * One physical gamepad: the state read before the last `update` and the
   * state read by it (`None` while disconnected).
   */
  class XInputGamepad {
    const lib: XInput
    const deviceNumber: nat
    var lastState: Option<XInputState>
    var currentState: Option<XInputState>
    var receivedPackets: nat
    var missedPackets: nat

    /** `first` is the reading `__init__` takes; both slots start with it. */
    constructor (lib: XInput, deviceNumber: nat, first: Option<XInputState>)
      ensures this.lib == lib && this.deviceNumber == deviceNumber
      ensures lastState == first && currentState == first
      ensures receivedPackets == 0 && missedPackets == 0
    {
      this.lib := lib;
      this.deviceNumber := deviceNumber;
      lastState, currentState := first, first;
      receivedPackets, missedPackets := 0, 0;
    }

    /**
     * `update`: the current state moves to the last slot, then a new reading
     * fills the current slot. When the reading raises, the shift has already
     * happened and the current slot keeps its old value.
     */
    method Update() returns (r: Result<(), Error>)
      modifies this, lib.dll
      ensures lastState == old(currentState)
      ensures IsConnected() <==> old(currentState).Some?
      ensures lib.dll.queries == old(lib.dll.queries) + [deviceNumber]
      ensures r.Ok? <==> lib.dll.Read(old(lib.dll.queries), deviceNumber).Ok?
      ensures r.Ok? ==> currentState == lib.dll.Read(old(lib.dll.queries), deviceNumber).value
      ensures r.Err? ==> r.error == lib.dll.Read(old(lib.dll.queries), deviceNumber).error
      ensures r.Err? ==> currentState == old(currentState)
      ensures receivedPackets == old(receivedPackets) && missedPackets == old(missedPackets)
    {
      lastState := currentState;
      var reading := lib.GetState(deviceNumber);
      if reading.Err? {
        return Err(reading.error);
      }
      currentState := reading.value;
      return Ok(());
    }

    /**
     * Both slots hold the reading the probe took of this device after
     * `history`, as they do straight after `__init__`.
     */
    predicate HoldsReading(history: seq<nat>)
      reads this
    {
      lastState == currentState && lib.dll.ReadAt(history, deviceNumber) == Ok(currentState)
    }

    /** A gamepad `enumerate_devices` of `x` keeps: connected, holding its reading. */
    predicate Found(x: XInput, history: seq<nat>)
      reads this
    {
      lib == x && IsConnected() && HoldsReading(history)
    }

    /**
     * `is_connected`: the slot before the last update held a reading. After
     * `Update` that is the reading that was current before it.
     */
    predicate IsConnected(): (r: bool)
      reads this
      ensures r <==> lastState.Some?
    {
      lastState.Some?
    }

    /** The `state` property: the current reading as a `GamepadState`. */
    function State(): (r: Result<PadState, Error>)
      reads this
      ensures r.Ok? <==> currentState.Some?
      ensures r.Ok? ==> r.value == ToPadState(currentState.value.gamepad)
      ensures r.Err? ==> r.error == AttributeError
    {
      match currentState
      case None => Err(AttributeError)
      case Some(s) => Ok(ToPadState(s.gamepad))
    }
  }
}
