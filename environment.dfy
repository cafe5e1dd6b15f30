/**
 * What the bot talks to: the virtual-bus DLL, seen as an oracle that answers
 * each call given everything that happened before it, and the event loop's
 * `call_later` and `sleep`. Every DLL call, every scheduled callback and
 * every sleep is appended to one shared trace, so the order in which a chat
 * command touches the device and the loop stays visible.
 */
module Environment {
  import opened Wrappers
  import XInput
  import GamepadFlags

  // ---------------------------------------------------------------------------
  // The setters of the virtual-bus DLL and their ctypes argument types.

  /** The `Set*` functions of the DLL that the controller class wraps. */
  datatype Setter =
    | SetDpadUp | SetDpadDown | SetDpadLeft | SetDpadRight | SetDpadOff | SetDpad
    | SetBtnA | SetBtnB | SetBtnX | SetBtnY | SetBtnStart | SetBtnBack
    | SetBtnLT | SetBtnRT | SetBtnLB | SetBtnRB
    | SetAxisX | SetAxisY | SetAxisRx | SetAxisRy
    | SetTriggerL | SetTriggerR

  /** The C types a value can be converted to on its way into the DLL. */
  datatype CType = CBool | CByte | CShort | CInt

  /**
   * The declared argument types of each setter after the leading `c_uint`
   * controller id.
   */
  function ArgTypes(fn: Setter): seq<CType> {
    match fn
    case SetDpadUp => []
    case SetDpadDown => []
    case SetDpadLeft => []
    case SetDpadRight => []
    case SetDpadOff => []
    case SetDpad => [CInt]
    case SetTriggerL => [CByte]
    case SetTriggerR => [CByte]
    case SetAxisX => [CShort]
    case SetAxisY => [CShort]
    case SetAxisRx => [CShort]
    case SetAxisRy => [CShort]
    case _ => [CBool]
  }

  /** A Python argument: a `bool` or an `int`. */
  datatype Value = Bool(b: bool) | Int(i: int)

  function IntOf(v: Value): int {
    match v
    case Bool(b) => if b then 1 else 0
    case Int(i) => i
  }

  /**
   * Two's-complement truncation to a signed type whose values are
   * -half .. half - 1, as ctypes does silently for out-of-range integers.
   */
  function Signed(n: int, half: int): int
    requires half > 0
  {
    (n + half) % (2 * half) - half
  }

  /**
   * For the three widths ctypes uses here, the truncation lands in range and
   * keeps the low bits of `n`.
   */
  lemma SignedWidths(n: int)
    ensures -128 <= Signed(n, 128) < 128 && (Signed(n, 128) - n) % 256 == 0
    ensures -32768 <= Signed(n, 32768) < 32768 && (Signed(n, 32768) - n) % 65536 == 0
    ensures -0x8000_0000 <= Signed(n, 0x8000_0000) < 0x8000_0000
    ensures (Signed(n, 0x8000_0000) - n) % 0x1_0000_0000 == 0
  {
  }

  /** The conversion ctypes applies to one argument of the given type. */
  function Convert(t: CType, v: Value): int {
    match t
    case CBool => if IntOf(v) != 0 then 1 else 0
    case CByte => Signed(IntOf(v), 128)
    case CShort => Signed(IntOf(v), 32768)
    case CInt => Signed(IntOf(v), 0x8000_0000)
  }

  /**
   * A `c_bool` is 1 exactly for a nonzero value; the integer types keep the
   * value's low 8, 16 or 32 bits and land in their signed range.
   */
  lemma ConvertFacts(t: CType, v: Value)
    ensures t == CBool ==> (Convert(t, v) == 1 <==> IntOf(v) != 0) && (Convert(t, v) == 0 <==> IntOf(v) == 0)
    ensures t == CByte ==> -128 <= Convert(t, v) < 128 && (Convert(t, v) - IntOf(v)) % 256 == 0
    ensures t == CShort ==> -32768 <= Convert(t, v) < 32768 && (Convert(t, v) - IntOf(v)) % 65536 == 0
    ensures t == CInt ==> -0x8000_0000 <= Convert(t, v) < 0x8000_0000
    ensures t == CInt ==> (Convert(t, v) - IntOf(v)) % 0x1_0000_0000 == 0
  {
    SignedWidths(IntOf(v));
  }

  /** An integer already in range of the target type arrives unchanged. */
  lemma ConvertInRange(t: CType, n: int)
    ensures t == CByte && -128 <= n < 128 ==> Convert(t, Int(n)) == n
    ensures t == CShort && -32768 <= n < 32768 ==> Convert(t, Int(n)) == n
    ensures t == CInt && -0x8000_0000 <= n < 0x8000_0000 ==> Convert(t, Int(n)) == n
  {
    match t
    case CBool =>
    case CByte =>
    case CShort =>
    case CInt =>
  }

  /**
   * The arguments a setter receives: each value converted to its declared
   * type, and any value beyond the declared ones passed as a C `int`.
   */
  function Marshal(fn: Setter, values: seq<Value>): (args: seq<int>)
    ensures |args| == |values|
  {
    seq(|values|, i requires 0 <= i < |values| =>
      Convert(if i < |ArgTypes(fn)| then ArgTypes(fn)[i] else CInt, values[i]))
  }

  /** The type a setter's first value is converted to. */
  function FirstArgType(fn: Setter): CType {
    if |ArgTypes(fn)| > 0 then ArgTypes(fn)[0] else CInt
  }

  /** A one-value setter receives that value converted to its declared type. */
  lemma MarshalOne(fn: Setter, v: Value)
    ensures Marshal(fn, [v]) == [Convert(FirstArgType(fn), v)]
  {
    assert Marshal(fn, [v])[0] == Convert(FirstArgType(fn), v);
  }

  /** `True` arrives as 1 whatever the setter's declared type. */
  lemma MarshalTrue(fn: Setter)
    ensures Marshal(fn, [Bool(true)]) == [1]
  {
    MarshalOne(fn, Bool(true));
    match FirstArgType(fn)
    case CBool =>
    case CByte =>
    case CShort =>
    case CInt =>
  }

  // ---------------------------------------------------------------------------
  // Calls, callbacks and the trace.

  /** A call into the virtual-bus DLL, with the arguments it receives. */
  datatype Call =
    | GetNumEmptyBusSlots
    | IsControllerExists(id: nat)
    | IsControllerOwned(id: nat)
    | PlugIn(id: nat)
    | UnPlug(id: nat)
    | UnPlugForce(id: nat)
    | Set(fn: Setter, id: nat, args: seq<int>)

  /**
   * A callback handed to `call_later`: a setter of the controller with the
   * given id and Python arguments, or `set_state` with a reading and a mask.
   */
  datatype Action =
    | Invocation(id: nat, fn: Setter, values: seq<Value>)
    | Mirror(id: nat, state: XInput.PadState, flags: GamepadFlags.Mask)

  datatype Event =
    | Dll(call: Call)
    | Later(delay: real, action: Action)
    | Slept(delay: real)

  /** The record of everything the program did to the outside world. */
  class Trace {
    var events: seq<Event>

    constructor ()
      ensures events == []
    {
      events := [];
    }
  }

  /**
   * The loaded virtual-bus DLL. Every function has result type `c_bool`, so
   * every call answers true or false; `answer` says which, given the trace
   * before the call. `slots` is the byte `GetNumEmptyBusSlots` writes back.
   */
  class VBus {
    const trace: Trace
    const answer: (seq<Event>, Call) -> bool
    const slots: seq<Event> -> XInput.uint8

    constructor (trace: Trace, answer: (seq<Event>, Call) -> bool, slots: seq<Event> -> XInput.uint8)
      ensures this.trace == trace && this.answer == answer && this.slots == slots
    {
      this.trace := trace;
      this.answer := answer;
      this.slots := slots;
    }

    method Invoke(c: Call) returns (r: bool)
      modifies trace
      ensures trace.events == old(trace.events) + [Dll(c)]
      ensures r == answer(old(trace.events), c)
    {
      r := answer(trace.events, c);
      trace.events := trace.events + [Dll(c)];
    }
  }

  /** The asyncio loop: `call_later` and `sleep` only leave their mark. */
  class EventLoop {
    const trace: Trace

    constructor (trace: Trace)
      ensures this.trace == trace
    {
      this.trace := trace;
    }

    method CallLater(delay: real, action: Action)
      modifies trace
      ensures trace.events == old(trace.events) + [Later(delay, action)]
    {
      trace.events := trace.events + [Later(delay, action)];
    }

    method Sleep(delay: real)
      modifies trace
      ensures trace.events == old(trace.events) + [Slept(delay)]
    {
      trace.events := trace.events + [Slept(delay)];
    }
  }

  // ---------------------------------------------------------------------------
  // Reading a trace.

  lemma Assoc(a: seq<Event>, b: seq<Event>, c: seq<Event>)
    ensures (a + b) + c == a + (b + c)
  {
  }

  /** The setters called in a trace, in order. */
  function Calls(events: seq<Event>): (fns: seq<Setter>)
    ensures |fns| <= |events|
  {
    if events == [] then []
    else
      var e := events[|events| - 1];
      Calls(events[..|events| - 1]) + (if e.Dll? && e.call.Set? then [e.call.fn] else [])
  }

  lemma {:induction false} CallsAppend(a: seq<Event>, b: seq<Event>)
    ensures Calls(a + b) == Calls(a) + Calls(b)
    decreases |b|
  {
    if b == [] {
      assert a + b == a;
    } else {
      var b' := b[..|b| - 1];
      assert (a + b)[..|a + b| - 1] == a + b';
      CallsAppend(a, b');
    }
  }

  /** The arguments of the last call of `fn` on controller `id`, if any. */
  function Latest(events: seq<Event>, fn: Setter, id: nat): Option<seq<int>> {
    if events == [] then None
    else
      var e := events[|events| - 1];
      if e.Dll? && e.call.Set? && e.call.fn == fn && e.call.id == id then Some(e.call.args)
      else Latest(events[..|events| - 1], fn, id)
  }

  lemma {:induction false} LatestAppend(a: seq<Event>, b: seq<Event>, fn: Setter, id: nat)
    ensures Latest(a + b, fn, id) == if Latest(b, fn, id).Some? then Latest(b, fn, id) else Latest(a, fn, id)
    decreases |b|
  {
    if b == [] {
      assert a + b == a;
    } else {
      var b' := b[..|b| - 1];
      assert (a + b)[..|a + b| - 1] == a + b';
      LatestAppend(a, b', fn, id);
    }
  }
}
