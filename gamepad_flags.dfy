/**
 * The `GamepadState` flag enumeration of the virtual-controller binding: one
 * flag per group of fields `set_state` can push, and composite masks made of
 * them.
 */
module GamepadFlags {
  import opened Wrappers

  /** The single members, in declaration order. */
  datatype Flag =
    | Dpad | Start | Back | Lt | Rt | Lb | Rb | A | B | X | Y
    | TriggerL | TriggerR
    | AxisLx | AxisLy | AxisRx | AxisRy

  const FLAGS: seq<Flag> := [
    Dpad, Start, Back, Lt, Rt, Lb, Rb, A, B, X, Y, TriggerL, TriggerR, AxisLx, AxisLy, AxisRx, AxisRy
  ]

  /**
   * The value `enum.auto()` gives each member: the next power of two above
   * the highest bit used so far. The composites declared in between add no
   * new bit, so the singles get 1, 2, 4, ... in declaration order.
   */
  function Bit(f: Flag): bv32 {
    match f
    case Dpad => 0x1
    case Start => 0x2
    case Back => 0x4
    case Lt => 0x8
    case Rt => 0x10
    case Lb => 0x20
    case Rb => 0x40
    case A => 0x80
    case B => 0x100
    case X => 0x200
    case Y => 0x400
    case TriggerL => 0x800
    case TriggerR => 0x1000
    case AxisLx => 0x2000
    case AxisLy => 0x4000
    case AxisRx => 0x8000
    case AxisRy => 0x1_0000
  }

  /**
   * A `GamepadState` value: any combination of the members, that is, any
   * value within the seventeen member bits 0x1_FFFF (`ALL`, by
   * `CompositeValues`).
   */
  type Mask = m: bv32 | m & !0x1_FFFF == 0

  const ABXY: Mask := Bit(A) | Bit(B) | Bit(X) | Bit(Y)
  const BUTTONS: Mask := ABXY | Bit(Dpad) | Bit(Start) | Bit(Back) | Bit(Lt) | Bit(Rt) | Bit(Lb) | Bit(Rb)
  const TRIGGERS: Mask := Bit(TriggerL) | Bit(TriggerR)
  const AXIS_L: Mask := Bit(AxisLx) | Bit(AxisLy)
  const AXIS_R: Mask := Bit(AxisRy) | Bit(AxisRx)
  const AXIS: Mask := AXIS_L | AXIS_R
  const ALL: Mask := BUTTONS | TRIGGERS | AXIS


  /** Python's `flag in mask`: every bit of the flag is in the mask. */
  predicate Has(m: bv32, f: Flag) {
    m & Bit(f) == Bit(f)
  }

  lemma {:induction false} EveryFlagListed(f: Flag)
    ensures f in FLAGS
  {
    match f
    case Dpad => assert FLAGS[0] == f;
    case Start => assert FLAGS[1] == f;
    case Back => assert FLAGS[2] == f;
    case Lt => assert FLAGS[3] == f;
    case Rt => assert FLAGS[4] == f;
    case Lb => assert FLAGS[5] == f;
    case Rb => assert FLAGS[6] == f;
    case A => assert FLAGS[7] == f;
    case B => assert FLAGS[8] == f;
    case X => assert FLAGS[9] == f;
    case Y => assert FLAGS[10] == f;
    case TriggerL => assert FLAGS[11] == f;
    case TriggerR => assert FLAGS[12] == f;
    case AxisLx => assert FLAGS[13] == f;
    case AxisLy => assert FLAGS[14] == f;
    case AxisRx => assert FLAGS[15] == f;
    case AxisRy => assert FLAGS[16] == f;
  }

  /** The member whose value is `v`, if any. */
  function FlagOfBit(v: bv32): Option<Flag> {
    if v == 0x1 then Some(Dpad)
    else if v == 0x2 then Some(Start)
    else if v == 0x4 then Some(Back)
    else if v == 0x8 then Some(Lt)
    else if v == 0x10 then Some(Rt)
    else if v == 0x20 then Some(Lb)
    else if v == 0x40 then Some(Rb)
    else if v == 0x80 then Some(A)
    else if v == 0x100 then Some(B)
    else if v == 0x200 then Some(X)
    else if v == 0x400 then Some(Y)
    else if v == 0x800 then Some(TriggerL)
    else if v == 0x1000 then Some(TriggerR)
    else if v == 0x2000 then Some(AxisLx)
    else if v == 0x4000 then Some(AxisLy)
    else if v == 0x8000 then Some(AxisRx)
    else if v == 0x10000 then Some(AxisRy)
    else None
  }

  /** Each member is a single bit, which names it back. */
  lemma {:induction false} FlagBit(f: Flag)
    ensures Bit(f) != 0 && Bit(f) & (Bit(f) - 1) == 0
    ensures FlagOfBit(Bit(f)) == Some(f)
  {
    match f
    case Dpad =>
    case Start =>
    case Back =>
    case Lt =>
    case Rt =>
    case Lb =>
    case Rb =>
    case A =>
    case B =>
    case X =>
    case Y =>
    case TriggerL =>
    case TriggerR =>
    case AxisLx =>
    case AxisLy =>
    case AxisRx =>
    case AxisRy =>
  }

  /** Two different single bits have no bit in common. */
  lemma SingleBitsDisjoint(u: bv32, v: bv32)
    requires u != 0 && u & (u - 1) == 0 && v != 0 && v & (v - 1) == 0 && u != v
    ensures u & v == 0
  {
  }

  /** Each member is a single bit, and distinct members share no bit. */
  lemma FlagBits(f: Flag, g: Flag)
    ensures Bit(f) != 0 && Bit(f) & (Bit(f) - 1) == 0
    ensures f != g ==> Bit(f) & Bit(g) == 0
  {
    FlagBit(f);
    FlagBit(g);
    if f != g {
      SingleBitsDisjoint(Bit(f), Bit(g));
    }
  }

  /** The composites' values, as `|` computes them. */
  lemma CompositeValues()
    ensures ABXY == 0x780 && BUTTONS == 0x7FF && TRIGGERS == 0x1800
    ensures AXIS_L == 0x6000 && AXIS_R == 0x1_8000 && AXIS == 0x1_E000
    ensures ALL == 0x1_FFFF
  {
  }

  /**
   * Each composite holds exactly the members it is the union of, and `all`
   * holds every member.
   */
  lemma {:induction false} CompositeMembers(f: Flag)
    ensures Has(ABXY, f) <==> f in {A, B, X, Y}
    ensures Has(BUTTONS, f) <==> f in {Dpad, Start, Back, Lt, Rt, Lb, Rb, A, B, X, Y}
    ensures Has(TRIGGERS, f) <==> f in {TriggerL, TriggerR}
    ensures Has(AXIS_L, f) <==> f in {AxisLx, AxisLy}
    ensures Has(AXIS_R, f) <==> f in {AxisRx, AxisRy}
    ensures Has(AXIS, f) <==> f in {AxisLx, AxisLy, AxisRx, AxisRy}
    ensures Has(ALL, f)
  {
    CompositeValues();
    match f
    case Dpad =>
    case Start =>
    case Back =>
    case Lt =>
    case Rt =>
    case Lb =>
    case Rb =>
    case A =>
    case B =>
    case X =>
    case Y =>
    case TriggerL =>
    case TriggerR =>
    case AxisLx =>
    case AxisLy =>
    case AxisRx =>
    case AxisRy =>
  }
}
