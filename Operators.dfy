/**
 * The free operator functions of BigInt.swift that build a new `BigInt` or a `Bool`
 * from one forwarded `BigIntObjC` call. An operand is a `BigInt` or one of the two
 * machine integer types; every overload has at least one `BigInt` operand, and each
 * match case below is one Swift overload, forwarding to the primitive the source names.
 */
module Operators {
  import opened Machine
  import ObjC

  datatype Operand = Big(big: int) | Int(int64: SLong) | UInt(uint64: ULong)
  {
    /** The integer the operand denotes; `BigInt(intNr:)` / `BigInt(uintNr:)` promote to it exactly. */
    function Value(): int
    {
      match this
      case Big(v) => v
      case Int(v) => v
      case UInt(v) => v
    }
  }

  /** The operand shapes for which the source declares an overload. */
  predicate Overloaded(lhs: Operand, rhs: Operand)
  {
    lhs.Big? || rhs.Big?
  }

  /** `**`: only `BigInt ** UInt` exists; it is the library's power, nothing more. */
  function Power(e: ObjC.Engine, lhs: int, rhs: ULong): (r: int)
    ensures r == e.power(lhs, rhs)
  {
    e.power(lhs, rhs)
  }

  /** `*`: the machine-left overloads pass their operands to `mulSLong`/`mulULong` swapped. */
  function Times(lhs: Operand, rhs: Operand): (r: int)
    requires Overloaded(lhs, rhs)
    ensures r == lhs.Value() * rhs.Value()
  {
    match (lhs, rhs)
    case (Big(a), Big(b)) => ObjC.Mul(a, b)
    case (Big(a), Int(b)) => ObjC.MulSLong(a, b)
    case (Big(a), UInt(b)) => ObjC.MulULong(a, b)
    case (Int(a), Big(b)) => ObjC.MulSLong(b, a)
    case (UInt(a), Big(b)) => ObjC.MulULong(b, a)
  }

  /**
   * `/`: a machine-integer divisor goes to `divSLong`/`divULong`; a machine-integer
   * dividend is promoted to a `BigInt` and divided with `div`.
   */
  function Divide(e: ObjC.Engine, lhs: Operand, rhs: Operand): (r: int)
    requires Overloaded(lhs, rhs)
    ensures lhs.Big? && rhs.Big? ==> r == e.div(lhs.big, rhs.big)
    ensures lhs.Big? && rhs.Int? ==> r == e.divSLong(lhs.big, rhs.int64)
    ensures lhs.Big? && rhs.UInt? ==> r == e.divULong(lhs.big, rhs.uint64)
    ensures !lhs.Big? ==> r == e.div(lhs.Value(), rhs.big)
  {
    match (lhs, rhs)
    case (Big(a), Big(b)) => e.div(a, b)
    case (Big(a), Int(b)) => e.divSLong(a, b)
    case (Big(a), UInt(b)) => e.divULong(a, b)
    case (Int(a), Big(b)) => e.div(a, b)
    case (UInt(a), Big(b)) => e.div(a, b)
  }

  /** `%`: every overload promotes its machine-integer operand and calls `mod`. */
  function Remainder(e: ObjC.Engine, lhs: Operand, rhs: Operand): (r: int)
    requires Overloaded(lhs, rhs)
    ensures r == e.mod(lhs.Value(), rhs.Value())
  {
    match (lhs, rhs)
    case (Big(a), Big(b)) => e.mod(a, b)
    case (Big(a), Int(b)) => e.mod(a, b)
    case (Big(a), UInt(b)) => e.mod(a, b)
    case (Int(a), Big(b)) => e.mod(a, b)
    case (UInt(a), Big(b)) => e.mod(a, b)
  }

  /** `+`: the machine-left overloads pass their operands to `addSLong`/`addULong` swapped. */
  function Plus(lhs: Operand, rhs: Operand): (r: int)
    requires Overloaded(lhs, rhs)
    ensures r == lhs.Value() + rhs.Value()
  {
    match (lhs, rhs)
    case (Big(a), Big(b)) => ObjC.Add(a, b)
    case (Big(a), Int(b)) => ObjC.AddSLong(a, b)
    case (Big(a), UInt(b)) => ObjC.AddULong(a, b)
    case (Int(a), Big(b)) => ObjC.AddSLong(b, a)
    case (UInt(a), Big(b)) => ObjC.AddULong(b, a)
  }

  /**
   * `-`: a machine-integer minuend is handled by the reversed subtraction
   * `rhs - lhs` (`subSLong`/`subULong`) followed by a negation.
   */
  function Minus(lhs: Operand, rhs: Operand): (r: int)
    requires Overloaded(lhs, rhs)
    ensures r == lhs.Value() - rhs.Value()
  {
    match (lhs, rhs)
    case (Big(a), Big(b)) => ObjC.Sub(a, b)
    case (Big(a), Int(b)) => ObjC.SubSLong(a, b)
    case (Big(a), UInt(b)) => ObjC.SubULong(a, b)
    case (Int(a), Big(b)) => ObjC.Neg(ObjC.SubSLong(b, a))
    case (UInt(a), Big(b)) => ObjC.Neg(ObjC.SubULong(b, a))
  }

  /**
   * The sign test a comparison operator applies to `compare`. When the machine
   * integer is on the left, the source calls `rhs.compare(withXLong: lhs)`, which
   * compares the operands in the opposite order; this is that call.
   */
  function CompareOperands(lhs: Operand, rhs: Operand): (c: int)
    requires Overloaded(lhs, rhs)
    ensures !lhs.Big? ==> (c < 0 <==> rhs.Value() < lhs.Value()) && (c == 0 <==> lhs.Value() == rhs.Value())
    ensures lhs.Big? ==> (c < 0 <==> lhs.Value() < rhs.Value()) && (c == 0 <==> lhs.Value() == rhs.Value())
  {
    match (lhs, rhs)
    case (Big(a), Big(b)) => ObjC.Compare(a, b)
    case (Big(a), Int(b)) => ObjC.CompareWithSLong(a, b)
    case (Big(a), UInt(b)) => ObjC.CompareWithULong(a, b)
    case (Int(a), Big(b)) => ObjC.CompareWithSLong(b, a)
    case (UInt(a), Big(b)) => ObjC.CompareWithULong(b, a)
  }

  /** `<`: machine-left overloads test `> 0` on the swapped comparison. */
  function Less(lhs: Operand, rhs: Operand): (r: bool)
    requires Overloaded(lhs, rhs)
    ensures r <==> lhs.Value() < rhs.Value()
  {
    if lhs.Big? then CompareOperands(lhs, rhs) < 0 else CompareOperands(lhs, rhs) > 0
  }

  /**
   * `<=` as written: the machine-left overloads test `> 0` on the swapped
   * comparison, which is strict, so they answer `lhs < rhs`.
   */
  function LessEqAsWritten(lhs: Operand, rhs: Operand): (r: bool)
    requires Overloaded(lhs, rhs)
    ensures lhs.Big? ==> (r <==> lhs.Value() <= rhs.Value())
    ensures !lhs.Big? ==> (r <==> lhs.Value() < rhs.Value())
  {
    if lhs.Big? then CompareOperands(lhs, rhs) <= 0 else CompareOperands(lhs, rhs) > 0
  }

  /** `<=` as intended: the machine-left overloads test `>= 0` on the swapped comparison. */
  function LessEq(lhs: Operand, rhs: Operand): (r: bool)
    requires Overloaded(lhs, rhs)
    ensures r <==> lhs.Value() <= rhs.Value()
  {
    if lhs.Big? then CompareOperands(lhs, rhs) <= 0 else CompareOperands(lhs, rhs) >= 0
  }

  /** `>`: machine-left overloads test `< 0` on the swapped comparison. */
  function Greater(lhs: Operand, rhs: Operand): (r: bool)
    requires Overloaded(lhs, rhs)
    ensures r <==> lhs.Value() > rhs.Value()
  {
    if lhs.Big? then CompareOperands(lhs, rhs) > 0 else CompareOperands(lhs, rhs) < 0
  }

  /**
   * `>=` as written: the machine-left overloads test `< 0` on the swapped
   * comparison, which is strict, so they answer `lhs > rhs`.
   */
  function GreaterEqAsWritten(lhs: Operand, rhs: Operand): (r: bool)
    requires Overloaded(lhs, rhs)
    ensures lhs.Big? ==> (r <==> lhs.Value() >= rhs.Value())
    ensures !lhs.Big? ==> (r <==> lhs.Value() > rhs.Value())
  {
    if lhs.Big? then CompareOperands(lhs, rhs) >= 0 else CompareOperands(lhs, rhs) < 0
  }

  /** `>=` as intended: the machine-left overloads test `<= 0` on the swapped comparison. */
  function GreaterEq(lhs: Operand, rhs: Operand): (r: bool)
    requires Overloaded(lhs, rhs)
    ensures r <==> lhs.Value() >= rhs.Value()
  {
    if lhs.Big? then CompareOperands(lhs, rhs) >= 0 else CompareOperands(lhs, rhs) <= 0
  }

  /** `==`: equality is symmetric, so the swapped comparison needs no sign flip. */
  function Equal(lhs: Operand, rhs: Operand): (r: bool)
    requires Overloaded(lhs, rhs)
    ensures r <==> lhs.Value() == rhs.Value()
  {
    CompareOperands(lhs, rhs) == 0
  }

  /** `!=` */
  function NotEqual(lhs: Operand, rhs: Operand): (r: bool)
    requires Overloaded(lhs, rhs)
    ensures r <==> lhs.Value() != rhs.Value()
  {
    CompareOperands(lhs, rhs) != 0
  }

  /** `Int * BigInt` and `UInt * BigInt` forward with swapped operands and agree with `BigInt * Int`. */
  lemma TimesSwapsOperands(lhs: Operand, rhs: Operand)
    requires Overloaded(lhs, rhs)
    ensures Overloaded(rhs, lhs) && Times(lhs, rhs) == Times(rhs, lhs)
  {
  }

  /** `Int + BigInt` and `UInt + BigInt` forward with swapped operands and agree with `BigInt + Int`. */
  lemma PlusSwapsOperands(lhs: Operand, rhs: Operand)
    requires Overloaded(lhs, rhs)
    ensures Overloaded(rhs, lhs) && Plus(lhs, rhs) == Plus(rhs, lhs)
  {
  }

  /** The reversed subtraction: a machine minuend gives the negation of `BigInt - machine`. */
  lemma MinusReversed(lhs: Operand, rhs: int)
    requires !lhs.Big?
    ensures Minus(lhs, Big(rhs)) == -Minus(Big(rhs), lhs)
    ensures Minus(lhs, Big(rhs)) == Minus(Big(lhs.Value()), Big(rhs))
  {
  }

  /** `Int / BigInt` and `UInt / BigInt` equal `BigInt / BigInt` on the promoted dividend, whatever `div` is. */
  lemma DivideMachineLeftPromotes(e: ObjC.Engine, lhs: Operand, rhs: int)
    requires !lhs.Big?
    ensures Divide(e, lhs, Big(rhs)) == Divide(e, Big(lhs.Value()), Big(rhs))
  {
  }

  /** Every `%` overload equals `BigInt % BigInt` on the promoted operands, whatever `mod` is. */
  lemma RemainderPromotes(e: ObjC.Engine, lhs: Operand, rhs: Operand)
    requires Overloaded(lhs, rhs)
    ensures Remainder(e, lhs, rhs) == Remainder(e, Big(lhs.Value()), Big(rhs.Value()))
  {
  }

  /** Mixed `<`, `>`, `==` and `!=` agree with the same comparison on the promoted operands. */
  lemma ComparisonsPromote(lhs: Operand, rhs: Operand)
    requires Overloaded(lhs, rhs)
    ensures Less(lhs, rhs) == Less(Big(lhs.Value()), Big(rhs.Value()))
    ensures Greater(lhs, rhs) == Greater(Big(lhs.Value()), Big(rhs.Value()))
    ensures Equal(lhs, rhs) == Equal(Big(lhs.Value()), Big(rhs.Value()))
    ensures NotEqual(lhs, rhs) == NotEqual(Big(lhs.Value()), Big(rhs.Value()))
  {
  }

  /**
   * The as-written `<=` and `>=` with a machine-integer left operand are `<` and `>`:
   * they agree with the promoted comparison exactly when the operands differ.
   */
  lemma NonStrictAsWrittenAreStrict(lhs: Operand, rhs: int)
    requires !lhs.Big?
    ensures LessEqAsWritten(lhs, Big(rhs)) == Less(lhs, Big(rhs))
    ensures GreaterEqAsWritten(lhs, Big(rhs)) == Greater(lhs, Big(rhs))
    ensures LessEqAsWritten(lhs, Big(rhs)) == LessEq(lhs, Big(rhs)) <==> lhs.Value() != rhs
    ensures GreaterEqAsWritten(lhs, Big(rhs)) == GreaterEq(lhs, Big(rhs)) <==> lhs.Value() != rhs
  {
  }

  /**
   * The defect shown on an input: some machine integer `x` makes `x <= BigInt(x)`
   * and `x >= BigInt(x)` false, although both hold of the promoted integers.
   */
  lemma NonStrictAsWrittenRejectEqual()
    ensures exists x: SLong :: !LessEqAsWritten(Int(x), Big(x)) && LessEq(Int(x), Big(x))
    ensures exists x: ULong :: !GreaterEqAsWritten(UInt(x), Big(x)) && GreaterEq(UInt(x), Big(x))
  {
    assert !LessEqAsWritten(Int(5), Big(5)) && LessEq(Int(5), Big(5));
    assert !GreaterEqAsWritten(UInt(5), Big(5)) && GreaterEq(UInt(5), Big(5));
  }
}
