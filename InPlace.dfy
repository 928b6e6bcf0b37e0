/**
 * The operators of BigInt.swift that work by changing an object in place: the
 * reversed subtraction `Int - BigInt` / `UInt - BigInt`, which negates its freshly
 * built result with `neg()`, and the compound assignments `*=`, `+=`, `-=`, which
 * call the in-place `BigIntObjC` methods on their `inout` left operand. Each is tied
 * to the non-mutating operator of module Operators applied to the prior values.
 */
module InPlace {
  import opened Machine
  import opened BigInts
  import opened Operators
  import ObjC

  /** `Int - BigInt`: build `rhs - lhs`, then negate the new object in place. */
  method IntMinusBigInt(lhs: SLong, rhs: BigInt) returns (res: BigInt)
    ensures fresh(res)
    ensures res.value == lhs - rhs.value
    ensures res.value == Minus(Int(lhs), Big(rhs.value))
  {
    res := new BigInt.FromObjC(ObjC.SubSLong(rhs.value, lhs));
    res.Neg();
  }

  /** `UInt - BigInt`: build `rhs - lhs`, then negate the new object in place. */
  method UIntMinusBigInt(lhs: ULong, rhs: BigInt) returns (res: BigInt)
    ensures fresh(res)
    ensures res.value == lhs - rhs.value
    ensures res.value == Minus(UInt(lhs), Big(rhs.value))
  {
    res := new BigInt.FromObjC(ObjC.SubULong(rhs.value, lhs));
    res.Neg();
  }

  /** `*=` with a `BigIntObjC` right operand, which may be `lhs` itself (`x *= x` squares). */
  method MulAssign(lhs: BigInt, rhs: BigInt)
    modifies lhs
    ensures lhs.value == Times(Big(old(lhs.value)), Big(old(rhs.value)))
    ensures rhs != lhs ==> rhs.value == old(rhs.value)
  {
    lhs.Mul(rhs);
  }

  /** `*=` with an `Int` right operand */
  method MulAssignInt(lhs: BigInt, rhs: SLong)
    modifies lhs
    ensures lhs.value == Times(Big(old(lhs.value)), Int(rhs))
  {
    lhs.MulSLong(rhs);
  }

  /** `*=` with a `UInt` right operand */
  method MulAssignUInt(lhs: BigInt, rhs: ULong)
    modifies lhs
    ensures lhs.value == Times(Big(old(lhs.value)), UInt(rhs))
  {
    lhs.MulULong(rhs);
  }

  /** `+=` with a `BigIntObjC` right operand, which may be `lhs` itself (`x += x` doubles). */
  method AddAssign(lhs: BigInt, rhs: BigInt)
    modifies lhs
    ensures lhs.value == Plus(Big(old(lhs.value)), Big(old(rhs.value)))
    ensures rhs != lhs ==> rhs.value == old(rhs.value)
  {
    lhs.Add(rhs);
  }

  /** `+=` with an `Int` right operand */
  method AddAssignInt(lhs: BigInt, rhs: SLong)
    modifies lhs
    ensures lhs.value == Plus(Big(old(lhs.value)), Int(rhs))
  {
    lhs.AddSLong(rhs);
  }

  /** `+=` with a `UInt` right operand */
  method AddAssignUInt(lhs: BigInt, rhs: ULong)
    modifies lhs
    ensures lhs.value == Plus(Big(old(lhs.value)), UInt(rhs))
  {
    lhs.AddULong(rhs);
  }

  /** `-=`: the source declares it for a `UInt` right operand only. */
  method SubAssignUInt(lhs: BigInt, rhs: ULong)
    modifies lhs
    ensures lhs.value == Minus(Big(old(lhs.value)), UInt(rhs))
  {
    lhs.SubULong(rhs);
  }
}
