/**
 * The value-level meaning of the `BigIntObjC` primitives the Swift layer calls.
 * `BigIntObjC` wraps a GMP `mpz_t`, but its implementation is not part of this model.
 * Where the primitive is a plain GMP routine (`mpz_add`, `mpz_add_ui`, `mpz_sub`,
 * `mpz_sub_ui`, `mpz_mul`, `mpz_mul_si`, `mpz_mul_ui`, `mpz_neg`, `mpz_cmp`,
 * `mpz_cmp_si`, `mpz_cmp_ui`) it has the meaning the GNU MP manual gives that routine
 * (section 5.5 "Arithmetic Functions", section 5.10 "Comparison Functions"). GMP has
 * no signed add or subtract routine, so `addSLong` and `subSLong` are assumed to be
 * exact signed operations. Every result is a multiple-precision integer, so none of
 * these wraps around.
 */
module ObjC {
  import opened Machine

  /** `mpz_add` */
  function Add(a: int, b: int): int { a + b }
  /** the wrapper's `addSLong`: assumed to be the exact sum for a signed machine operand */
  function AddSLong(a: int, b: SLong): int { a + b }
  /** `mpz_add_ui` */
  function AddULong(a: int, b: ULong): int { a + b }

  /** `mpz_sub` */
  function Sub(a: int, b: int): int { a - b }
  /** the wrapper's `subSLong`: assumed to be the exact difference for a signed machine operand */
  function SubSLong(a: int, b: SLong): int { a - b }
  /** `mpz_sub_ui` */
  function SubULong(a: int, b: ULong): int { a - b }

  /** `mpz_mul` */
  function Mul(a: int, b: int): int { a * b }
  /** `mpz_mul_si` */
  function MulSLong(a: int, b: SLong): int { a * b }
  /** `mpz_mul_ui` */
  function MulULong(a: int, b: ULong): int { a * b }

  /** `mpz_neg` */
  function Neg(a: int): int { -a }

  /**
   * `mpz_cmp`: GMP promises only the sign of the result (positive, zero or negative
   * as `a` is above, equal to or below `b`); the Swift layer only ever tests that
   * sign, so the canonical -1 / 0 / 1 stands for every result GMP may return.
   */
  function Compare(a: int, b: int): (c: int)
    ensures c < 0 <==> a < b
    ensures c == 0 <==> a == b
    ensures c > 0 <==> a > b
  {
    if a < b then -1 else if a == b then 0 else 1
  }
  /** `mpz_cmp_si` (the wrapper's `compare(withSLong:)`) */
  function CompareWithSLong(a: int, b: SLong): int { Compare(a, b) }
  /** `mpz_cmp_ui` (the wrapper's `compare(withULong:)`) */
  function CompareWithULong(a: int, b: ULong): int { Compare(a, b) }

  /**
   * The primitives whose rounding convention and zero-divisor behaviour are not
   * visible from the Swift layer: they are left uninterpreted, as arbitrary total
   * functions that every statement about the operators is quantified over.
   */
  datatype Engine = Engine(
    div: (int, int) -> int,
    divSLong: (int, SLong) -> int,
    divULong: (int, ULong) -> int,
    mod: (int, int) -> int,
    power: (int, ULong) -> int)
}
