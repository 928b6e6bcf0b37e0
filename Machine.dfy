/**
 * The machine integer types that appear in the BigInt operator overloads.
 * On the 64-bit Apple platforms the library targets, Swift `Int` and C `signed long`
 * are 64-bit two's complement, `UInt` and `unsigned long` 64-bit unsigned, and the
 * base parameter of the string initialisers is an `Int32`.
 */
module Machine {

  const SLongMin: int := -0x8000_0000_0000_0000
  const SLongMax: int := 0x7FFF_FFFF_FFFF_FFFF
  const ULongMax: int := 0xFFFF_FFFF_FFFF_FFFF
  const Int32Min: int := -0x8000_0000
  const Int32Max: int := 0x7FFF_FFFF

  /** Swift `Int`, GMP `signed long` */
  type SLong = x: int | SLongMin <= x <= SLongMax

  /** Swift `UInt`, GMP `unsigned long` (`GMP_ULONG`) */
  type ULong = x: int | 0 <= x <= ULongMax

  /** Swift `Int32`, the C `int` base argument of `mpz_set_str` */
  type Int32 = x: int | Int32Min <= x <= Int32Max
}
