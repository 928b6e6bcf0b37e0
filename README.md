# OSXGMP `BigInt` wrapper — Dafny model

OSXGMP's `BigInt` is a Swift class layered on `BigIntObjC`, an Objective-C wrapper around a GMP
`mpz_t`. All the arithmetic is GMP's. The Swift layer adds three things, and this project models
and proves properties of all three:

1. **String/base validation** (`setStringAndBase` and the string initialisers). It throws
   `InvalidBaseNumber`, `EmptyStringNumber` or `InvalidNumberFormat`, always checking in that order.
2. **The free operator overloads** `**`, `*`, `/`, `%`, `+`, `-`, `<`, `<=`, `>`, `>=`, `==`, `!=`
   over `BigInt`, `Int` and `UInt` operands. Each overload forwards to one or two `BigIntObjC` calls:
   - `+` and `*` swap the operands;
   - `/` promotes a machine-integer dividend; `%` promotes a machine integer on either side;
   - a machine-integer minuend is computed as "reversed subtraction, then negate";
   - the comparisons flip the sign test when the machine integer is on the left.
3. **Compound assignment** `*=`, `+=`, `-=`, which changes the left operand in place.

Modules, one per layer:

- `Machine`: the 64-bit `Int`/`UInt` (C `signed long`/`unsigned long`) and the `Int32` base, as
  bounded subtypes of `int`.
- `ObjC`: the `BigIntObjC` primitives. Those that correspond to a GMP routine have the meaning the
  GNU MP manual gives that routine; `addSLong` and `subSLong`, which have no GMP counterpart, are
  assumed to be exact signed operations.
  - `add`, `sub`, `mul` and `neg` are exact integer operations.
  - `compare` gives the sign of `a - b`.
  - `div`, `divSLong`, `divULong`, `mod` and `power` are arbitrary functions held in an `Engine`
    value. Every statement about them holds whatever they compute.
- `BigInts`: the `BigInt` class (one `value` field), its initialisers, `setStringAndBase`, and
  the in-place primitives `neg`, `mul…`, `add…` and `subULong`. The GMP string setter
  (`mpz_set_str`) is a function parameter that returns a status and the value it sets.
- `Operators`: one function per Swift operator, with one match case per overload. An operand is
  `Big(int)`, `Int(SLong)` or `UInt(ULong)`. The contracts of `*`, `%`, `+`, `-` and the comparisons
  compare the operator with the same operation on the promoted integers. `/` and `**` state only
  the forwarding, and the as-written `<=`/`>=` state the strict test.
- `InPlace`: the overloads that mutate an object. These are `Int - BigInt` and
  `UInt - BigInt` (which call `neg()` on the new result) and the compound assignments. Each is
  tied to the non-mutating operator applied to the old values.

## Model

| member | source | states |
|---|---|---|
| `BigInts.ValidBase` | LibWrappers/BigInt/BigInt.swift:68 | the base guard accepts exactly 0 and 2..62, the set `mpz_set_str` accepts |
| `BigInts.SetStringError` | LibWrappers/BigInt/BigInt.swift:67-79 | the error thrown: a bad base whatever the string, else an empty string, else a format error exactly when the setter returns -1, else none |
| `BigInts.BadBaseReportedFirst` | LibWrappers/BigInt/BigInt.swift:68-73 | with a bad base every string gives `InvalidBaseNumber`, and `("", base)` never gives `EmptyStringNumber` |
| `BigInts.EmptyStringSkipsSetter` | LibWrappers/BigInt/BigInt.swift:71-75 | with a valid base the empty string gives `EmptyStringNumber`, and the outcome does not depend on the library setter |
| `BigInts.FormatErrorIffSetterFails` | LibWrappers/BigInt/BigInt.swift:74-78 | past the first two guards, `InvalidNumberFormat` is thrown iff the setter returns -1; the `count > 0` conjunct never decides |
| `BigInts.BigInt.constructor` | LibWrappers/BigInt/BigInt.swift:39-41 | `init()` holds 0 |
| `BigInts.BigInt.FromObjC` | LibWrappers/BigInt/BigInt.swift:42-44 | `init(nr:)` holds the given wrapper's value |
| `BigInts.BigInt.FromInt` | LibWrappers/BigInt/BigInt.swift:48-50 | `init(intNr:)` holds the machine integer exactly |
| `BigInts.BigInt.FromUInt` | LibWrappers/BigInt/BigInt.swift:51-53 | `init(uintNr:)` holds the unsigned machine integer exactly |
| `BigInts.BigInt.Neg` | LibWrappers/BigInt/BigInt.swift:249-250 | `neg()` replaces the value by its negation |
| `BigInts.BigInt.Mul` | LibWrappers/BigInt/BigInt.swift:395-397 | `mul(_:)` multiplies the value by the operand's old value in place, also when the operand is the receiver |
| `BigInts.BigInt.MulSLong` | LibWrappers/BigInt/BigInt.swift:398-400 | `mulSLong(_:)` multiplies the value by the machine integer in place |
| `BigInts.BigInt.MulULong` | LibWrappers/BigInt/BigInt.swift:401-403 | `mulULong(_:)` multiplies the value by the unsigned machine integer in place |
| `BigInts.BigInt.Add` | LibWrappers/BigInt/BigInt.swift:408-410 | `add(_:)` adds the operand's old value in place, also when the operand is the receiver |
| `BigInts.BigInt.AddSLong` | LibWrappers/BigInt/BigInt.swift:411-413 | `addSLong(_:)` adds the machine integer in place |
| `BigInts.BigInt.AddULong` | LibWrappers/BigInt/BigInt.swift:414-416 | `addULong(_:)` adds the unsigned machine integer in place |
| `BigInts.BigInt.SubULong` | LibWrappers/BigInt/BigInt.swift:419-421 | `subULong(_:)` subtracts the unsigned machine integer in place |
| `BigInts.BigInt.SetStringAndBase` | LibWrappers/BigInt/BigInt.swift:67-79 | throws `SetStringError`; the value is the setter's result once both guards pass, and is untouched when a guard throws |
| `BigInts.FromString` | LibWrappers/BigInt/BigInt.swift:54-57 | `init(nr:base:)` fails exactly with `SetStringError`; on success a fresh object holds the setter's value |
| `BigInts.FromDecimalString` | LibWrappers/BigInt/BigInt.swift:58-63 | the base-10 string initialisers fail with `EmptyStringNumber` on "" and with `InvalidNumberFormat` exactly when the setter returns -1 |
| `ObjC.Compare` | LibWrappers/BigInt/BigInt.swift:274-276 | `compare` is negative, zero or positive exactly as the first operand is below, equal to or above the second |
| `Operators.Times` | LibWrappers/BigInt/BigInt.swift:164-179 | every `*` overload equals the product of the promoted operands |
| `Operators.Remainder` | LibWrappers/BigInt/BigInt.swift:198-213 | every `%` overload is `mod` of the promoted operands |
| `Operators.Plus` | LibWrappers/BigInt/BigInt.swift:221-236 | every `+` overload equals the sum of the promoted operands |
| `Operators.Minus` | LibWrappers/BigInt/BigInt.swift:238-257 | every `-` overload, including the reversed-then-negated machine-minuend ones, equals the difference of the promoted operands |
| `Operators.CompareOperands` | LibWrappers/BigInt/BigInt.swift:277-288 | the forwarded `compare` call: with a machine integer on the left it compares the operands in the opposite order |
| `Operators.Less` | LibWrappers/BigInt/BigInt.swift:273-288 | every `<` overload agrees with `<` on the promoted operands |
| `Operators.LessEqAsWritten` | LibWrappers/BigInt/BigInt.swift:290-305 | `<=` as written: `BigInt`-left overloads are `<=`, machine-left overloads are strict `<` |
| `Operators.LessEq` | LibWrappers/BigInt/BigInt.swift:290-305 | `<=` with the machine-left sign test corrected: agrees with `<=` on the promoted operands |
| `Operators.Greater` | LibWrappers/BigInt/BigInt.swift:307-322 | every `>` overload agrees with `>` on the promoted operands |
| `Operators.GreaterEqAsWritten` | LibWrappers/BigInt/BigInt.swift:324-339 | `>=` as written: `BigInt`-left overloads are `>=`, machine-left overloads are strict `>` |
| `Operators.GreaterEq` | LibWrappers/BigInt/BigInt.swift:324-339 | `>=` with the machine-left sign test corrected: agrees with `>=` on the promoted operands |
| `Operators.Equal` | LibWrappers/BigInt/BigInt.swift:341-356 | every `==` overload agrees with equality of the promoted operands |
| `Operators.NotEqual` | LibWrappers/BigInt/BigInt.swift:358-373 | every `!=` overload agrees with inequality of the promoted operands |
| `Operators.TimesSwapsOperands` | LibWrappers/BigInt/BigInt.swift:174-179 | `Int * BigInt` and `UInt * BigInt` equal `BigInt * Int` and `BigInt * UInt` |
| `Operators.PlusSwapsOperands` | LibWrappers/BigInt/BigInt.swift:231-236 | `Int + BigInt` and `UInt + BigInt` equal `BigInt + Int` and `BigInt + UInt` |
| `Operators.MinusReversed` | LibWrappers/BigInt/BigInt.swift:248-257 | a machine minuend gives the negation of `BigInt - machine`, which equals `BigInt - BigInt` after promotion |
| `Operators.DivideMachineLeftPromotes` | LibWrappers/BigInt/BigInt.swift:191-196 | `Int / BigInt` and `UInt / BigInt` equal `BigInt / BigInt` on the promoted dividend, for every `div` |
| `Operators.RemainderPromotes` | LibWrappers/BigInt/BigInt.swift:202-213 | every mixed `%` equals `BigInt % BigInt` on the promoted operands, for every `mod` |
| `Operators.ComparisonsPromote` | LibWrappers/BigInt/BigInt.swift:277-372 | mixed `<`, `>`, `==`, `!=` on either side equal the `BigInt`-`BigInt` comparison of the promoted operands |
| `Operators.NonStrictAsWrittenAreStrict` | LibWrappers/BigInt/BigInt.swift:300-339 | machine-left `<=` and `>=` as written are `<` and `>`; they match the promoted comparison iff the operands differ |
| `Operators.NonStrictAsWrittenRejectEqual` | LibWrappers/BigInt/BigInt.swift:300-339 | some `x` has `x <= BigInt(x)` and `x >= BigInt(x)` false as written, though both hold after promotion |
| `InPlace.IntMinusBigInt` | LibWrappers/BigInt/BigInt.swift:248-252 | `Int - BigInt` returns a fresh object holding `lhs - rhs`, built as `rhs - lhs` and negated in place |
| `InPlace.UIntMinusBigInt` | LibWrappers/BigInt/BigInt.swift:253-257 | `UInt - BigInt` returns a fresh object holding `lhs - rhs`, built as `rhs - lhs` and negated in place |
| `InPlace.MulAssign` | LibWrappers/BigInt/BigInt.swift:395-397 | `lhs *= rhs` leaves in `lhs` the `*` of the old values, also when `rhs` is `lhs`; any other `rhs` is unchanged |
| `InPlace.MulAssignInt` | LibWrappers/BigInt/BigInt.swift:398-400 | `lhs *= Int` leaves in `lhs` the `BigInt * Int` of its old value |
| `InPlace.MulAssignUInt` | LibWrappers/BigInt/BigInt.swift:401-403 | `lhs *= UInt` leaves in `lhs` the `BigInt * UInt` of its old value |
| `InPlace.AddAssign` | LibWrappers/BigInt/BigInt.swift:408-410 | `lhs += rhs` leaves in `lhs` the `+` of the old values, also when `rhs` is `lhs`; any other `rhs` is unchanged |
| `InPlace.AddAssignInt` | LibWrappers/BigInt/BigInt.swift:411-413 | `lhs += Int` leaves in `lhs` the `BigInt + Int` of its old value |
| `InPlace.AddAssignUInt` | LibWrappers/BigInt/BigInt.swift:414-416 | `lhs += UInt` leaves in `lhs` the `BigInt + UInt` of its old value |
| `InPlace.SubAssignUInt` | LibWrappers/BigInt/BigInt.swift:419-421 | `lhs -= UInt` leaves in `lhs` the `BigInt - UInt` of its old value |

## Left out

- GMP itself and the `BigIntObjC` implementation are not part of this model. Their primitives are modelled by the meaning the GNU MP manual documents.
- `ObjC.Compare` returns -1, 0 or 1. GMP promises only the sign of `mpz_cmp`, and every operator tests only that sign, so this does not change any result.
- `div`, `divSLong`, `divULong`, `mod` and `power` are uninterpreted: their rounding convention is not visible here. So is their behaviour for a zero divisor (GMP raises a division-by-zero signal).
- `Operators.Power`: `**` only forwards to the uninterpreted `power`; no property of it is stated.
- `Operators.Divide`: `/` only forwards to the uninterpreted `div`, `divSLong` and `divULong`, so its contract states only the forwarding. `BigInt / Int` and `BigInt / UInt` call `divSLong`/`divULong`, not `div` on a promoted divisor, and the model does not claim they agree with `BigInt / BigInt`. The promotion of a machine-integer dividend is stated by `Operators.DivideMachineLeftPromotes`.
- Two wrapper behaviours are assumed, not seen: that `addSLong` and `subSLong` treat a negative `Int` as a signed value (they serve `BigInt ± Int`, `Int ± BigInt` and `+= Int`), and that `neg()`, `mul(_:)`, `mulSLong(_:)`, `mulULong(_:)`, `add(_:)`, `addSLong(_:)`, `addULong(_:)` and `subULong(_:)` update the receiver in place, as their `Void` results used by the compound assignments suggest.
- `root`, `sqrt`, `isPerfectSquare` and `isPerfectPower` (BigInt.swift:93-116) only forward to the library and return its result. No property of them is visible.
- `toInt` and `toUInt` (BigInt.swift:85-90): their overflow behaviour is whatever the unseen `toSLong`/`toULong` do.
- `init(doubleNr:)` is floating point.
- `deinit`, object identity and the ignored `NSError` values are memory management and Foundation plumbing.
- The string setter `mpz_set_str` is a parameter. What it leaves in the object when it returns -1 is the setter's business. Swift's `characters.count` (grapheme clusters) becomes the sequence length, which is zero exactly for the empty string, the only thing the guards test.
- `-=` exists in the source only with a `UInt` right operand. There is no `BigInt` or `Int` variant to model.
- The commented-out operators (BIOP_01-06, 08-09, 13-16, 19-26, 33-40, 42-43, 46-55) are not in the code.
- `LibWrappers/BigFloat/BigFloatObjC.h` declares only initialisation and clearing for a floating-point wrapper.

## Findings

| source | as written | input that shows it | evidently intended | confidence | as-written member | corrected member |
|---|---|---|---|---|---|---|
| LibWrappers/BigInt/BigInt.swift:300-305 | `Int <= BigInt` and `UInt <= BigInt` return `rhs.compare(withXLong: lhs) > 0`, which is strict `lhs < rhs` | `5 <= BigInt(intNr: 5)` is false | `rhs.compare(withXLong: lhs) >= 0`, i.e. `lhs <= rhs` | not executed; follows from the code and the sign contract of `mpz_cmp_si`/`mpz_cmp_ui` | `Operators.LessEqAsWritten` | `Operators.LessEq` |
| LibWrappers/BigInt/BigInt.swift:334-339 | `Int >= BigInt` and `UInt >= BigInt` return `rhs.compare(withXLong: lhs) < 0`, which is strict `lhs > rhs` | `5 >= BigInt(uintNr: 5)` is false | `rhs.compare(withXLong: lhs) <= 0`, i.e. `lhs >= rhs` | not executed; follows from the code and the sign contract of `mpz_cmp_si`/`mpz_cmp_ui` | `Operators.GreaterEqAsWritten` | `Operators.GreaterEq` |

`Operators.NonStrictAsWrittenAreStrict` and `Operators.NonStrictAsWrittenRejectEqual` prove both discrepancies. `Operators.LessEq` and `Operators.GreaterEq` carry the intended contracts.
