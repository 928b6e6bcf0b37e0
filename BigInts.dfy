/**
 * The `BigInt` class: a Swift subclass of `BigIntObjC` whose state is one GMP
 * integer, modelled here as the field `value`. Its initialisers, the string/base
 * validation of `setStringAndBase`, and the in-place `BigIntObjC` methods that the
 * `neg()` call and the compound assignment operators use.
 */
module BigInts {
  import opened Wrappers
  import opened Machine
  import ObjC

  /** The errors the string initialisers throw. */
  datatype BigIntError = EmptyStringNumber | InvalidBaseNumber | InvalidNumberFormat

  /**
   * What the library string setter (`setFrom(_:withBase:error:)`, i.e. `mpz_set_str`)
   * reports: its status (0 on success, -1 when the string is not a number in the
   * base) and the integer the receiver holds afterwards.
   */
  datatype MpzSetStr = MpzSetStr(status: int, value: int)

  /** The library setter, which is not part of this model, as a parameter. */
  type SetFrom = (string, Int32) -> MpzSetStr

  /** The base guard: GMP's `mpz_set_str` accepts base 0 (prefix detection) or 2 to 62. */
  predicate ValidBase(base: Int32)
    ensures ValidBase(base) <==> base == 0 || 2 <= base <= 62
  {
    (base == 0) || ((base > 1) && (base < 63))
  }

  /**
   * The error `setStringAndBase` throws, if any. The checks run in a fixed order:
   * base, then emptiness, then the library's verdict; the setter is consulted only
   * when the first two pass. The final guard keeps the source's redundant
   * `count > 0` conjunct.
   */
  function SetStringError(s: string, base: Int32, setFrom: SetFrom): (r: Option<BigIntError>)
    ensures r == Some(InvalidBaseNumber) <==> !ValidBase(base)
    ensures r == Some(EmptyStringNumber) <==> ValidBase(base) && |s| == 0
    ensures r == Some(InvalidNumberFormat) <==> ValidBase(base) && |s| > 0 && setFrom(s, base).status == -1
    ensures r == None <==> ValidBase(base) && |s| > 0 && setFrom(s, base).status != -1
  {
    if !ValidBase(base) then
      Some(InvalidBaseNumber)
    else if !(|s| > 0) then
      Some(EmptyStringNumber)
    else if (setFrom(s, base).status == -1) && (|s| > 0) then
      Some(InvalidNumberFormat)
    else
      None
  }

  /** A bad base is reported before an empty string: `("", 1)` is a base error. */
  lemma BadBaseReportedFirst(s: string, base: Int32, setFrom: SetFrom)
    requires !ValidBase(base)
    ensures SetStringError(s, base, setFrom) == Some(InvalidBaseNumber)
    ensures SetStringError("", base, setFrom) != Some(EmptyStringNumber)
  {
  }

  /**
   * With a valid base, an empty string is rejected whatever the library setter
   * would say: two setters that differ everywhere give the same outcome.
   */
  lemma EmptyStringSkipsSetter(base: Int32, setFrom: SetFrom, other: SetFrom)
    requires ValidBase(base)
    ensures SetStringError("", base, setFrom) == Some(EmptyStringNumber)
    ensures SetStringError("", base, setFrom) == SetStringError("", base, other)
  {
  }

  /**
   * Past the first two guards, the format error is thrown exactly when the setter
   * returns -1: the `count > 0` conjunct of the last guard never decides anything.
   */
  lemma FormatErrorIffSetterFails(s: string, base: Int32, setFrom: SetFrom)
    requires ValidBase(base) && |s| > 0
    ensures SetStringError(s, base, setFrom) == Some(InvalidNumberFormat) <==> setFrom(s, base).status == -1
    ensures SetStringError(s, base, setFrom) == if setFrom(s, base).status == -1 then Some(InvalidNumberFormat) else None
  {
  }

  class BigInt {
    /** The GMP integer this object holds. */
    var value: int

    /** `init()`: `mpz_init` sets the value to 0. */
    constructor ()
      ensures value == 0
    {
      value := 0;
    }

    /** `init(nr:)`: a copy of another wrapper's value. */
    constructor FromObjC(nr: int)
      ensures value == nr
    {
      value := nr;
    }

    /** `init(intNr:)`: exact promotion of a signed machine integer. */
    constructor FromInt(n: SLong)
      ensures value == n
    {
      value := n;
    }

    /** `init(uintNr:)`: exact promotion of an unsigned machine integer. */
    constructor FromUInt(n: ULong)
      ensures value == n
    {
      value := n;
    }

    /** `neg()`: negation in place. */
    method Neg()
      modifies this
      ensures value == -old(value)
    {
      value := ObjC.Neg(value);
    }

    /** `mul(_:)`: in-place product; `op` may be this object itself. */
    method Mul(op: BigInt)
      modifies this
      ensures value == old(value) * old(op.value)
    {
      value := ObjC.Mul(value, op.value);
    }

    /** `mulSLong(_:)` */
    method MulSLong(op: SLong)
      modifies this
      ensures value == old(value) * op
    {
      value := ObjC.MulSLong(value, op);
    }

    /** `mulULong(_:)` */
    method MulULong(op: ULong)
      modifies this
      ensures value == old(value) * op
    {
      value := ObjC.MulULong(value, op);
    }

    /** `add(_:)`: in-place sum; `op` may be this object itself. */
    method Add(op: BigInt)
      modifies this
      ensures value == old(value) + old(op.value)
    {
      value := ObjC.Add(value, op.value);
    }

    /** `addSLong(_:)` */
    method AddSLong(op: SLong)
      modifies this
      ensures value == old(value) + op
    {
      value := ObjC.AddSLong(value, op);
    }

    /** `addULong(_:)` */
    method AddULong(op: ULong)
      modifies this
      ensures value == old(value) + op
    {
      value := ObjC.AddULong(value, op);
    }

    /** `subULong(_:)` */
    method SubULong(op: ULong)
      modifies this
      ensures value == old(value) - op
    {
      value := ObjC.SubULong(value, op);
    }

    /**
     * `setStringAndBase(_:base:)`: the guards of `SetStringError`, in their order;
     * the library setter runs (and overwrites the value) only once the base and the
     * emptiness guards have passed.
     */
    method SetStringAndBase(s: string, base: Int32, setFrom: SetFrom) returns (err: Option<BigIntError>)
      modifies this
      ensures err == SetStringError(s, base, setFrom)
      ensures ValidBase(base) && |s| > 0 ==> value == setFrom(s, base).value
      ensures !(ValidBase(base) && |s| > 0) ==> value == old(value)
    {
      if !ValidBase(base) {
        return Some(InvalidBaseNumber);
      }
      if !(|s| > 0) {
        return Some(EmptyStringNumber);
      }
      var mpzSetStr := setFrom(s, base);
      value := mpzSetStr.value;
      if (mpzSetStr.status == -1) && (|s| > 0) {
        return Some(InvalidNumberFormat);
      }
      return None;
    }
  }

  /**
   * `init(nr:base:)` and `init(stringNr:base:)`: a fresh zero object set from the
   * string; a thrown error leaves no object to the caller.
   */
  method FromString(s: string, base: Int32, setFrom: SetFrom) returns (r: Result<BigInt, BigIntError>)
    ensures r.Failure? <==> SetStringError(s, base, setFrom).Some?
    ensures r.Failure? ==> Some(r.error) == SetStringError(s, base, setFrom)
    ensures r.Success? ==> fresh(r.value) && r.value.value == setFrom(s, base).value
  {
    var b := new BigInt();
    var err := b.SetStringAndBase(s, base, setFrom);
    if err.Some? {
      return Failure(err.value);
    }
    return Success(b);
  }

  /** `init(stringNr:)` and `init(stringNr:error:)`: the same in base 10. */
  method FromDecimalString(s: string, setFrom: SetFrom) returns (r: Result<BigInt, BigIntError>)
    ensures r.Failure? <==> |s| == 0 || setFrom(s, 10).status == -1
    ensures r.Failure? && |s| == 0 ==> r.error == EmptyStringNumber
    ensures r.Failure? && |s| > 0 ==> r.error == InvalidNumberFormat
    ensures r.Success? ==> fresh(r.value) && r.value.value == setFrom(s, 10).value
  {
    r := FromString(s, 10, setFrom);
  }
}
