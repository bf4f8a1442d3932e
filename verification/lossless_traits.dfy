/**
  The two type traits `lossless_cast` dispatches on: `is_lossless_convertible_v`
  (every value of `From` is a value of `To`) and `is_sizeof_le_v`.

  The header that defines these traits is not part of this model. The definition here
  is the usual `std::numeric_limits`-based one: compare value digits, and never
  call a signed-to-unsigned or floating-to-integral conversion lossless. It is
  proved equal to range containment, and proved to agree with the type pairs the
  library's tests assert to be (and not to be) lossless.
 */
module LosslessTraits {
  import opened ArithTypes

  /**
    `is_lossless_convertible_v<From, To>`. Every type converts losslessly to
    itself, no floating type to an integer type, and no integer type to a
    narrower one.
   */
  function IsLosslessConvertible(from: ArithType, to: ArithType): (r: bool)
    ensures from == to ==> r
    ensures from.Floating? && to.Integral? ==> !r
    ensures r && from.Integral? && to.Integral? ==> from.intType.Bits() <= to.intType.Bits()
  {
    match (from, to)
    case (Integral(a), Integral(b)) => (a.signed ==> b.signed) && IntDigits(a) <= IntDigits(b)
    case (Integral(a), Floating(g)) => IntDigits(a) <= Digits(g)
    case (Floating(f), Floating(g)) => Digits(f) <= Digits(g)
    case (Floating(_), Integral(_)) => false
  }

  /** `sizeof(From) <= sizeof(To)`: for integer types, `From` is no wider than `To`. */
  function IsSizeofLe(from: IntType, to: IntType): (r: bool)
    ensures r <==> from.Bits() <= to.Bits()
  {
    from.Size() <= to.Size()
  }

  /** Between integer types, the trait holds exactly when every `From` value is a `To` value. */
  lemma IntegralLosslessIffRangeContained(a: IntType, b: IntType)
    ensures IsLosslessConvertible(Integral(a), Integral(b))
        <==> (forall v :: InRange(a, v) ==> InRange(b, v))
  {
    RangeByDigits(a);
    RangeByDigits(b);
    if IsLosslessConvertible(Integral(a), Integral(b)) {
      Pow2Monotone(IntDigits(a), IntDigits(b));
    } else if a.signed && !b.signed {
      assert InRange(a, -1) && !InRange(b, -1);
    } else {
      Pow2Monotone(IntDigits(b), IntDigits(a));
      assert InRange(a, Max(a)) && !InRange(b, Max(a));
    }
  }

  /**
    From an integer type to a floating-point one with `d` digits, the trait holds
    exactly when every `From` value lies in [-2^d, 2^d], the interval of integers
    a `d`-digit significand represents without rounding.
   */
  lemma IntToFloatLosslessIffWithinDigits(a: IntType, g: FloatType)
    ensures IsLosslessConvertible(Integral(a), Floating(g))
        <==> (forall v :: InRange(a, v) ==> -(Pow2(Digits(g)) as int) <= v <= Pow2(Digits(g)))
  {
    RangeByDigits(a);
    if IsLosslessConvertible(Integral(a), Floating(g)) {
      Pow2Monotone(IntDigits(a), Digits(g));
    } else {
      Pow2Monotone(Digits(g), IntDigits(a));
      assert InRange(a, Max(a));
    }
  }

  /** The integer pairs the tests call lossless (their `static_assert`s). */
  lemma TestTableNeverLossIntegral()
    ensures IsLosslessConvertible(Integral(UInt64), Integral(UInt64))
    ensures IsLosslessConvertible(Integral(UInt32), Integral(UInt64))
    ensures IsLosslessConvertible(Integral(UInt16), Integral(UInt64))
    ensures IsLosslessConvertible(Integral(UInt8), Integral(UInt64))
    ensures IsLosslessConvertible(Integral(UInt32), Integral(UInt32))
    ensures IsLosslessConvertible(Integral(UInt16), Integral(UInt32))
    ensures IsLosslessConvertible(Integral(UInt8), Integral(UInt32))
    ensures IsLosslessConvertible(Integral(UInt16), Integral(UInt16))
    ensures IsLosslessConvertible(Integral(UInt8), Integral(UInt16))
    ensures IsLosslessConvertible(Integral(UInt8), Integral(UInt8))
    ensures IsLosslessConvertible(Integral(Int64), Integral(Int64))
    ensures IsLosslessConvertible(Integral(UInt32), Integral(Int64))
    ensures IsLosslessConvertible(Integral(Int32), Integral(Int64))
    ensures IsLosslessConvertible(Integral(UInt16), Integral(Int64))
    ensures IsLosslessConvertible(Integral(Int16), Integral(Int64))
    ensures IsLosslessConvertible(Integral(UInt8), Integral(Int64))
    ensures IsLosslessConvertible(Integral(Int8), Integral(Int64))
    ensures IsLosslessConvertible(Integral(Int32), Integral(Int32))
    ensures IsLosslessConvertible(Integral(UInt16), Integral(Int32))
    ensures IsLosslessConvertible(Integral(Int16), Integral(Int32))
    ensures IsLosslessConvertible(Integral(UInt8), Integral(Int32))
    ensures IsLosslessConvertible(Integral(Int8), Integral(Int32))
    ensures IsLosslessConvertible(Integral(Int16), Integral(Int16))
    ensures IsLosslessConvertible(Integral(UInt8), Integral(Int16))
    ensures IsLosslessConvertible(Integral(Int8), Integral(Int16))
    ensures IsLosslessConvertible(Integral(Int8), Integral(Int8))
  {
  }

  /** The floating-point pairs the tests call lossless (their `static_assert`s). */
  lemma TestTableNeverLossFloatingPoint()
    ensures IsLosslessConvertible(Floating(LongDouble), Floating(LongDouble))
    ensures IsLosslessConvertible(Floating(Double), Floating(LongDouble))
    ensures IsLosslessConvertible(Floating(Float), Floating(LongDouble))
    ensures IsLosslessConvertible(Floating(Double), Floating(Double))
    ensures IsLosslessConvertible(Floating(Float), Floating(Double))
    ensures IsLosslessConvertible(Floating(Float), Floating(Float))
  {
  }

  /** The integer-to-floating pairs the tests call lossless (their `static_assert`s). */
  lemma TestTableNeverLossIntegralToFloat()
    ensures IsLosslessConvertible(Integral(UInt64), Floating(LongDouble))
    ensures IsLosslessConvertible(Integral(Int64), Floating(LongDouble))
    ensures IsLosslessConvertible(Integral(UInt32), Floating(LongDouble))
    ensures IsLosslessConvertible(Integral(Int32), Floating(LongDouble))
    ensures IsLosslessConvertible(Integral(UInt16), Floating(LongDouble))
    ensures IsLosslessConvertible(Integral(Int16), Floating(LongDouble))
    ensures IsLosslessConvertible(Integral(UInt8), Floating(LongDouble))
    ensures IsLosslessConvertible(Integral(Int8), Floating(LongDouble))
    ensures IsLosslessConvertible(Integral(UInt32), Floating(Double))
    ensures IsLosslessConvertible(Integral(Int32), Floating(Double))
    ensures IsLosslessConvertible(Integral(UInt16), Floating(Double))
    ensures IsLosslessConvertible(Integral(Int16), Floating(Double))
    ensures IsLosslessConvertible(Integral(UInt8), Floating(Double))
    ensures IsLosslessConvertible(Integral(Int8), Floating(Double))
    ensures IsLosslessConvertible(Integral(UInt16), Floating(Float))
    ensures IsLosslessConvertible(Integral(Int16), Floating(Float))
    ensures IsLosslessConvertible(Integral(UInt8), Floating(Float))
    ensures IsLosslessConvertible(Integral(Int8), Floating(Float))
  {
  }

  /** The integer pairs the tests call not lossless (their `static_assert`s). */
  lemma TestTableMaybeLossIntegral()
    ensures !IsLosslessConvertible(Integral(Int64), Integral(UInt64))
    ensures !IsLosslessConvertible(Integral(Int32), Integral(UInt64))
    ensures !IsLosslessConvertible(Integral(Int16), Integral(UInt64))
    ensures !IsLosslessConvertible(Integral(Int8), Integral(UInt64))
    ensures !IsLosslessConvertible(Integral(UInt64), Integral(UInt32))
    ensures !IsLosslessConvertible(Integral(Int64), Integral(UInt32))
    ensures !IsLosslessConvertible(Integral(Int32), Integral(UInt32))
    ensures !IsLosslessConvertible(Integral(Int16), Integral(UInt32))
    ensures !IsLosslessConvertible(Integral(Int8), Integral(UInt32))
    ensures !IsLosslessConvertible(Integral(UInt64), Integral(UInt16))
    ensures !IsLosslessConvertible(Integral(Int64), Integral(UInt16))
    ensures !IsLosslessConvertible(Integral(Int32), Integral(UInt16))
    ensures !IsLosslessConvertible(Integral(Int16), Integral(UInt16))
    ensures !IsLosslessConvertible(Integral(Int8), Integral(UInt16))
    ensures !IsLosslessConvertible(Integral(UInt64), Integral(UInt8))
    ensures !IsLosslessConvertible(Integral(Int64), Integral(UInt8))
    ensures !IsLosslessConvertible(Integral(Int32), Integral(UInt8))
    ensures !IsLosslessConvertible(Integral(UInt16), Integral(UInt8))
    ensures !IsLosslessConvertible(Integral(Int16), Integral(UInt8))
    ensures !IsLosslessConvertible(Integral(Int8), Integral(UInt8))
    ensures !IsLosslessConvertible(Integral(UInt64), Integral(Int64))
    ensures !IsLosslessConvertible(Integral(UInt64), Integral(Int32))
    ensures !IsLosslessConvertible(Integral(Int64), Integral(Int32))
    ensures !IsLosslessConvertible(Integral(UInt32), Integral(Int32))
    ensures !IsLosslessConvertible(Integral(UInt64), Integral(Int16))
    ensures !IsLosslessConvertible(Integral(Int64), Integral(Int16))
    ensures !IsLosslessConvertible(Integral(UInt32), Integral(Int16))
    ensures !IsLosslessConvertible(Integral(Int32), Integral(Int16))
    ensures !IsLosslessConvertible(Integral(UInt16), Integral(Int16))
    ensures !IsLosslessConvertible(Integral(UInt64), Integral(Int8))
    ensures !IsLosslessConvertible(Integral(Int64), Integral(Int8))
    ensures !IsLosslessConvertible(Integral(UInt32), Integral(Int8))
    ensures !IsLosslessConvertible(Integral(Int32), Integral(Int8))
    ensures !IsLosslessConvertible(Integral(UInt16), Integral(Int8))
    ensures !IsLosslessConvertible(Integral(Int16), Integral(Int8))
    ensures !IsLosslessConvertible(Integral(UInt8), Integral(Int8))
  {
  }

  /** The floating-point pairs the tests call not lossless (their `static_assert`s). */
  lemma TestTableMaybeLossFloatingPoint()
    ensures !IsLosslessConvertible(Floating(LongDouble), Floating(Double))
    ensures !IsLosslessConvertible(Floating(LongDouble), Floating(Float))
    ensures !IsLosslessConvertible(Floating(Double), Floating(Float))
  {
  }

  /** The integer-to-floating pairs the tests call not lossless (their `static_assert`s). */
  lemma TestTableMaybeLossIntegralToFloat()
    ensures !IsLosslessConvertible(Integral(UInt64), Floating(Double))
    ensures !IsLosslessConvertible(Integral(Int64), Floating(Double))
    ensures !IsLosslessConvertible(Integral(UInt64), Floating(Float))
    ensures !IsLosslessConvertible(Integral(Int64), Floating(Float))
    ensures !IsLosslessConvertible(Integral(UInt32), Floating(Float))
    ensures !IsLosslessConvertible(Integral(Int32), Floating(Float))
  {
  }

  /** The floating-to-integer pairs the tests call not lossless (their `static_assert`s). */
  lemma TestTableMaybeLossFloatToIntegral()
    ensures !IsLosslessConvertible(Floating(LongDouble), Integral(UInt64))
    ensures !IsLosslessConvertible(Floating(LongDouble), Integral(Int64))
    ensures !IsLosslessConvertible(Floating(LongDouble), Integral(UInt32))
    ensures !IsLosslessConvertible(Floating(LongDouble), Integral(Int32))
    ensures !IsLosslessConvertible(Floating(LongDouble), Integral(UInt16))
    ensures !IsLosslessConvertible(Floating(LongDouble), Integral(Int16))
    ensures !IsLosslessConvertible(Floating(LongDouble), Integral(UInt8))
    ensures !IsLosslessConvertible(Floating(LongDouble), Integral(Int8))
    ensures !IsLosslessConvertible(Floating(Double), Integral(UInt64))
    ensures !IsLosslessConvertible(Floating(Double), Integral(Int64))
    ensures !IsLosslessConvertible(Floating(Double), Integral(UInt32))
    ensures !IsLosslessConvertible(Floating(Double), Integral(Int32))
    ensures !IsLosslessConvertible(Floating(Double), Integral(UInt16))
    ensures !IsLosslessConvertible(Floating(Double), Integral(Int16))
    ensures !IsLosslessConvertible(Floating(Double), Integral(UInt8))
    ensures !IsLosslessConvertible(Floating(Double), Integral(Int8))
    ensures !IsLosslessConvertible(Floating(Float), Integral(UInt64))
    ensures !IsLosslessConvertible(Floating(Float), Integral(Int64))
    ensures !IsLosslessConvertible(Floating(Float), Integral(UInt32))
    ensures !IsLosslessConvertible(Floating(Float), Integral(Int32))
    ensures !IsLosslessConvertible(Floating(Float), Integral(UInt16))
    ensures !IsLosslessConvertible(Floating(Float), Integral(Int16))
    ensures !IsLosslessConvertible(Floating(Float), Integral(UInt8))
    ensures !IsLosslessConvertible(Floating(Float), Integral(Int8))
  {
  }
}
