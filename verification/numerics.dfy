/**
  `ctl::lossless_cast<To>(From f)`: a chain of seven `if constexpr` arms chosen
  by the categories of `From` and `To`, each with its own range guard that
  throws `std::range_error` when the value would not survive the conversion.

  Only integer inputs are modelled: the floating-point source arm needs IEEE
  semantics. A floating-point result is represented by the integer it holds,
  which is exact because the guards admit only exactly representable integers.
 */
module Numerics {
  import opened Results
  import opened ArithTypes
  import opened LosslessTraits

  /** The `std::range_error` thrown by `TEMP_ASSERT`, with its message. */
  datatype RangeError = RangeError(message: string)

  const FloatLostPrecision := "float to float conversion lost precision"
  const IntegralOutOfFloatRange := "integral input is out of range of float output"
  const SignedOutOfUnsignedRange := "signed integral out of range of unsigned integral"
  const UnsignedOutOfSignedRange := "unsigned input outside of range of output range"
  const IntegralOutOfIntegralRange := "integral input is out of range of integral output type"

  /** The arms of the `if constexpr` chain in source order, then falling off its end. */
  datatype Branch =
    | Unchecked
    | FloatSource
    | SignedToFloat
    | UnsignedToFloat
    | SignedToUnsigned
    | UnsignedToSigned
    | SameSignIntegral
    | FallsOffEnd
  {
    /** Position in the chain. */
    function Rank(): nat {
      match this
      case Unchecked => 0
      case FloatSource => 1
      case SignedToFloat => 2
      case UnsignedToFloat => 3
      case SignedToUnsigned => 4
      case UnsignedToSigned => 5
      case SameSignIntegral => 6
      case FallsOffEnd => 7
    }
  }

  predicate IsSignedIntegral(t: ArithType) {
    t.Integral? && t.intType.signed
  }

  predicate IsUnsignedIntegral(t: ArithType) {
    t.Integral? && !t.intType.signed
  }

  /** The `if constexpr` condition of each arm; falling off the end needs none. */
  predicate Guards(b: Branch, from: ArithType, to: ArithType) {
    match b
    case Unchecked => IsLosslessConvertible(from, to)
    case FloatSource => from.Floating?
    case SignedToFloat => IsSignedIntegral(from) && to.Floating?
    case UnsignedToFloat => IsUnsignedIntegral(from) && to.Floating?
    case SignedToUnsigned => IsSignedIntegral(from) && IsUnsignedIntegral(to)
    case UnsignedToSigned => IsUnsignedIntegral(from) && IsSignedIntegral(to)
    case SameSignIntegral => from.Integral? && to.Integral?
    case FallsOffEnd => true
  }

  /**
    The arm `lossless_cast<To, From>` compiles to: the first arm whose condition
    holds. It is never the end of the chain, which the source marks unreachable.
   */
  function Dispatch(from: ArithType, to: ArithType): (b: Branch)
    ensures Guards(b, from, to)
    ensures forall e: Branch :: e.Rank() < b.Rank() ==> !Guards(e, from, to)
    ensures b != FallsOffEnd
  {
    if IsLosslessConvertible(from, to) then Unchecked
    else if from.Floating? then FloatSource
    else if IsSignedIntegral(from) && to.Floating? then SignedToFloat
    else if IsUnsignedIntegral(from) && to.Floating? then UnsignedToFloat
    else if IsSignedIntegral(from) && IsUnsignedIntegral(to) then SignedToUnsigned
    else if IsUnsignedIntegral(from) && IsSignedIntegral(to) then UnsignedToSigned
    else if from.Integral? && to.Integral? then SameSignIntegral
    else FallsOffEnd
  }

  /**
    `x` is a value of a binary floating-point type whose significand has `d`
    digits: halving away trailing zero bits leaves a magnitude below 2^d. The
    exponent range is not bounded here; every integer of the modelled types is
    far inside the range of `float`.
   */
  predicate Representable(d: nat, x: int)
    decreases if x < 0 then -x else x
  {
    if -(Pow2(d) as int) < x < Pow2(d) then true
    else x % 2 == 0 && Representable(d, x / 2)
  }

  /** Every integer in [-2^d, 2^d] is exactly representable with `d` digits. */
  lemma WithinDigitsRepresentable(d: nat, x: int)
    requires d >= 1 && -(Pow2(d) as int) <= x <= Pow2(d)
    ensures Representable(d, x)
  {
    var h := Pow2(d - 1);
    assert Pow2(d) == 2 * h;
    if x == Pow2(d) {
      assert x / 2 == h && x % 2 == 0;
      assert Representable(d, h);
    } else if x == -(Pow2(d) as int) {
      assert x / 2 == -(h as int) && x % 2 == 0;
      assert Representable(d, -(h as int));
    }
  }

  /**
    The inclusive bound 2^d of the integer-to-floating guards is the largest
    possible: the next integer out, 2^d + 1 (or its negation), would be rounded.
   */
  lemma GuardBoundIsTight(d: nat)
    requires d >= 1
    ensures Representable(d, Pow2(d))
    ensures !Representable(d, Pow2(d) + 1)
    ensures !Representable(d, -(Pow2(d) as int) - 1)
  {
    WithinDigitsRepresentable(d, Pow2(d));
    assert Pow2(d) == 2 * Pow2(d - 1);
  }

  /**
    `static_cast<To>(v)` of an integer value: modular for an integer `To`; for a
    floating-point `To` only exactly representable values are passed, so the
    result holds `v` itself.
   */
  function StaticCast(to: ArithType, v: int): (r: int)
    requires to.Floating? ==> Representable(Digits(to.floatType), v)
    ensures to.Integral? ==> InRange(to.intType, r)
    ensures (to.Floating? || InRange(to.intType, v)) ==> r == v
  {
    match to
    case Integral(b) => Convert(b, v)
    case Floating(_) => v
  }

  /**
    The values `lossless_cast` is meant to accept: the range of an integer `To`,
    and for a floating-point `To` the interval [-2^digits, 2^digits] of integers
    its significand represents exactly.
   */
  predicate Admitted(to: ArithType, v: int) {
    match to
    case Integral(b) => InRange(b, v)
    case Floating(g) => -(Pow2(Digits(g)) as int) <= v <= Pow2(Digits(g))
  }

  /**
    The two integer-to-floating arms are reached only by a `From` at least 32 bits
    wide whose value bits outnumber the float's digits, so `From{1}` and
    `From{digits}` do not narrow, `From{1} << From{digits}` shifts by less than
    the width and is computed without promotion, and its result and negation
    are `From` values.
   */
  lemma IntToFloatShiftFits(a: IntType, g: FloatType)
    requires !IsLosslessConvertible(Integral(a), Floating(g))
    ensures Promote(a) == a
    ensures Digits(g) < IntDigits(a) <= a.Bits()
    ensures InRange(a, 1) && InRange(a, Digits(g))
    ensures InRange(a, Pow2(Digits(g)))
    ensures a.signed ==> InRange(a, -(Pow2(Digits(g)) as int))
  {
    RangeByDigits(a);
    Pow2Monotone(Digits(g), IntDigits(a));
    Pow2ExceedsExponent(Digits(g));
  }

  /**
    In the signed-to-unsigned arm the upper check is skipped when
    `sizeof(From) <= sizeof(To)`. Then every `From` value is at most `To`'s
    maximum, so nothing out of range gets through; otherwise `From` is wider and
    `static_cast<From>(To::max())` does not wrap.
   */
  lemma SignedToUnsignedUpperCheck(a: IntType, b: IntType)
    requires a.signed && !b.signed
    ensures IsSizeofLe(a, b) ==> Max(a) <= Max(b)
    ensures !IsSizeofLe(a, b) ==> Convert(a, Max(b)) == Max(b)
  {
    RangeByDigits(a);
    RangeByDigits(b);
    if IsSizeofLe(a, b) {
      Pow2Monotone(IntDigits(a), IntDigits(b));
    } else {
      Pow2Monotone(IntDigits(b), IntDigits(a));
      assert InRange(a, Max(b));
    }
  }

  /**
    Without the `sizeof` short-circuit the upper check would compare against a
    wrapped bound: whenever `sizeof(From) <= sizeof(To)`,
    `static_cast<From>(To::max())` is -1, which rejects every non-negative input.
   */
  lemma UpperBoundWrapsWithoutShortCircuit(a: IntType, b: IntType)
    requires a.signed && !b.signed && IsSizeofLe(a, b)
    ensures Convert(a, Max(b)) == -1
  {
    var n := Pow2(a.Bits());
    var k := Pow2(b.Bits() - a.Bits());
    Pow2Add(a.Bits(), b.Bits() - a.Bits());
    AllOnesMod(n, k);
    assert Max(b) % n == n - 1;
    assert n == 2 * Pow2(a.Bits() - 1);
  }

  /**
    The unsigned-to-signed arm is reached only when `To` is no wider than `From`,
    so `static_cast<From>(To::max())` does not wrap.
   */
  lemma UnsignedToSignedNoWrap(a: IntType, b: IntType)
    requires !a.signed && b.signed
    requires !IsLosslessConvertible(Integral(a), Integral(b))
    ensures b.Bits() <= a.Bits()
    ensures Convert(a, Max(b)) == Max(b)
  {
    RangeByDigits(a);
    RangeByDigits(b);
    Pow2Monotone(IntDigits(b), IntDigits(a));
    assert InRange(a, Max(b));
  }

  /**
    The same-sign arm is reached only when `To` is narrower than `From`, so the
    brace-initialisations `From{To::min()}` and `From{To::max()}` do not narrow.
   */
  lemma SameSignNonNarrowing(a: IntType, b: IntType)
    requires a.signed == b.signed
    requires !IsLosslessConvertible(Integral(a), Integral(b))
    ensures b.Bits() < a.Bits()
    ensures InRange(a, Min(b)) && InRange(a, Max(b))
  {
    RangeByDigits(a);
    RangeByDigits(b);
    Pow2Monotone(IntDigits(b), IntDigits(a));
  }

  /**
    `ctl::lossless_cast<To>(f)` for an integer `f` of type `from`: the converted
    value, which equals `f`, or the `std::range_error` `TEMP_ASSERT` throws.
    It succeeds exactly on the admitted values.
   */
  function LosslessCast(to: ArithType, from: IntType, f: int): (r: Result<int, RangeError>)
    requires InRange(from, f)
    ensures r.Ok? ==> r.value == f
    ensures r.Ok? <==> Admitted(to, f)
  {
    match Dispatch(Integral(from), to)
    case Unchecked =>
      if to.Floating? then
        IntToFloatLosslessIffWithinDigits(from, to.floatType);
        WithinDigitsRepresentable(Digits(to.floatType), f);
        Ok(StaticCast(to, f))
      else
        IntegralLosslessIffRangeContained(from, to.intType);
        Ok(StaticCast(to, f))
    case FloatSource =>
      assert false;
      Err(RangeError(FloatLostPrecision))
    case SignedToFloat =>
      var d := Digits(to.floatType);
      IntToFloatShiftFits(from, to.floatType);
      var p := Promote(from);
      var limit := ShiftLeft(p, BraceInit(from, 1), BraceInit(from, d));
      if f >= Negate(p, limit) && f <= limit then
        WithinDigitsRepresentable(d, f);
        Ok(StaticCast(to, f))
      else
        Err(RangeError(IntegralOutOfFloatRange))
    case UnsignedToFloat =>
      var d := Digits(to.floatType);
      IntToFloatShiftFits(from, to.floatType);
      var limit := ShiftLeft(Promote(from), BraceInit(from, 1), BraceInit(from, d));
      if f <= limit then
        WithinDigitsRepresentable(d, f);
        Ok(StaticCast(to, f))
      else
        Err(RangeError(IntegralOutOfFloatRange))
    case SignedToUnsigned =>
      var b := to.intType;
      SignedToUnsignedUpperCheck(from, b);
      if f >= Convert(from, Min(b)) && (IsSizeofLe(from, b) || f <= Convert(from, Max(b))) then
        Ok(StaticCast(to, f))
      else
        Err(RangeError(SignedOutOfUnsignedRange))
    case UnsignedToSigned =>
      var b := to.intType;
      UnsignedToSignedNoWrap(from, b);
      if f <= Convert(from, Max(b)) then
        Ok(StaticCast(to, f))
      else
        Err(RangeError(UnsignedOutOfSignedRange))
    case SameSignIntegral =>
      var b := to.intType;
      SameSignNonNarrowing(from, b);
      if f >= BraceInit(from, Min(b)) && f <= BraceInit(from, Max(b)) then
        Ok(StaticCast(to, f))
      else
        Err(RangeError(IntegralOutOfIntegralRange))
    case FallsOffEnd =>
      // Unreachable (`Dispatch` never returns it); the value is arbitrary.
      assert false;
      Err(RangeError(""))
  }

  /** An input whose pair is lossless passes unchecked, and comes back unchanged. */
  lemma UncheckedPathSound(a: IntType, to: ArithType, f: int)
    requires IsLosslessConvertible(Integral(a), to) && InRange(a, f)
    ensures Dispatch(Integral(a), to) == Unchecked
    ensures Admitted(to, f)
    ensures LosslessCast(to, a, f) == Ok(f)
  {
    match to
    case Integral(b) => IntegralLosslessIffRangeContained(a, b);
    case Floating(g) => IntToFloatLosslessIffWithinDigits(a, g);
  }

  /** Signed to unsigned: accepted exactly on [0, To::max()], otherwise the arm's error. */
  lemma SignedToUnsignedCast(a: IntType, b: IntType, f: int)
    requires a.signed && !b.signed && InRange(a, f)
    ensures Dispatch(Integral(a), Integral(b)) == SignedToUnsigned
    ensures LosslessCast(Integral(b), a, f)
         == if 0 <= f <= Max(b) then Ok(f) else Err(RangeError(SignedOutOfUnsignedRange))
  {
  }

  /** Unsigned to signed: accepted exactly up to To::max(), otherwise the arm's error. */
  lemma UnsignedToSignedCast(a: IntType, b: IntType, f: int)
    requires !a.signed && b.signed && InRange(a, f)
    ensures LosslessCast(Integral(b), a, f)
         == if f <= Max(b) then Ok(f) else Err(RangeError(UnsignedOutOfSignedRange))
  {
    if IsLosslessConvertible(Integral(a), Integral(b)) {
      UncheckedPathSound(a, Integral(b), f);
    }
  }

  /** Same signedness: accepted exactly on [To::min(), To::max()], otherwise the arm's error. */
  lemma SameSignCast(a: IntType, b: IntType, f: int)
    requires a.signed == b.signed && InRange(a, f)
    ensures LosslessCast(Integral(b), a, f)
         == if Min(b) <= f <= Max(b) then Ok(f) else Err(RangeError(IntegralOutOfIntegralRange))
  {
    if IsLosslessConvertible(Integral(a), Integral(b)) {
      UncheckedPathSound(a, Integral(b), f);
    }
  }

  /**
    Integer to floating with `d` digits: a signed input is accepted exactly on
    [-2^d, 2^d], an unsigned one exactly up to 2^d; otherwise the arms' error.
   */
  lemma IntToFloatCast(a: IntType, g: FloatType, f: int)
    requires InRange(a, f)
    ensures LosslessCast(Floating(g), a, f)
         == if -(Pow2(Digits(g)) as int) <= f <= Pow2(Digits(g)) then Ok(f)
            else Err(RangeError(IntegralOutOfFloatRange))
    ensures !a.signed ==> (LosslessCast(Floating(g), a, f).Ok? <==> f <= Pow2(Digits(g)))
  {
    if IsLosslessConvertible(Integral(a), Floating(g)) {
      UncheckedPathSound(a, Floating(g), f);
    }
  }

  /**
    The failure test for integer-to-floating samples inputs from 2^digits upwards
    and from -2^digits downwards, but the guard accepts both bounds: whenever they
    are `From` values, they convert, exactly.
   */
  lemma InclusiveFloatBoundAccepted(a: IntType, g: FloatType, bound: int)
    requires bound == Pow2(Digits(g)) && InRange(a, bound)
    ensures LosslessCast(Floating(g), a, bound) == Ok(bound)
    ensures a.signed ==> LosslessCast(Floating(g), a, -bound) == Ok(-bound)
  {
    AdmittedPasses(Floating(g), a, bound);
    if a.signed {
      RangeByDigits(a);
      AdmittedPasses(Floating(g), a, -bound);
    }
  }

  /** An admitted value of `From` is returned unchanged. */
  lemma AdmittedPasses(to: ArithType, a: IntType, f: int)
    requires InRange(a, f) && Admitted(to, f)
    ensures LosslessCast(to, a, f) == Ok(f)
  {
  }

  /** No arm of the chain is dead: each is the one chosen for some pair of types. */
  lemma EveryArmReachable()
    ensures Dispatch(Integral(UInt8), Integral(Int16)) == Unchecked
    ensures Dispatch(Floating(Double), Floating(Float)) == FloatSource
    ensures Dispatch(Integral(Int32), Floating(Float)) == SignedToFloat
    ensures Dispatch(Integral(UInt64), Floating(Double)) == UnsignedToFloat
    ensures Dispatch(Integral(Int8), Integral(UInt64)) == SignedToUnsigned
    ensures Dispatch(Integral(UInt16), Integral(Int16)) == UnsignedToSigned
    ensures Dispatch(Integral(Int64), Integral(Int8)) == SameSignIntegral
  {
  }
}
