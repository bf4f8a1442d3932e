/**
  Descriptors of the arithmetic types that `lossless_cast` converts between, and
  the C++ integer operations its range guards are written with.

  Integer types are the fixed-width `int8_t` ... `uint64_t`; a floating-point type
  is described only by `std::numeric_limits<T>::digits`, the number of binary
  digits of its significand. Values are mathematical integers; every wrap-around
  or overflow rule of C++ is written out below.
 */
module ArithTypes {

  /** Bit width of a fixed-width integer type. */
  datatype Width = W8 | W16 | W32 | W64 {
    function Bits(): (b: nat)
      ensures 8 <= b <= 64 && b % 8 == 0
    {
      match this
      case W8 => 8
      case W16 => 16
      case W32 => 32
      case W64 => 64
    }
  }

  /** `intN_t` when `signed`, `uintN_t` otherwise. */
  datatype IntType = IntType(width: Width, signed: bool) {
    function Bits(): nat {
      width.Bits()
    }

    /** `sizeof(T)` in bytes. */
    function Size(): nat {
      width.Bits() / 8
    }
  }

  /** `float`, `double` and (x86 extended precision) `long double`. */
  datatype FloatType = Float | Double | LongDouble

  /** An arithmetic type accepted by `lossless_cast` (bool and character types excluded). */
  datatype ArithType = Integral(intType: IntType) | Floating(floatType: FloatType)

  const Int8: IntType := IntType(W8, true)
  const Int16: IntType := IntType(W16, true)
  const Int32: IntType := IntType(W32, true)
  const Int64: IntType := IntType(W64, true)
  const UInt8: IntType := IntType(W8, false)
  const UInt16: IntType := IntType(W16, false)
  const UInt32: IntType := IntType(W32, false)
  const UInt64: IntType := IntType(W64, false)

  function Pow2(n: nat): (r: nat)
    ensures r >= 1
  {
    if n == 0 then 1 else 2 * Pow2(n - 1)
  }

  lemma {:induction false} Pow2Monotone(m: nat, n: nat)
    requires m <= n
    ensures Pow2(m) <= Pow2(n)
    ensures m < n ==> 2 * Pow2(m) <= Pow2(n)
    decreases n
  {
    if m < n {
      Pow2Monotone(m, n - 1);
    }
  }

  lemma {:induction false} Pow2Add(m: nat, n: nat)
    ensures Pow2(m + n) == Pow2(m) * Pow2(n)
    decreases n
  {
    if n > 0 {
      Pow2Add(m, n - 1);
      assert Pow2(m + n) == 2 * Pow2(m + n - 1);
    }
  }

  /** 2^n outgrows n. */
  lemma {:induction false} Pow2ExceedsExponent(n: nat)
    ensures n < Pow2(n)
  {
    if n > 0 {
      Pow2ExceedsExponent(n - 1);
    }
  }

  /** `std::numeric_limits<T>::min()`. */
  function Min(t: IntType): int {
    if t.signed then -(Pow2(t.Bits() - 1) as int) else 0
  }

  /** `std::numeric_limits<T>::max()`. */
  function Max(t: IntType): int {
    if t.signed then Pow2(t.Bits() - 1) - 1 else Pow2(t.Bits()) - 1
  }

  /** The values of type `t`. */
  predicate InRange(t: IntType, v: int) {
    Min(t) <= v <= Max(t)
  }

  /** `std::numeric_limits<T>::digits` of an integer type: its value bits. */
  function IntDigits(t: IntType): nat {
    if t.signed then t.Bits() - 1 else t.Bits()
  }

  /** `std::numeric_limits<T>::digits` of a floating-point type. */
  function Digits(g: FloatType): nat {
    match g
    case Float => 24
    case Double => 53
    case LongDouble => 64
  }

  /** Every type's range is [-2^digits, 2^digits - 1] when signed and [0, 2^digits - 1] otherwise. */
  lemma RangeByDigits(t: IntType)
    ensures Max(t) == Pow2(IntDigits(t)) - 1
    ensures Min(t) == (if t.signed then -(Pow2(IntDigits(t)) as int) else 0)
    ensures Min(t) <= 0 < Max(t)
  {
  }

  /**
    `static_cast<T>(v)` from another integer type: the unique value of `t` that is
    congruent to `v` modulo 2^bits (the conversion rule of C++20).
   */
  function Convert(t: IntType, v: int): (r: int)
    ensures InRange(t, r)
    ensures exists k: int :: r == v + k * Pow2(t.Bits())
    ensures InRange(t, v) ==> r == v
  {
    var n := Pow2(t.Bits());
    var m := v % n;
    Reduce(v, n, t.signed, Min(t), Max(t));
    if t.signed && m > Max(t) then m - n else m
  }

  /** Reduction modulo `n` into [lo, hi], where [lo, hi] has exactly `n` elements. */
  lemma Reduce(v: int, n: int, signed: bool, lo: int, hi: int)
    requires n > 0 && hi - lo + 1 == n
    requires signed ==> lo == -(n / 2) && n % 2 == 0
    requires !signed ==> lo == 0
    ensures var m := v % n;
            var r := if signed && m > hi then m - n else m;
            && lo <= r <= hi
            && r == v + (-(v / n) - (if signed && m > hi then 1 else 0)) * n
            && (lo <= v <= hi ==> r == v)
  {
    var q := v / n;
    var m := v % n;
    assert v == q * n + m;
    if lo <= v <= hi {
      if 0 <= v {
        SmallQuotient(v, n, 0);
      } else {
        SmallQuotient(v, n, -1);
      }
    }
  }

  /** k * n - 1 leaves remainder n - 1. */
  lemma AllOnesMod(n: int, k: int)
    requires n > 0 && k >= 1
    ensures (n * k - 1) % n == n - 1
  {
    assert n * k - 1 == (k - 1) * n + (n - 1);
    SmallQuotient(n * k - 1, n, k - 1);
  }

  lemma SmallQuotient(v: int, n: int, q: int)
    requires n > 0 && q * n <= v < q * n + n
    ensures v / n == q && v % n == v - q * n
  {
    var d := v / n - q;
    assert v == (v / n) * n + v % n;
    assert d * n == v - q * n - v % n;
  }

  /**
    Integral promotion: an operand narrower than `int` is computed with as `int`
    (32 bits here); wider operands keep their type.
   */
  function Promote(t: IntType): (p: IntType)
    ensures p.Bits() >= 32
    ensures forall v :: InRange(t, v) ==> InRange(p, v)
  {
    if t.Bits() < 32 then
      Pow2Monotone(t.Bits(), 31);
      Int32
    else
      t
  }

  /**
    `x << n` on (promoted) type `t`. A shift count at or beyond the width is
    undefined behaviour, hence the precondition; otherwise C++20 defines the
    result as x * 2^n reduced modulo 2^bits.
   */
  function ShiftLeft(t: IntType, x: int, n: nat): (r: int)
    requires n < t.Bits()
    ensures InRange(t, r)
    ensures InRange(t, x * Pow2(n)) ==> r == x * Pow2(n)
  {
    Convert(t, x * Pow2(n))
  }

  /** Unary minus on `t`; signed overflow is undefined behaviour, hence the precondition. */
  function Negate(t: IntType, x: int): (r: int)
    requires InRange(t, -x)
    ensures InRange(t, r) && r + x == 0
  {
    -x
  }

  /** `T{v}`: brace-initialisation rejects a narrowing conversion, hence the precondition. */
  function BraceInit(t: IntType, v: int): (r: int)
    requires InRange(t, v)
    ensures InRange(t, r) && r == v
  {
    v
  }
}
