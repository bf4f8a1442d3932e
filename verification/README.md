# ctl: lossless numeric casts and special-member toggling, in Dafny

This project models two pieces of the `ctl` C++ utility library and proves
properties of them.

- **`ctl::lossless_cast<To>(From f)`** (`include/ctl/object/numerics.hpp`) converts
  between arithmetic types. It throws `std::range_error` when the value would not
  survive the conversion. An `if constexpr` chain picks one of seven arms from the
  types' categories:
  - the unchecked lossless path;
  - floating-point source;
  - signed integer to floating point;
  - unsigned integer to floating point;
  - signed to unsigned;
  - unsigned to signed;
  - same-sign integral.

  Each checked arm has its own range guard and its own error message.
- **`ctl::with_copy_move<cc, mc, ca, ma, tag>`** (`include/ctl/meta/special_members.hpp`)
  is an empty primary template plus fifteen hand-written partial specializations.
  Together they map four flags to the copy/move members that are defaulted or
  deleted. Two helpers build on it: `only_move_members` and `disable_class`.

## Layout

| file | module | contents |
|---|---|---|
| `results.dfy` | `Results` | `Option` and `Result` (the `std::range_error` path) |
| `arith_types.dfy` | `ArithTypes` | the types `int8_t` … `uint64_t`, `float`, `double` and `long double`; `numeric_limits` min/max/digits; the C++ integer operations the guards use: modular `static_cast`, integral promotion, `<<`, unary minus and brace-initialisation. Each UB or ill-formed case is a precondition. |
| `lossless_traits.dfy` | `LosslessTraits` | `is_lossless_convertible_v` and `is_sizeof_le_v`, and the tests' truth tables |
| `numerics.dfy` | `Numerics` | arm selection (`Dispatch`), `LosslessCast`, and the per-arm theorems |
| `special_members.dfy` | `SpecialMembers` | the fifteen specializations selected by matching the flags; the `std::is_*` traits of a class, by the language rules for implicitly declared, defaulted and suppressed special members; and the helpers |

Modelling choices:

- **Values** are mathematical integers. C++ wrap-around is written out in
  `Convert`, which is C++20 modular conversion.
- **Guards are written in C++ terms.** The guards inside `LosslessCast` use the same
  operations as the source: `From{1} << From{digits}`, `-(...)`,
  `static_cast<From>(To::max())` and `From{To::min()}`. Each operation demands, as a
  precondition, that it not be UB or narrowing. These obligations are discharged
  where the guard is used. So "the shift never overflows", "the cast does not wrap"
  and "the brace-initialisation does not narrow" are all verified facts on every
  pair of types that reaches the arm.
- **Floating-point results.** A floating-point type is described by its
  `numeric_limits<T>::digits`: 24, 53 or 64. A floating-point result is represented
  by the integer it holds. `Representable(d, x)` defines when a `d`-digit significand
  holds `x` exactly. The guards admit only such values (`WithinDigitsRepresentable`),
  and the guard's bound 2^d is tight (`GuardBoundIsTight`).
- **The two traits** are used by the code; the header that defines them is not part of this model. They
  are defined in the usual `numeric_limits` way:
  - integers compare value digits;
  - signed to unsigned and floating to integral are never lossless;
  - floating types compare digits.

  This definition is proved equal to range containment. It is proved to agree with every
  `static_assert` of the tests. Only two of the 121 type pairs are asserted nowhere:
  `uint32_t` to `uint16_t` and `uint32_t` to `uint8_t`.
- **Code and tests disagree at the integer-to-float bound.** The failure test
  samples its "out of range" inputs from ranges that start at ±2^digits
  (`unittests/object/numerics_test.cpp:556-568`). The code accepts ±2^digits
  inclusively (`include/ctl/object/numerics.hpp:73-74,84`), and 2^digits is exactly
  representable. The model follows the code; `InclusiveFloatBoundAccepted` states
  the difference.

## Model

| member | source | states |
|---|---|---|
| ArithTypes.Convert | include/ctl/object/numerics.hpp:94-96 | `static_cast` between integer types yields a value of the target type that differs from the input by a multiple of 2^bits, and leaves in-range values unchanged |
| ArithTypes.Promote | include/ctl/object/numerics.hpp:73-74 | operands of `<<` narrower than `int` are promoted to a type at least 32 bits wide that holds all their values |
| ArithTypes.ShiftLeft | include/ctl/object/numerics.hpp:73-74 | `x << n` is defined only for a count below the width; its result is a value of the type, equal to x·2^n when that fits |
| ArithTypes.Negate | include/ctl/object/numerics.hpp:73 | unary minus is defined only when the negation is a value of the type, and it is the additive inverse |
| ArithTypes.BraceInit | include/ctl/object/numerics.hpp:116-117 | `T{v}` compiles only when `v` is a value of `T` (no narrowing), and keeps the value |
| LosslessTraits.IntegralLosslessIffRangeContained | include/ctl/object/numerics.hpp:54-56 | between integer types the lossless trait holds iff every `From` value is a `To` value (both directions) |
| LosslessTraits.IntToFloatLosslessIffWithinDigits | include/ctl/object/numerics.hpp:54-56 | from an integer to a floating type with d digits, the trait holds iff every `From` value lies in [-2^d, 2^d] |
| LosslessTraits.IsLosslessConvertible | include/ctl/object/numerics.hpp:54-56 | every type converts losslessly to itself, no floating type to an integer type, and no integer type to a narrower one |
| LosslessTraits.IsSizeofLe | include/ctl/object/numerics.hpp:95 | `is_sizeof_le_v` holds iff `From` is no wider than `To` |
| LosslessTraits.TestTableNeverLossIntegral | unittests/object/numerics_test.cpp:87-119 | the 26 integer pairs the tests assert lossless are lossless |
| LosslessTraits.TestTableNeverLossFloatingPoint | unittests/object/numerics_test.cpp:157-164 | the 6 floating pairs the tests assert lossless are lossless |
| LosslessTraits.TestTableNeverLossIntegralToFloat | unittests/object/numerics_test.cpp:198-217 | the 18 integer-to-floating pairs the tests assert lossless are lossless |
| LosslessTraits.TestTableMaybeLossIntegral | unittests/object/numerics_test.cpp:246-290 | the 36 integer pairs the tests assert not lossless are not |
| LosslessTraits.TestTableMaybeLossFloatingPoint | unittests/object/numerics_test.cpp:321-324 | the 3 floating pairs the tests assert not lossless are not |
| LosslessTraits.TestTableMaybeLossIntegralToFloat | unittests/object/numerics_test.cpp:358-364 | the 6 integer-to-floating pairs the tests assert not lossless are not |
| LosslessTraits.TestTableMaybeLossFloatToIntegral | unittests/object/numerics_test.cpp:384-409 | the 24 floating-to-integer pairs the tests assert not lossless are not |
| Numerics.Dispatch | include/ctl/object/numerics.hpp:55-123 | the chosen arm's condition holds and no earlier arm's does (first match), and the chain never falls off its unreachable end |
| Numerics.EveryArmReachable | include/ctl/object/numerics.hpp:55-121 | each of the seven arms is the one chosen for some pair of types |
| Numerics.LosslessCast | include/ctl/object/numerics.hpp:50-124 | round trip: a successful result equals the input; the cast succeeds exactly when the input is admitted by `To` (in range, or within ±2^digits for floating `To`) |
| Numerics.StaticCast | include/ctl/object/numerics.hpp:56-120 | `static_cast<To>(f)` yields a value of an integer `To`, and keeps the value when it fits or when `To` is floating and the value is exactly representable |
| Numerics.UncheckedPathSound | include/ctl/object/numerics.hpp:54-56 | a lossless pair takes the unchecked arm, every `From` value is admitted by `To`, and the result is the input |
| Numerics.SignedToUnsignedCast | include/ctl/object/numerics.hpp:92-100 | signed to unsigned succeeds iff 0 ≤ f ≤ To::max, else throws "signed integral out of range of unsigned integral" |
| Numerics.SignedToUnsignedUpperCheck | include/ctl/object/numerics.hpp:93-97 | when `sizeof(From) <= sizeof(To)` every `From` value is ≤ To::max, so skipping the upper check admits nothing out of range; otherwise `static_cast<From>(To::max())` does not wrap |
| Numerics.UpperBoundWrapsWithoutShortCircuit | include/ctl/object/numerics.hpp:95-96 | whenever the short-circuit applies, the skipped bound `static_cast<From>(To::max())` would have wrapped to -1 |
| Numerics.UnsignedToSignedCast | include/ctl/object/numerics.hpp:104-110 | unsigned to signed succeeds iff f ≤ To::max, else throws "unsigned input outside of range of output range" |
| Numerics.UnsignedToSignedNoWrap | include/ctl/object/numerics.hpp:106 | on every pair reaching the arm `To` is no wider than `From` and `static_cast<From>(To::max())` does not wrap |
| Numerics.SameSignCast | include/ctl/object/numerics.hpp:114-121 | same-sign integral succeeds iff To::min ≤ f ≤ To::max, else throws "integral input is out of range of integral output type" |
| Numerics.SameSignNonNarrowing | include/ctl/object/numerics.hpp:116-117 | on every pair reaching the arm `To` is narrower than `From`, so `From{To::min()}` and `From{To::max()}` do not narrow |
| Numerics.IntToFloatCast | include/ctl/object/numerics.hpp:71-88 | integer to floating with d digits succeeds iff -2^d ≤ f ≤ 2^d (for unsigned input iff f ≤ 2^d), else throws "integral input is out of range of float output" |
| Numerics.IntToFloatShiftFits | include/ctl/object/numerics.hpp:71-88 | on every pair reaching an integer-to-floating arm, `From{1}` and `From{digits}` do not narrow, `From` is unpromoted, the shift count is below its width, and ±2^d are `From` values |
| Numerics.WithinDigitsRepresentable | include/ctl/object/numerics.hpp:69-70 | every integer in [-2^d, 2^d] is exactly representable with a d-digit significand |
| Numerics.GuardBoundIsTight | include/ctl/object/numerics.hpp:73-74 | 2^d is representable but 2^d + 1 and -2^d - 1 are not, so the inclusive bound is the widest safe one |
| Numerics.InclusiveFloatBoundAccepted | unittests/object/numerics_test.cpp:556-568 | whenever ±2^digits are `From` values the guard accepts them and they convert exactly, although the failure test samples them as failures |
| SpecialMembers.Specialize | include/ctl/meta/special_members.hpp:26-167 | exactly the all-true combination falls to the primary template; every other combination selects one hand-written specialization, whose default constructor is defaulted and whose destructor is left implicit |
| SpecialMembers.SpecializationsAsIntended | include/ctl/meta/special_members.hpp:34-167 | every hand-written specialization defaults each copy/move member exactly when its flag is set and deletes it otherwise |
| SpecialMembers.WithCopyMove | include/ctl/meta/special_members.hpp:26-167 | `with_copy_move` gets the body its flags ask for, or the empty primary body when all are set |
| SpecialMembers.EachFlagControlsItsMember | unittests/meta/special_members.cpp:20-354 | for all 16 combinations: always default constructible and destructible; copy/move constructible and copy/move assignable exactly when the matching flag is set |
| SpecialMembers.FlipOneFlag | include/ctl/meta/special_members.hpp:35-167 | flipping one flag flips that member's trait and changes no other |
| SpecialMembers.OnlyMoveMembers | include/ctl/meta/special_members.hpp:173-175 | `only_move_members` has the traits of row (false, true, false, true): move construct and move assign only |
| SpecialMembers.DisableClass | include/ctl/meta/special_members.hpp:190-194 | `disable_class` has none of the six special members available |
| SpecialMembers.Members | include/ctl/meta/special_members.hpp:172-194 | a class never gains an ability its base lacks in both its copy and its move form, never uses a member it deletes, and is destructible iff it keeps its destructor and the base is destructible |
| SpecialMembers.EmptyBodyInherits | unittests/meta/special_members.cpp:30-39 | a class declaring no special member mirrors its base, except that an rvalue the base cannot move is still copied |
| SpecialMembers.DerivedClassTraits | unittests/meta/special_members.cpp:20-354 | for all 16 combinations, an empty class derived from `with_copy_move` copies as the flags say and moves whenever the flags allow moving or copying |
| SpecialMembers.DeclaredCopyOrDestructorSuppressesMoves | include/ctl/meta/special_members.hpp:190-194 | a user-declared destructor or copy member leaves undeclared move members undeclared, so the class moves exactly when it copies |
| SpecialMembers.DefaultedDestructorBlocksMove | include/ctl/meta/special_members.hpp:168-175 | an empty class derived from `only_move_members` moves, but one that defaults its destructor does not |
| SpecialMembers.DeclaredMoveDeletesImplicitCopies | include/ctl/meta/special_members.hpp:34-41 | a user-declared move member deletes the copy members the body leaves undeclared, which is why each specialization declares all four |
| SpecialMembers.DeclaredConstructorSuppressesDefault | include/ctl/meta/special_members.hpp:34-41 | a user-declared copy or move constructor suppresses the implicit default constructor, which is why each specialization defaults it explicitly |
| SpecialMembers.DisableClassTester | unittests/meta/special_members.cpp:390-412 | an empty class derived from `disable_class` has none of the six members, one without that base has all six |

## Left out

- The `tag` template argument of `with_copy_move`, `only_move_members` and `disable_class`: it only makes each instantiation a distinct type and never changes which members are declared. The model describes members, not type identity, so the argument is dropped.
- Floating-point source arm (`include/ctl/object/numerics.hpp:61-67`). Float-to-float and float-to-integer casts compare a value with its round trip and treat NaN as a failure, which needs IEEE arithmetic. `LosslessCast` therefore takes an integer input. `Dispatch` still selects this arm, and `EveryArmReachable` shows it is selected. `FloatLostPrecision` names its message.
- Numerics.Representable: the exponent range of the floating types is not bounded. Every integer of the modelled types lies far inside even `float`'s range.
- Numerics.LosslessCast: `bool` and character types are admitted by the `requires` clause of `lossless_cast`, but no test uses them; only `int8_t` … `uint64_t` are modelled.
- LosslessTraits.IsLosslessConvertible: floating types are compared by digits only, with `long double` taken as the 64-digit x87 format; the real trait also depends on exponent range and platform.
- SpecialMembers.Members: a class has at most one base and no data members, every member is accessible, and a trait means that overload resolution picks a member that is not deleted. Whether the class's own destructor is usable is not folded into the constructor traits. These limits cover `with_copy_move`, its two helpers and every class the tests derive from them.
- `constexpr` and `noexcept` on the defaulted members are not modelled.
- Container views, bitmask enum operators, `null_traits`, `optional`, `out_var`, the ADT concepts and the core type aliases have no runtime behaviour to verify, or their implementation file is not part of this model.
