# CmTypes core in Dafny

This project models the value primitives of the Cosmos runtime's basic type header
`software/Services/Basic/Modules/CmTypes.h` and proves properties about them:

- **`CmXY<int32>`**: the pair type behind `CmSize`, `CmPoint` and `CmRange`. It is the
  class `CoordinatePairs.CmXY`, with the two fields `x` and `y` (the header's `_x`, `_y`).
  Its value is the datatype `XYValue`.
  - The three constructors are class constructors.
  - The header has ten accessors. The eight const ones (`x`, `y`, `w`, `h`, `P1`, `P2`,
    `begin`, `end`) are functions `X` ... `End` over the same two fields.
  - The two non-const `x()`/`y()` return references to the fields. Writes through them are
    the methods `SetX`/`SetY`.
  - `operator=` and both `operator+=` overwrite the fields in place. They are methods with
    `modifies this` and frame conditions on the argument, including the case where the
    argument is the object itself.
  - `operator+` builds a fresh object. It is specified by the pure function `Sum`.
  - Signed overflow is undefined in C++, so every addition requires its results to stay
    inside int32.
  - The conversion `(int32)d` of a double is truncation toward zero. It is defined only
    where the truncated value fits int32.
- **`LO64` / `HI64`**: the split of a `uint64` into its low and high 32-bit halves, for a
  macro argument that is a single operand. The mask `& 0xFFFFFFFF` and the shift `>> 32` are defined bit by bit on naturals (`BitAnd`,
  `ShiftRight`), together with the `(uint32)` cast. Proofs by induction show what they
  mean arithmetically: the remainder and the quotient by 2^32. The halves recombine to
  the original value, and every pair of halves is the split of exactly one value.
- **`CHECKSUM_DIGIT_1..7`, `FTLight_DTI_MAX`, `FTLight_DTI_MIN`**: each checksum-digit macro
  is evaluated the way C++ evaluates it, from left to right in signed 64-bit arithmetic,
  with overflow as an explicit `None`. The proofs show that none overflows and that the
  n-th is 216^n. The DTI bounds are 216^4 - 1 and 2^31, as their comments state.

A property of the header: both macros paste their argument without parentheses. `>>` binds
more tightly than `&`, `^`, `|`, `?:` and the comparisons, so `HI64(a | b)` expands to
`(uint32)(a | (b >> 32))`. For a = 0x1_0000_0000 and b = 0 that is 0, while the high half of
`a | b` is 1. `LO64` is not affected for `|`, `^` and `?:`, because its cast keeps only the
low 32 bits either way.

Files: `numerics.dfy` (integer widths, `Pow`), `split64.dfy` (`Split64`),
`ftlight_constants.dfy` (`FTLightConstants`), `cm_xy.dfy` (`CoordinatePairs`).

## Model

| member | source | states |
|---|---|---|
| `Split64.BitAnd` | software/Services/Basic/Modules/CmTypes.h:193 | the `&` of LO64, bit by bit: the result never exceeds either operand |
| `Split64.ShiftRight` | software/Services/Basic/Modules/CmTypes.h:194 | the `>>` of HI64: the result never exceeds the operand, and a shift by at least one bit makes a positive operand strictly smaller |
| `Split64.ToUInt32` | software/Services/Basic/Modules/CmTypes.h:193-194 | the `(uint32)` cast: the result is congruent to its argument modulo 2^32 and equals it when it is already below 2^32 |
| `Split64.Lo64` | software/Services/Basic/Modules/CmTypes.h:193 | masking with 0xFFFFFFFF and casting to uint32 yields x mod 2^32 |
| `Split64.Hi64` | software/Services/Basic/Modules/CmTypes.h:194 | shifting right by 32 and casting to uint32 yields x div 2^32 |
| `Split64.MaskIsRemainder` | software/Services/Basic/Modules/CmTypes.h:193 | AND with k one-bits keeps exactly the remainder by 2^k, for every natural |
| `Split64.ShiftIsQuotient` | software/Services/Basic/Modules/CmTypes.h:194 | a right shift by k bits is division by 2^k, for every natural |
| `Split64.CastsAreLossless` | software/Services/Basic/Modules/CmTypes.h:193-194 | for a 64-bit x both halves are below 2^32 before the cast, so the `(uint32)` casts drop no bits |
| `Split64.Recombine` | software/Services/Basic/Modules/CmTypes.h:193-194 | HI64(x) * 2^32 + LO64(x) == x for every 64-bit x |
| `Split64.SplitOfJoin` | software/Services/Basic/Modules/CmTypes.h:193-194 | for any halves hi, lo below 2^32, hi * 2^32 + lo is a 64-bit value whose HI64 is hi and whose LO64 is lo (the split is a bijection) |
| `FTLightConstants.Int64Mul` | software/Services/Basic/Modules/CmTypes.h:276-281 | one int64 `*` of the macros, with overflow (undefined in C++) as None; ChecksumDigitIsPower shows that no step of the seven macros overflows |
| `FTLightConstants.ChecksumDigit` | software/Services/Basic/Modules/CmTypes.h:275-281 | CHECKSUM_DIGIT_n as left-to-right int64 evaluation: any value it yields is a positive int64 (ChecksumDigitIsPower shows it always yields 216^n) |
| `FTLightConstants.ChecksumDigitIsPower` | software/Services/Basic/Modules/CmTypes.h:275-281 | every CHECKSUM_DIGIT_n, n = 1..7, evaluates in int64 without overflow and equals 216^n |
| `FTLightConstants.ChecksumDigitsAreBase216PlaceValues` | software/Services/Basic/Modules/CmTypes.h:275-281 | each checksum digit is 216 times the previous one |
| `FTLightConstants.DtiBounds` | software/Services/Basic/Modules/CmTypes.h:283-284 | FTLight_DTI_MAX == 216^4 - 1 == CHECKSUM_DIGIT_4 - 1, FTLight_DTI_MIN == 2^31, and MIN < MAX |
| `CoordinatePairs.TruncateToInt32` | software/Services/Basic/Modules/CmTypes.h:321 | the cast of a double to int32 is the integer within distance 1 of d on the side of zero |
| `CoordinatePairs.TruncationIsUnique` | software/Services/Basic/Modules/CmTypes.h:321 | that property determines the converted value uniquely |
| `CoordinatePairs.TruncationTowardZero` | software/Services/Basic/Modules/CmTypes.h:321 | the conversion never increases the magnitude and never changes the sign |
| `CoordinatePairs.TruncationOfIntegral` | software/Services/Basic/Modules/CmTypes.h:321 | a double holding an int32 value converts back to exactly that value |
| `CoordinatePairs.TruncationExample` | software/Services/Basic/Modules/CmTypes.h:321 | the doubles (3.7, -2.2) give the pair (3, -2) |
| `CoordinatePairs.CmXY.constructor` | software/Services/Basic/Modules/CmTypes.h:319 | a default-constructed pair is (0, 0) |
| `CoordinatePairs.CmXY.FromValues` | software/Services/Basic/Modules/CmTypes.h:320 | the two-value constructor stores its arguments unchanged |
| `CoordinatePairs.CmXY.FromDoubles` | software/Services/Basic/Modules/CmTypes.h:321 | the double constructor stores each argument truncated toward zero |
| `CoordinatePairs.CmXY.X` | software/Services/Basic/Modules/CmTypes.h:329 | `x()` reads the first component of the pair's value |
| `CoordinatePairs.CmXY.Y` | software/Services/Basic/Modules/CmTypes.h:330 | `y()` reads the second component of the pair's value |
| `CoordinatePairs.CmXY.W` | software/Services/Basic/Modules/CmTypes.h:331 | `w()` always equals `x()` |
| `CoordinatePairs.CmXY.H` | software/Services/Basic/Modules/CmTypes.h:332 | `h()` always equals `y()` |
| `CoordinatePairs.CmXY.P1` | software/Services/Basic/Modules/CmTypes.h:333 | `P1()` always equals `x()` |
| `CoordinatePairs.CmXY.P2` | software/Services/Basic/Modules/CmTypes.h:334 | `P2()` always equals `y()` |
| `CoordinatePairs.CmXY.Begin` | software/Services/Basic/Modules/CmTypes.h:335 | `begin()` always equals `x()` |
| `CoordinatePairs.CmXY.End` | software/Services/Basic/Modules/CmTypes.h:336 | `end()` always equals `y()` |
| `CoordinatePairs.AccessorsAlias` | software/Services/Basic/Modules/CmTypes.h:327-336 | w, P1 and begin always equal x; h, P2 and end always equal y; the value is exactly (x, y) |
| `CoordinatePairs.CmXY.SetX` | software/Services/Basic/Modules/CmTypes.h:327 | writing through x() changes the first field only |
| `CoordinatePairs.CmXY.SetY` | software/Services/Basic/Modules/CmTypes.h:328 | writing through y() changes the second field only |
| `CoordinatePairs.CmXY.Assign` | software/Services/Basic/Modules/CmTypes.h:338-345 | afterwards the object holds the source's old value; self-assignment leaves it unchanged; the source is never modified |
| `CoordinatePairs.Sum` | software/Services/Basic/Modules/CmTypes.h:346-357 | the component-wise sum that `operator+` (lines 349-350) and `operator+=` (lines 355-356) compute; SumCommutes, SumOriginNeutral, SumNoCrossCoupling and SumCancels prove it commutative, neutral for (0, 0), free of cross-coupling and cancellative |
| `CoordinatePairs.CmXY.Plus` | software/Services/Basic/Modules/CmTypes.h:346-352 | returns a fresh pair holding the component-wise sum; neither operand changes |
| `CoordinatePairs.SumCommutes` | software/Services/Basic/Modules/CmTypes.h:346-352 | a + t == t + a, and one is defined exactly when the other is |
| `CoordinatePairs.SumOriginNeutral` | software/Services/Basic/Modules/CmTypes.h:346-352 | adding the default pair (0, 0) changes nothing |
| `CoordinatePairs.SumNoCrossCoupling` | software/Services/Basic/Modules/CmTypes.h:346-352 | each component of a sum depends only on the matching components of the operands |
| `CoordinatePairs.SumCancels` | software/Services/Basic/Modules/CmTypes.h:346-352 | a + t == b + t exactly when a == b |
| `CoordinatePairs.CmXY.AddAssign` | software/Services/Basic/Modules/CmTypes.h:353-357 | after `a += t`, a equals old a + old t, also when t is a itself; any other t is untouched |
| `CoordinatePairs.AddScalar` | software/Services/Basic/Modules/CmTypes.h:358-362 | the value of `v += s` for an integer-valued s within the exact float range; AddScalarIsUniformSum proves it equals adding the pair (s, s), and AddScalarUndone proves that adding -s afterwards restores v |
| `CoordinatePairs.CmXY.AddScalarAssign` | software/Services/Basic/Modules/CmTypes.h:358-362 | after `v += s`, both fields are increased by s, independently |
| `CoordinatePairs.AddScalarIsUniformSum` | software/Services/Basic/Modules/CmTypes.h:358-362 | `v += s` has the same effect as adding the pair (s, s) |
| `CoordinatePairs.AddScalarUndone` | software/Services/Basic/Modules/CmTypes.h:358-362 | adding -s after s restores the original pair |

## Left out

- `CoordinatePairs.CmXY.AddScalarAssign`: stated only for integer-valued scalars where the operands and results are at most 2^24 in magnitude. There the float round trip of the int32 fields is exact. Float rounding outside that range is not modelled.
- `CoordinatePairs.TruncateToInt32`: a double is modelled as a real number. The rounding of a decimal literal such as 3.7 to the nearest binary double is not modelled. It does not change the truncated results of the examples.
- `Split64.Hi64`: modelled for a macro argument that is a single operand (a name, a literal, a call or a parenthesised expression). The textual expansion of an argument built with an operator that binds more loosely than `>>` (`&`, `^`, `|`, `?:`, comparisons) is not modelled. In that case the macro shifts only the last operand, as described above.
- `Split64.Lo64`: modelled for an unsigned 64-bit argument only. Applying LO64/HI64 to a negative signed int64, which involves two's complement and an implementation-defined right shift, is not modelled.
- `CmFlex` (lines 292-305): an untagged union whose only behaviour is bit reinterpretation between its alternatives. It has no logic of its own.
- The float instantiations `CmSize2D`, `CmPoint2D`, `CmRange2D` (lines 368-370): single-precision floating point is not modelled.
- `CmLine2D`, `CmRectangle2D` (lines 371-372) and the constructor `CmXY(T const& t)` (line 322): they are pairs of float pairs, and that constructor only compiles for element types with `.x`/`.y` members.
- The destructor `~CmXY` (line 323): it has no behaviour.
- The non-const `x()`/`y()` references that outlive the call: only immediate writes through them (`SetX`, `SetY`) are modelled.
- `CmSmoothed` (lines 378-403): the header holds only its declaration, its default constants and its doc comment. The body of `smooth` lives in a source file that is not part of this model, so the update rule, including how the deviation is measured against `Threshold`, is unknown; it is therefore not modelled. Its state is also `double`.
- `DATETIME_*` and `TIMEBASE_*` (lines 201-214): the picosecond and femtosecond products are computed in `int` before the cast and overflow. Some timebases are fractional floating-point values.
- Platform glue and plain constants (lines 53-191, 196-199, 215-273): system-call renaming, integer typedefs (used here only for their widths), access masks, string/printf macro selection, the limit constants `MIN_INT64`...`MAX_UINT32` (lines 175-191), `MIN_DOUBLE`, `MAX_DOUBLE` and `PI` (lines 196-199), `SECONDS_PER_MINUTE`/`HOUR`/`DAY` (lines 215-218), logging macros, and network and IFTL string constants. These are I/O, platform plumbing, or constants with no behaviour to state beyond their literal value.
- `software/Apps/TestApps/CmModuleTest/CmTest.cpp`: a console test driver for modules that are not part of this model (string, date-time, serialization). It makes no statement about `CmXY`.
