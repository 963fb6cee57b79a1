/** The FTLight constants of the header: the base-216 place values
 *  CHECKSUM_DIGIT_1 .. CHECKSUM_DIGIT_7 and the bounds of an FTLight
 *  date-time index, FTLight_DTI_MIN and FTLight_DTI_MAX. */
module FTLightConstants {
  import opened Numerics

  /** The base of FTLight digits. */
  const Base: nat := 216

  /** Number of digits covered by the CHECKSUM_DIGIT_n macros. */
  const ChecksumDigits: nat := 7

  /** FTLight_DTI_MAX, `(uint32)0x81BF0FFF`. */
  const DtiMax: uint32 := 0x81BF_0FFF

  /** FTLight_DTI_MIN, `(uint32)0x80000000`. */
  const DtiMin: uint32 := 0x8000_0000

  datatype Option<T> = None | Some(value: T)

  /** One step of signed 64-bit multiplication; None stands for an overflow,
   *  which C++ leaves undefined. */
  function Int64Mul(a: int, b: int): Option<int>
  {
    if InInt64(a * b) then Some(a * b) else None
  }

  /** CHECKSUM_DIGIT_n: `(int64)216*216*...*216` with n factors, evaluated
   *  from left to right in 64-bit signed arithmetic. */
  function ChecksumDigit(n: nat): (r: Option<int>)
    requires 1 <= n <= ChecksumDigits
    ensures r.Some? ==> InInt64(r.value) && r.value > 0
  {
    if n == 1 then Some(Base)
    else match ChecksumDigit(n - 1)
      case None => None
      case Some(p) => Int64Mul(p, Base)
  }

  /** Every CHECKSUM_DIGIT_n is evaluated without overflow, and its value is
   *  216^n, the place value of the n-th base-216 digit. */
  lemma {:induction false} ChecksumDigitIsPower(n: nat)
    requires 1 <= n <= ChecksumDigits
    ensures ChecksumDigit(n) == Some(Pow(Base, n))
  {
    if n > 1 {
      ChecksumDigitIsPower(n - 1);
      PowMonotone(Base, n, ChecksumDigits);
      assert Pow(Base, ChecksumDigits) <= Int64Max;
    }
  }

  /** Successive checksum digits differ by exactly one factor of 216. */
  lemma ChecksumDigitsAreBase216PlaceValues(n: nat)
    requires 1 <= n < ChecksumDigits
    ensures ChecksumDigit(n).Some? && ChecksumDigit(n + 1).Some?
    ensures ChecksumDigit(n + 1).value == Base * ChecksumDigit(n).value
  {
    ChecksumDigitIsPower(n);
    ChecksumDigitIsPower(n + 1);
  }

  /** The DTI bounds are what their comments say: the maximum is 216^4 - 1,
   *  the largest value of four base-216 digits, and the minimum is 2^31;
   *  the range they span is not empty. */
  lemma DtiBounds()
    ensures DtiMax == Pow(Base, 4) - 1
    ensures DtiMin == Pow(2, 31)
    ensures ChecksumDigit(4) == Some(DtiMax + 1)
    ensures DtiMin < DtiMax
  {
    PowersOfTwo();
    ChecksumDigitIsPower(4);
  }
}
