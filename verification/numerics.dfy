/** Fixed-width integer ranges of the platform typedefs (int32, uint32, int64,
 *  uint64) and the integer power used by the header's constants. Dafny's `int`
 *  is unbounded; every width is spelled out here as a range. */
module Numerics {

  /** The signed 32-bit range of `int32`. */
  const Int32Min: int := -0x8000_0000
  const Int32Max: int := 0x7FFF_FFFF

  /** The signed 64-bit range of `int64`. */
  const Int64Min: int := -0x8000_0000_0000_0000
  const Int64Max: int := 0x7FFF_FFFF_FFFF_FFFF

  /** 2^32 and 2^64: one more than the largest `uint32` and `uint64`. */
  const UInt32Limit: int := 0x1_0000_0000
  const UInt64Limit: int := 0x1_0000_0000_0000_0000

  predicate InInt32(v: int) { Int32Min <= v <= Int32Max }
  predicate InInt64(v: int) { Int64Min <= v <= Int64Max }

  type int32 = v: int | Int32Min <= v <= Int32Max
  type uint32 = v: int | 0 <= v < UInt32Limit
  type uint64 = v: int | 0 <= v < UInt64Limit

  /** b raised to the n-th power. */
  function Pow(b: nat, n: nat): (r: nat)
    ensures b > 0 ==> r > 0
  {
    if n == 0 then 1 else b * Pow(b, n - 1)
  }

  /** Raising to a larger exponent never gives a smaller power (for b >= 1). */
  lemma {:induction false} PowMonotone(b: nat, m: nat, n: nat)
    requires 1 <= b && m <= n
    ensures Pow(b, m) <= Pow(b, n)
  {
    if m < n {
      PowMonotone(b, m, n - 1);
      assert Pow(b, n) == b * Pow(b, n - 1);
    }
  }

  /** Exponents add when powers of the same base multiply. */
  lemma {:induction false} PowAdd(b: nat, m: nat, n: nat)
    ensures Pow(b, m + n) == Pow(b, m) * Pow(b, n)
  {
    if n > 0 {
      PowAdd(b, m, n - 1);
      calc {
        Pow(b, m + n);
        b * Pow(b, m + n - 1);
        b * (Pow(b, m) * Pow(b, n - 1));
        Pow(b, m) * (b * Pow(b, n - 1));
        Pow(b, m) * Pow(b, n);
      }
    }
  }

  /** 2^31, 2^32 and 2^64 as powers. */
  lemma PowersOfTwo()
    ensures Pow(2, 31) == 0x8000_0000
    ensures Pow(2, 32) == UInt32Limit
    ensures Pow(2, 64) == UInt64Limit
  {
    assert Pow(2, 7) == 0x80 && Pow(2, 8) == 0x100;
    PowAdd(2, 8, 7);
    PowAdd(2, 8, 8);
    assert Pow(2, 15) == 0x8000 && Pow(2, 16) == 0x1_0000;
    PowAdd(2, 16, 15);
    PowAdd(2, 16, 16);
    assert Pow(2, 32) == UInt32Limit;
    PowAdd(2, 32, 32);
  }
}
