/** The LO64 and HI64 macros, which split a 64-bit value into its low and
 *  high 32-bit halves with a mask, a right shift and a cast to `uint32`.
 *  Bitwise AND and the right shift are defined bit by bit on naturals, and
 *  their arithmetic meaning (remainder and quotient by 2^32) is proved. */
module Split64 {
  import opened Numerics

  /** The mask 0xFFFFFFFF of LO64. */
  const LowMask: nat := 0xFFFF_FFFF

  /** Bitwise AND of two non-negative integers, least significant bit first. */
  function BitAnd(a: nat, b: nat): (r: nat)
    ensures r <= a && r <= b
  {
    if a == 0 || b == 0 then 0
    else 2 * BitAnd(a / 2, b / 2) + (if a % 2 == 1 && b % 2 == 1 then 1 else 0)
  }

  /** Logical right shift of a non-negative integer by k bits. */
  function ShiftRight(a: nat, k: nat): (r: nat)
    ensures r <= a
    ensures 0 < k && 0 < a ==> r < a
  {
    if k == 0 then a else ShiftRight(a / 2, k - 1)
  }

  /** The cast `(uint32)` of a non-negative value: only the low 32 bits survive. */
  function ToUInt32(a: nat): (r: uint32)
    ensures (a - r) % UInt32Limit == 0
    ensures a < UInt32Limit ==> r == a
  {
    a % UInt32Limit
  }

  /** LO64(x): `(uint32)(x & 0xFFFFFFFF)`, the low 32 bits of x. */
  function Lo64(x: uint64): (r: uint32)
    ensures r == x % UInt32Limit
  {
    PowersOfTwo();
    MaskIsRemainder(x, 32);
    ToUInt32(BitAnd(x, LowMask))
  }

  /** HI64(x): `(uint32)(x >> 32)`, the high 32 bits of x. */
  function Hi64(x: uint64): (r: uint32)
    ensures r == x / UInt32Limit
  {
    PowersOfTwo();
    ShiftIsQuotient(x, 32);
    ToUInt32(ShiftRight(x, 32))
  }

  /** Euclidean division is determined by any decomposition a == d * q + r
   *  with 0 <= r < d. */
  lemma DivModUnique(a: int, d: int, q: int, r: int)
    requires 0 < d && 0 <= r < d && a == d * q + r
    ensures a / d == q && a % d == r
  {
    var q', r' := a / d, a % d;
    assert a == d * q' + r';
    assert d * (q - q') == r' - r by {
      assert d * (q - q') == d * q - d * q';
    }
    if q' < q {
      MultipleAtLeast(d, q - q');
    } else if q < q' {
      MultipleAtLeast(d, q' - q);
    }
  }

  /** A positive multiple of d is at least d. */
  lemma MultipleAtLeast(d: int, n: int)
    requires 0 < d && 1 <= n
    ensures d * n >= d
  {
    assert d * n == d * (n - 1) + d;
    assert d * (n - 1) >= 0;
  }

  /** Halving first and then dividing by p is dividing by 2p; the remainder
   *  by 2p is rebuilt from the two smaller remainders. */
  lemma HalveDivMod(a: nat, p: nat)
    requires p > 0
    ensures (a / 2) / p == a / (2 * p)
    ensures a % (2 * p) == 2 * ((a / 2) % p) + a % 2
  {
    var h, t, s := a / 2, (a / 2) / p, (a / 2) % p;
    assert a == 2 * h + a % 2;
    assert h == p * t + s;
    assert a == (2 * p) * t + (2 * s + a % 2);
    DivModUnique(a, 2 * p, t, 2 * s + a % 2);
  }

  /** A mask of k > 0 one-bits is odd, and halving it leaves k - 1 one-bits. */
  lemma MaskHalves(k: nat)
    requires k > 0
    ensures Pow(2, k) - 1 > 0 && (Pow(2, k) - 1) % 2 == 1
    ensures (Pow(2, k) - 1) / 2 == Pow(2, k - 1) - 1
  {
    var p := Pow(2, k - 1);
    DivModUnique(Pow(2, k) - 1, 2, p - 1, 1);
  }

  /** Masking with k one-bits keeps the remainder by 2^k. */
  lemma {:induction false} MaskIsRemainder(a: nat, k: nat)
    ensures BitAnd(a, Pow(2, k) - 1) == a % Pow(2, k)
  {
    if k == 0 {
      assert Pow(2, k) - 1 == 0;
    } else if a > 0 {
      var p, m := Pow(2, k - 1), Pow(2, k) - 1;
      assert Pow(2, k) == 2 * p;
      MaskHalves(k);
      assert BitAnd(a, m) == 2 * BitAnd(a / 2, p - 1) + a % 2;
      MaskIsRemainder(a / 2, k - 1);
      assert BitAnd(a / 2, p - 1) == (a / 2) % p;
      HalveDivMod(a, p);
      assert a % (2 * p) == 2 * ((a / 2) % p) + a % 2;
      assert BitAnd(a, m) == a % (2 * p);
    } else {
      assert Pow(2, k) > 0;
    }
  }

  /** Shifting right by k bits is dividing by 2^k. */
  lemma {:induction false} ShiftIsQuotient(a: nat, k: nat)
    ensures ShiftRight(a, k) == a / Pow(2, k)
  {
    if k > 0 {
      ShiftIsQuotient(a / 2, k - 1);
      HalveDivMod(a, Pow(2, k - 1));
    }
  }

  /** Neither cast to `uint32` loses a bit: both halves already fit. */
  lemma CastsAreLossless(x: uint64)
    ensures BitAnd(x, LowMask) < UInt32Limit
    ensures ShiftRight(x, 32) < UInt32Limit
  {
    PowersOfTwo();
    MaskIsRemainder(x, 32);
    ShiftIsQuotient(x, 32);
    PowAdd(2, 32, 32);
  }

  /** The two halves put back together give the original value. */
  lemma Recombine(x: uint64)
    ensures Hi64(x) * UInt32Limit + Lo64(x) == x
  {
  }

  /** Every pair of halves is the split of exactly one 64-bit value: splitting
   *  hi * 2^32 + lo gives back hi and lo. */
  lemma SplitOfJoin(hi: uint32, lo: uint32)
    ensures 0 <= hi * UInt32Limit + lo < UInt64Limit
    ensures Hi64(hi * UInt32Limit + lo) == hi
    ensures Lo64(hi * UInt32Limit + lo) == lo
  {
    assert hi * UInt32Limit <= (UInt32Limit - 1) * UInt32Limit;
    DivModUnique(hi * UInt32Limit + lo, UInt32Limit, hi, lo);
  }
}
