/** CmXY<int32>, the pair behind CmSize, CmPoint and CmRange: two int32
 *  fields read through ten accessor names, copied by a guarded assignment,
 *  added component-wise into a new pair or in place. */
module CoordinatePairs {
  import opened Numerics

  /** The value held by a pair: its two fields, first (x) and second (y). */
  datatype XYValue = XYValue(x: int32, y: int32)

  /** The value of a default-constructed pair. */
  const Origin: XYValue := XYValue(0, 0)

  /** A double whose conversion to int32 is defined: its truncation fits. */
  predicate ConvertibleToInt32(d: real)
  {
    Int32Min as real - 1.0 < d < Int32Max as real + 1.0
  }

  /** The conversion `(int32)d` of a double: truncation toward zero. */
  function TruncateToInt32(d: real): (r: int32)
    requires ConvertibleToInt32(d)
    ensures 0.0 <= d ==> r as real <= d < r as real + 1.0
    ensures d < 0.0 ==> r as real - 1.0 < d <= r as real
  {
    if d >= 0.0 then d.Floor else -((-d).Floor)
  }

  /** Both sums of `a + t` stay inside int32. */
  predicate SumDefined(a: XYValue, t: XYValue)
  {
    InInt32(a.x + t.x) && InInt32(a.y + t.y)
  }

  /** The value of `a + t`, and of `a` after `a += t`. */
  function Sum(a: XYValue, t: XYValue): XYValue
    requires SumDefined(a, t)
  {
    XYValue(a.x + t.x, a.y + t.y)
  }

  /** An int32 value that a float holds exactly: |v| <= 2^24. */
  predicate FloatExact(v: int)
  {
    -0x100_0000 <= v <= 0x100_0000
  }

  /** `v += s` for an integer-valued scalar s: no float rounding happens when
   *  the operands and both results are exact in single precision. */
  predicate ScalarAddExact(v: XYValue, s: int)
  {
    FloatExact(s) && FloatExact(v.x) && FloatExact(v.y)
    && FloatExact(v.x + s) && FloatExact(v.y + s)
  }

  /** The value of `v += s` within ScalarAddExact. */
  function AddScalar(v: XYValue, s: int): XYValue
    requires ScalarAddExact(v, s)
  {
    XYValue(v.x + s, v.y + s)
  }

  /** A CmXY<int32> object: its fields are overwritten in place by the
   *  assignment and the two compound additions. */
  class CmXY {
    var x: int32
    var y: int32

    /** The value of this pair. */
    function Value(): XYValue
      reads this
    {
      XYValue(x, y)
    }

    /** `CmXY()`: both fields zero. */
    constructor ()
      ensures Value() == Origin
    {
      x, y := 0, 0;
    }

    /** `CmXY(T const& x, T const& y)`: stores both arguments unchanged. */
    constructor FromValues(x0: int32, y0: int32)
      ensures Value() == XYValue(x0, y0)
    {
      x, y := x0, y0;
    }

    /** `CmXY(double const& x, double const& y)`: stores each argument
     *  converted to int32. */
    constructor FromDoubles(dx: real, dy: real)
      requires ConvertibleToInt32(dx) && ConvertibleToInt32(dy)
      ensures Value() == XYValue(TruncateToInt32(dx), TruncateToInt32(dy))
    {
      x, y := TruncateToInt32(dx), TruncateToInt32(dy);
    }

    // The const accessors x() and y(), and three more names for each of the
    // two fields: w, P1 and begin for the first, h, P2 and end for the second.
    function X(): (r: int32) reads this ensures r == Value().x { x }
    function Y(): (r: int32) reads this ensures r == Value().y { y }
    function W(): (r: int32) reads this ensures r == X() { x }
    function H(): (r: int32) reads this ensures r == Y() { y }
    function P1(): (r: int32) reads this ensures r == X() { x }
    function P2(): (r: int32) reads this ensures r == Y() { y }
    function Begin(): (r: int32) reads this ensures r == X() { x }
    function End(): (r: int32) reads this ensures r == Y() { y }

    /** A write through the reference returned by the non-const `x()`. */
    method SetX(v: int32)
      modifies this
      ensures Value() == XYValue(v, old(y))
    {
      x := v;
    }

    /** A write through the reference returned by the non-const `y()`. */
    method SetY(v: int32)
      modifies this
      ensures Value() == XYValue(old(x), v)
    {
      y := v;
    }

    /** `operator=`: copies both fields of t unless t is this object. */
    method Assign(t: CmXY)
      modifies this
      ensures Value() == old(t.Value())
      ensures t == this ==> Value() == old(Value())
      ensures t.Value() == old(t.Value())
    {
      if this != t {
        x := t.x;
        y := t.y;
      }
    }

    /** `operator+`: a new pair holding the component-wise sum; neither
     *  operand changes. */
    method Plus(t: CmXY) returns (sum: CmXY)
      requires SumDefined(Value(), t.Value())
      ensures fresh(sum)
      ensures sum.Value() == Sum(Value(), t.Value())
      ensures unchanged(this) && unchanged(t)
    {
      sum := new CmXY();
      sum.SetX(x + t.x);
      sum.SetY(y + t.y);
    }

    /** `operator+=(CmXY const& t)`: adds t in place, also when t is this
     *  object; any other t is left as it was. */
    method AddAssign(t: CmXY)
      requires SumDefined(Value(), t.Value())
      modifies this
      ensures Value() == Sum(old(Value()), old(t.Value()))
      ensures t != this ==> unchanged(t)
    {
      x := x + t.x;
      y := y + t.y;
    }

    /** `operator+=(float s)` for an integer-valued s that the float
     *  arithmetic carries exactly. */
    method AddScalarAssign(s: int)
      requires ScalarAddExact(Value(), s)
      modifies this
      ensures Value() == AddScalar(old(Value()), s)
    {
      x := x + s;
      y := y + s;
    }
  }

  /** The ten accessor names read the same two fields: w, P1 and begin are
   *  x; h, P2 and end are y. */
  lemma AccessorsAlias(p: CmXY)
    ensures p.W() == p.X() && p.P1() == p.X() && p.Begin() == p.X()
    ensures p.H() == p.Y() && p.P2() == p.Y() && p.End() == p.Y()
    ensures p.Value() == XYValue(p.X(), p.Y())
  {
  }

  /** Addition of pairs is commutative. */
  lemma SumCommutes(a: XYValue, t: XYValue)
    requires SumDefined(a, t)
    ensures SumDefined(t, a) && Sum(a, t) == Sum(t, a)
  {
  }

  /** The default pair is the neutral element of addition. */
  lemma SumOriginNeutral(a: XYValue)
    ensures SumDefined(a, Origin) && Sum(a, Origin) == a
  {
  }

  /** No cross-coupling: each component of a sum depends only on the matching
   *  components of the operands. */
  lemma SumNoCrossCoupling(a: XYValue, t: XYValue, b: XYValue, u: XYValue)
    requires SumDefined(a, t) && SumDefined(b, u)
    ensures a.x == b.x && t.x == u.x ==> Sum(a, t).x == Sum(b, u).x
    ensures a.y == b.y && t.y == u.y ==> Sum(a, t).y == Sum(b, u).y
  {
  }

  /** Adding the same pair is cancellable: different pairs give different
   *  sums. */
  lemma SumCancels(a: XYValue, b: XYValue, t: XYValue)
    requires SumDefined(a, t) && SumDefined(b, t)
    ensures Sum(a, t) == Sum(b, t) <==> a == b
  {
  }

  /** Adding a scalar is adding the pair that holds the scalar twice. */
  lemma AddScalarIsUniformSum(v: XYValue, s: int)
    requires ScalarAddExact(v, s)
    ensures InInt32(s) && SumDefined(v, XYValue(s, s))
    ensures AddScalar(v, s) == Sum(v, XYValue(s, s))
  {
  }

  /** Adding -s after s gives back the original pair. */
  lemma AddScalarUndone(v: XYValue, s: int)
    requires ScalarAddExact(v, s)
    ensures ScalarAddExact(AddScalar(v, s), -s)
    ensures AddScalar(AddScalar(v, s), -s) == v
  {
  }

  /** Truncation is the only integer within distance 1 of d on the side of
   *  zero: any n with that property is TruncateToInt32(d). */
  lemma TruncationIsUnique(d: real, n: int)
    requires ConvertibleToInt32(d)
    requires 0.0 <= d ==> n as real <= d < n as real + 1.0
    requires d < 0.0 ==> n as real - 1.0 < d <= n as real
    ensures n == TruncateToInt32(d)
  {
  }

  /** Truncation moves toward zero: it never increases the magnitude and
   *  never changes the sign. */
  lemma TruncationTowardZero(d: real)
    requires ConvertibleToInt32(d)
    ensures var r := TruncateToInt32(d) as real;
      (0.0 <= d ==> 0.0 <= r <= d) && (d <= 0.0 ==> d <= r <= 0.0)
  {
  }

  /** A double holding an int32 value converts back to that value. */
  lemma TruncationOfIntegral(n: int32)
    ensures ConvertibleToInt32(n as real) && TruncateToInt32(n as real) == n
  {
  }

  /** The doubles (3.7, -2.2) give the pair (3, -2). */
  lemma TruncationExample()
    ensures ConvertibleToInt32(3.7) && ConvertibleToInt32(-2.2)
    ensures XYValue(TruncateToInt32(3.7), TruncateToInt32(-2.2)) == XYValue(3, -2)
  {
  }

  /** A client of CmXY: what the contracts let a caller conclude. */
  method UseSizes()
  {
    var a := new CmXY.FromDoubles(3.7, -2.2);
    TruncationExample();
    assert a.W() == 3 && a.H() == -2;
    var b := new CmXY.FromValues(10, 20);
    var c := a.Plus(b);
    assert c.Value() == XYValue(13, 18) && a.Value() == XYValue(3, -2);
    a.AddAssign(b);
    assert a.Value() == c.Value() && b.Value() == XYValue(10, 20);
    a.AddAssign(a);
    assert a.Begin() == 26 && a.End() == 36;
    a.Assign(a);
    assert a.Value() == XYValue(26, 36);
    a.Assign(b);
    assert a.Value() == XYValue(10, 20) && b.P1() == 10;
    a.AddScalarAssign(-5);
    assert a.Value() == XYValue(5, 15);
  }
}
