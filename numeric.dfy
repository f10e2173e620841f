/** The two integer conversions the engine applies to real-valued quantities. */
module Numeric {

  /** Python's `int(x)` on a float: truncation toward zero. */
  function Trunc(x: real): (r: int)
    ensures 0.0 <= x ==> 0 <= r && r as real <= x < r as real + 1.0
    ensures x < 0.0 ==> r <= 0 && r as real - 1.0 < x <= r as real
  {
    if x >= 0.0 then x.Floor else -((-x).Floor)
  }

  function Max(a: int, b: int): (r: int)
    ensures r >= a && r >= b && (r == a || r == b)
  {
    if a >= b then a else b
  }

  /** Multiplying by a non-negative factor keeps the order. */
  lemma MulMonotone(a: real, b: real, c: real)
    requires a <= b && c >= 0.0
    ensures a * c <= b * c && c * a <= c * b
  {
    assert b * c - a * c == (b - a) * c;
  }

  /** A non-negative amount scaled by a fraction stays between 0 and the amount; by a non-positive factor, at most 0. */
  lemma ScaleBounds(p: real, f: real)
    requires p >= 0.0
    ensures 0.0 <= f ==> 0.0 <= p * f
    ensures f <= 1.0 ==> p * f <= p
    ensures f <= 0.0 ==> p * f <= 0.0
  {
    if f >= 0.0 {
      MulMonotone(0.0, f, p);
    }
    if f <= 1.0 {
      MulMonotone(f, 1.0, p);
    }
    if f <= 0.0 {
      MulMonotone(f, 0.0, p);
    }
  }

  /**
   * Python's `a // c` for a positive divisor: the largest q with q * c <= a;
   * it is at least 1 exactly when a >= c.
   */
  lemma FloorDivision(a: int, c: int)
    requires c > 0
    ensures (a / c) * c <= a < (a / c) * c + c
    ensures a / c >= 1 <==> a >= c
  {
    var q, m := a / c, a % c;
    assert a == q * c + m && 0 <= m < c;
    if q >= 1 {
      assert q * c == (q - 1) * c + c;
      assert (q - 1) * c >= 0;
    }
  }
}
