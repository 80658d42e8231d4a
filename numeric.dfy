/** Numeric helpers of the sun sweep script: Python's int() truncation,
    clamp and lerp over exact reals, and the small arithmetic facts that the
    curve proofs rest on. */
module Numeric {

  function Abs(x: real): real {
    if x < 0.0 then -x else x
  }

  /** Python's int() applied to a float: truncation toward zero. */
  function Trunc(x: real): (n: int)
    ensures 0.0 <= x ==> n as real <= x < n as real + 1.0
    ensures x < 0.0 ==> n as real - 1.0 < x <= n as real
  {
    if x >= 0.0 then x.Floor else -((-x).Floor)
  }

  lemma TruncMonotone(x: real, y: real)
    requires x <= y
    ensures Trunc(x) <= Trunc(y)
  {
  }

  /** clamp(v, a, b) = max(a, min(b, v)); with a > b this yields a. */
  function Clamp(v: real, lo: real, hi: real): (r: real)
    ensures r == v || r == lo || r == hi
    ensures lo <= hi ==> lo <= r <= hi
    ensures lo <= v <= hi ==> r == v
    ensures v < lo ==> r == lo
    ensures lo <= hi < v ==> r == hi
    ensures hi < lo ==> r == lo
  {
    var m := if v < hi then v else hi;
    if lo < m then m else lo
  }

  /** The same clamp applied to Python ints, whose result is again an int. */
  function ClampInt(v: int, lo: int, hi: int): (r: int)
    ensures lo <= hi ==> lo <= r <= hi
    ensures lo <= v <= hi ==> r == v
  {
    var m := if v < hi then v else hi;
    if lo < m then m else lo
  }

  /** On ints, ClampInt is the real-valued clamp. */
  lemma ClampIntIsClamp(v: int, lo: int, hi: int)
    ensures ClampInt(v, lo, hi) as real == Clamp(v as real, lo as real, hi as real)
  {
  }

  lemma ClampIntMonotone(v: int, w: int, lo: int, hi: int)
    requires v <= w
    ensures ClampInt(v, lo, hi) <= ClampInt(w, lo, hi)
  {
  }

  /** Linear interpolation from a (at t = 0) to b (at t = 1). */
  function Lerp(a: real, b: real, t: real): (r: real)
    ensures t == 0.0 ==> r == a
    ensures t == 1.0 ==> r == b
    ensures 0.0 <= t <= 1.0 && a <= b ==> a <= r <= b
    ensures 0.0 <= t <= 1.0 && b <= a ==> b <= r <= a
  {
    FractionOf(b - a, t);
    a + (b - a) * t
  }

  // Arithmetic facts about products and quotients, used by the envelope proofs.

  lemma MulMonotone(a: real, b: real, m: real)
    requires a <= b && 0.0 <= m
    ensures a * m <= b * m
  {
  }

  /** A fraction t in [0, 1] of d lies between 0 and d. */
  lemma FractionOf(d: real, t: real)
    ensures t == 0.0 ==> d * t == 0.0
    ensures t == 1.0 ==> d * t == d
    ensures 0.0 <= t <= 1.0 && 0.0 <= d ==> 0.0 <= d * t <= d
    ensures 0.0 <= t <= 1.0 && d <= 0.0 ==> d <= d * t <= 0.0
  {
    if 0.0 <= t <= 1.0 {
      if 0.0 <= d {
        MulMonotone(0.0, t, d);
        MulMonotone(t, 1.0, d);
      } else {
        MulMonotone(0.0, t, -d);
        MulMonotone(t, 1.0, -d);
      }
    }
  }

  lemma CubeMonotone(a: real, b: real)
    requires 0.0 <= a <= b
    ensures a * a * a <= b * b * b
  {
    MulMonotone(a, b, a);
    MulMonotone(a, b, b);
    assert a * a <= b * b;
    MulMonotone(a * a, b * b, a);
    MulMonotone(a, b, b * b);
  }

  lemma CubeBelowOne(d: real)
    requires 0.0 <= d < 1.0
    ensures 0.0 <= d * d * d < 1.0
    ensures d * d * d == 0.0 <==> d == 0.0
  {
    MulMonotone(d, 1.0, d);
    MulMonotone(d * d, 1.0, d);
    assert d * d * d <= d * d <= d;
    if d != 0.0 {
      assert d * d > 0.0;
      assert d * d * d > 0.0;
    }
  }

  lemma AbsQuotient(a: real, w: real)
    requires w != 0.0
    ensures Abs(a / w) == Abs(a) / Abs(w)
  {
    if w < 0.0 {
      assert a / w == (-a) / (-w);
    }
  }

  lemma QuotientAtLeastOne(a: real, w: real)
    requires 0.0 <= a && 0.0 < w
    ensures a / w >= 1.0 <==> a >= w
  {
    assert (a / w) * w == a;
    if a / w >= 1.0 {
      MulMonotone(1.0, a / w, w);
    } else {
      MulMonotone(a / w, 1.0, w);
    }
  }

  lemma QuotientMonotone(a: real, b: real, w: real)
    requires a <= b && 0.0 < w
    ensures a / w <= b / w
  {
    assert (b - a) / w >= 0.0;
    assert b / w - a / w == (b - a) / w;
  }

  lemma QuotientAntitone(a: real, w1: real, w2: real)
    requires 0.0 <= a && 0.0 < w1 <= w2
    ensures a / w2 <= a / w1
  {
    assert (a / w1) * w1 == a;
    assert (a / w2) * w2 == a;
    if a / w2 > a / w1 {
      MulMonotone(a / w1, a / w2, w1);
      MulMonotone(w1, w2, a / w2);
      assert false;
    }
  }
}
