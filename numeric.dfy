/**
 * Real-number helpers shared by the model: Python's `abs`, `min`, `max`,
 * the clamp idiom `max(lo, min(hi, x))`, `int()` truncation, and exact
 * comparisons against square roots (Dafny has no `sqrt`, so a length is
 * kept as its square and every comparison with it is decided on squares).
 */
module Numeric {

  function Abs(x: real): (r: real)
    ensures 0.0 <= r && (r == x || r == -x)
  {
    if x < 0.0 then -x else x
  }

  function Min(a: real, b: real): (r: real)
    ensures r <= a && r <= b && (r == a || r == b)
  {
    if a <= b then a else b
  }

  function Max(a: real, b: real): (r: real)
    ensures a <= r && b <= r && (r == a || r == b)
  {
    if a >= b then a else b
  }

  /** Python's `max(lo, min(hi, x))`. */
  function Clamp(lo: real, hi: real, x: real): (r: real)
    ensures lo <= hi ==> lo <= r <= hi
    ensures lo <= x <= hi ==> r == x
    ensures lo <= hi && x <= lo ==> r == lo
    ensures lo <= hi && hi <= x ==> r == hi
  {
    Max(lo, Min(hi, x))
  }

  /** Python's `int(x)` on a float: truncation toward zero. */
  function Trunc(x: real): (r: int)
    ensures Abs(r as real) <= Abs(x) < Abs(r as real) + 1.0
    ensures (0.0 <= x ==> 0 <= r) && (x <= 0.0 ==> r <= 0)
  {
    if x >= 0.0 then x.Floor else -((-x).Floor)
  }

  /** `r` is the (non-negative) square root of `s`. */
  ghost predicate IsRoot(r: real, s: real) {
    0.0 <= r && r * r == s
  }

  /** A function that returns the exact square root of every non-negative real. */
  ghost predicate IsSqrtFunction(sqrt: real -> real) {
    forall x :: 0.0 <= x ==> IsRoot(sqrt(x), x)
  }

  lemma MulNonNegative(x: real, y: real)
    requires 0.0 <= x && 0.0 <= y
    ensures 0.0 <= x * y
  {
  }

  lemma MulPositive(x: real, y: real)
    requires 0.0 < x && 0.0 < y
    ensures 0.0 < x * y
  {
  }

  lemma MulDistributes(a: real, x: real, y: real)
    ensures a * (y - x) == a * y - a * x
  {
  }

  lemma MulComplement(a: real, x: real)
    ensures (1.0 - a) * x == x - a * x
  {
  }

  /** A sum of two squares is never negative. */
  lemma SumOfSquares(dx: real, dy: real)
    ensures 0.0 <= dx * dx + dy * dy
  {
    if dx < 0.0 { MulNonNegative(-dx, -dx); } else { MulNonNegative(dx, dx); }
    if dy < 0.0 { MulNonNegative(-dy, -dy); } else { MulNonNegative(dy, dy); }
  }

  /** For non-negative reals, order agrees with the order of the squares. */
  lemma SquaresOrdered(a: real, b: real)
    requires 0.0 <= a && 0.0 <= b
    ensures a < b <==> a * a < b * b
  {
    if a < b {
      MulPositive(b - a, b);
      MulNonNegative(b - a, a);
    } else {
      MulNonNegative(a - b, a);
      MulNonNegative(a - b, b);
    }
  }

  /** `d > c * sqrt(s)`, decided without a square root. */
  predicate ExceedsScaledRoot(d: real, c: real, s: real) {
    if 0.0 <= c then 0.0 < d && c * c * s < d * d
    else 0.0 < d || (d == 0.0 && 0.0 < s) || (d < 0.0 && d * d < c * c * s)
  }

  lemma ExceedsScaledRootIff(d: real, c: real, s: real, r: real)
    requires IsRoot(r, s)
    ensures ExceedsScaledRoot(d, c, s) <==> d > c * r
  {
    var cr := c * r;
    assert c * c * s == cr * cr;
    if 0.0 <= c {
      assert 0.0 <= cr;
      if 0.0 < d {
        SquaresOrdered(cr, d);
      }
    } else {
      assert cr <= 0.0;
      if d == 0.0 {
        if r == 0.0 {
          assert s == 0.0;
        } else {
          MulPositive(r, r);
          assert 0.0 < s;
        }
        assert 0.0 < s <==> 0.0 < r;
        assert 0.0 < r <==> cr < 0.0;
      } else if d < 0.0 {
        SquaresOrdered(-d, -cr);
        assert (-d) * (-d) == d * d;
        assert (-cr) * (-cr) == cr * cr;
      }
    }
  }

  /** `sqrt(q) < c * sqrt(s)` for non-negative `q` and `s`, decided without a square root. */
  predicate RootBelowScaledRoot(q: real, c: real, s: real) {
    0.0 < c && q < c * c * s
  }

  lemma RootBelowScaledRootIff(q: real, c: real, s: real, rq: real, rs: real)
    requires IsRoot(rq, q) && IsRoot(rs, s)
    ensures RootBelowScaledRoot(q, c, s) <==> rq < c * rs
  {
    var crs := c * rs;
    assert c * c * s == crs * crs;
    if 0.0 < c {
      assert 0.0 <= crs;
      SquaresOrdered(rq, crs);
    } else {
      assert crs <= 0.0;
    }
  }
}
