/**
 * Points and the arithmetic the drawing code does on them.
 *
 * Coordinates are `real`: the pointer position reaches the shapes floored to
 * integers, but halving a width or projecting onto a line produces fractions.
 * Every `Math.sqrt` comparison of the source becomes a comparison of squared
 * distances; `RootBelow` and `RootAtMost` show that the two agree.
 */
module Geometry {
  datatype Point = Point(x: real, y: real)

  function Min(a: real, b: real): real { if a <= b then a else b }

  function Max(a: real, b: real): real { if a >= b then a else b }

  function Abs(a: real): real { if a < 0.0 then -a else a }

  function Sq(a: real): (r: real)
    ensures r >= 0.0
  {
    a * a
  }

  /** The square of the Euclidean distance between two points. */
  function SqDist(p: Point, q: Point): (r: real)
    ensures r >= 0.0
  {
    Sq(p.x - q.x) + Sq(p.y - q.y)
  }

  /** `v` lies between `a` and `b`, whichever of the two is smaller. */
  predicate Between(v: real, a: real, b: real) {
    a <= v <= b || b <= v <= a
  }

  /** The integer square root: the largest `r` with `r * r <= n`. */
  function IntSqrt(n: nat): (r: nat)
    ensures r * r <= n < (r + 1) * (r + 1)
  {
    if n == 0 then 0
    else
      var s := IntSqrt(n - 1);
      if (s + 1) * (s + 1) <= n then
        assert n <= (s + 1) * (s + 1);
        assert (s + 1) * (s + 1) < (s + 2) * (s + 2);
        s + 1
      else s
  }

  /** `r` is a whole number whose square is at most `d` and the square of its successor exceeds `d`. */
  predicate IsFloorRoot(r: real, d: real) {
    0.0 <= r && r.Floor as real == r && r * r <= d < (r + 1.0) * (r + 1.0)
  }

  /** `Math.floor(Math.sqrt(d))` for a non-negative `d`. */
  function FloorSqrt(d: real): (r: real)
    requires d >= 0.0
    ensures IsFloorRoot(r, d)
  {
    var n := d.Floor;
    var k := IntSqrt(n);
    CastProduct(k, k);
    CastProduct(k + 1, k + 1);
    assert (k * k) as real <= n as real <= d;
    assert d < (n + 1) as real <= ((k + 1) * (k + 1)) as real;
    k as real
  }

  lemma CastProduct(a: int, b: int)
    ensures (a * b) as real == (a as real) * (b as real)
  {
  }

  /** Comparing a square root with `<` is comparing its square, provided the bound is positive. */
  lemma RootBelow(d: real, s: real, bound: real)
    requires s >= 0.0 && s * s == d
    ensures s < bound <==> 0.0 < bound && d < bound * bound
  {
    if s < bound {
      assert s * (bound - s) >= 0.0 && bound * (bound - s) > 0.0;
      calc {
        d;
        == s * s;
        <= s * bound;
        < bound * bound;
      }
    } else if 0.0 < bound {
      assert bound * (s - bound) >= 0.0 && s * (s - bound) >= 0.0;
      calc {
        bound * bound;
        <= bound * s;
        <= s * s;
        == d;
      }
    }
  }

  /** Comparing a square root with `<=` is comparing its square, for a non-negative bound. */
  lemma RootAtMost(d: real, s: real, bound: real)
    requires s >= 0.0 && s * s == d && bound >= 0.0
    ensures s <= bound <==> d <= bound * bound
  {
    if s <= bound {
      assert s * (bound - s) >= 0.0 && bound * (bound - s) >= 0.0;
      calc {
        d;
        == s * s;
        <= s * bound;
        <= bound * bound;
      }
    } else {
      assert bound * (s - bound) >= 0.0 && s * (s - bound) > 0.0;
      calc {
        bound * bound;
        <= bound * s;
        < s * s;
        == d;
      }
    }
  }
}
