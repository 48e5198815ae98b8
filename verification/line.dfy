/**
 * The line (Line.ts): endpoints `(x, y)` and `(x2, y2)`.
 */
module Lines {
  import opened Geometry
  import opened Handles
  import opened Wire

  /** The selection tolerance, in model units: 10, squared. */
  const ToleranceSq: real := 100.0

  function Start(p: Props): Point
    requires p.LineProps?
  {
    Point(p.x, p.y)
  }

  function End(p: Props): Point
    requires p.LineProps?
  {
    Point(p.x2, p.y2)
  }

  function Midpoint(p: Props): Point
    requires p.LineProps?
  {
    Point((p.x + p.x2) / 2.0, (p.y + p.y2) / 2.0)
  }

  /** The squared length `|ab|^2`. */
  function LengthSq(p: Props): real
    requires p.LineProps?
  {
    SqDist(End(p), Start(p))
  }

  /** The point `a + s * (b - a)` of the line through the endpoints. */
  function At(p: Props, s: real): Point
    requires p.LineProps?
  {
    Point(p.x + (p.x2 - p.x) * s, p.y + (p.y2 - p.y) * s)
  }

  /** `ab . ac`, where `c` is the queried point. */
  function Dot(p: Props, pos: Point): real
    requires p.LineProps?
  {
    (p.x2 - p.x) * (pos.x - p.x) + (p.y2 - p.y) * (pos.y - p.y)
  }

  /** The projection parameter clamped to [0, 1]. */
  function Param(p: Props, pos: Point): (t: real)
    requires p.LineProps? && LengthSq(p) != 0.0
    ensures 0.0 <= t <= 1.0
  {
    Max(0.0, Min(1.0, Dot(p, pos) / LengthSq(p)))
  }

  /**
   * `isSelected`: the distance from `pos` to the closest point of the segment
   * is at most 10. For coincident endpoints the source divides zero by zero;
   * the NaN that results fails the comparison, so such a line is never selected.
   */
  predicate Hit(p: Props, pos: Point)
    requires p.LineProps?
  {
    LengthSq(p) != 0.0 && SqDist(pos, At(p, Param(p, pos))) <= ToleranceSq
  }

  /** The part of the squared distance to `At(p, s)` that depends on `s`. */
  function Quad(len: real, d: real, s: real): real {
    s * s * len - 2.0 * s * d
  }

  /** The squared distance from `pos` to `At(p, s)`, as a quadratic in `s`. */
  lemma Expand(p: Props, pos: Point, s: real)
    requires p.LineProps?
    ensures SqDist(pos, At(p, s)) == SqDist(pos, Start(p)) + Quad(LengthSq(p), Dot(p, pos), s)
  {
    DistanceToAt(p, pos, s);
    ExpandCoordinates(p.x, p.y, p.x2, p.y2, pos.x, pos.y, s);
    LengthSqCoordinates(p);
    DistanceToStart(p, pos);
  }

  /** The offset from `At(p, s)` to `pos` is `(pos - a) - s (b - a)`. */
  lemma DistanceToAt(p: Props, pos: Point, s: real)
    requires p.LineProps?
    ensures SqDist(pos, At(p, s)) == Sq((pos.x - p.x) - (p.x2 - p.x) * s) + Sq((pos.y - p.y) - (p.y2 - p.y) * s)
  {
    var q := At(p, s);
    assert pos.x - q.x == (pos.x - p.x) - (p.x2 - p.x) * s;
    assert pos.y - q.y == (pos.y - p.y) - (p.y2 - p.y) * s;
  }

  lemma DistanceToStart(p: Props, pos: Point)
    requires p.LineProps?
    ensures SqDist(pos, Start(p)) == Sq(pos.x - p.x) + Sq(pos.y - p.y)
    ensures Dot(p, pos) == (p.x2 - p.x) * (pos.x - p.x) + (p.y2 - p.y) * (pos.y - p.y)
  {
  }

  lemma LengthSqCoordinates(p: Props)
    requires p.LineProps?
    ensures LengthSq(p) == Sq(p.x2 - p.x) + Sq(p.y2 - p.y)
  {
  }

  /**
   * `|c - (a + s (b - a))|^2 = |c - a|^2 + Quad(|b - a|^2, (b - a) . (c - a), s)`,
   * for `a = (x1, y1)`, `b = (x2, y2)` and `c = (cx, cy)`.
   */
  lemma {:induction false} ExpandCoordinates(x1: real, y1: real, x2: real, y2: real, cx: real, cy: real, s: real)
    ensures Sq((cx - x1) - (x2 - x1) * s) + Sq((cy - y1) - (y2 - y1) * s)
         == Sq(cx - x1) + Sq(cy - y1) + Quad(Sq(x2 - x1) + Sq(y2 - y1), (x2 - x1) * (cx - x1) + (y2 - y1) * (cy - y1), s)
  {
    var ux, uy, vx, vy := x2 - x1, y2 - y1, cx - x1, cy - y1;
    calc {
      Sq(vx - ux * s) + Sq(vy - uy * s);
    == { SquareExpand(vx, ux, s); SquareExpand(vy, uy, s); }
      (vx * vx + vy * vy) + ((s * s * (ux * ux) + s * s * (uy * uy)) - (2.0 * s * (ux * vx) + 2.0 * s * (uy * vy)));
    == { Distribute(s * s, ux * ux, uy * uy); Distribute(2.0 * s, ux * vx, uy * vy); }
      (vx * vx + vy * vy) + (s * s * (ux * ux + uy * uy) - 2.0 * s * (ux * vx + uy * vy));
    }
  }

  /** `(v - u s)^2 = v^2 - 2 s (u v) + s^2 u^2`. */
  lemma SquareExpand(v: real, u: real, s: real)
    ensures Sq(v - u * s) == v * v - 2.0 * s * (u * v) + s * s * (u * u)
  {
  }

  lemma Distribute(c: real, a: real, b: real)
    ensures c * (a + b) == c * a + c * b
  {
  }

  /** The quadratic `s*s*len - 2*s*d` over [0, 1] is smallest at the clamped vertex `d / len`. */
  lemma QuadraticMin(len: real, d: real, t: real, s: real)
    requires len > 0.0 && 0.0 <= s <= 1.0 && t == Max(0.0, Min(1.0, d / len))
    ensures Quad(len, d, t) <= Quad(len, d, s)
  {
    var q := d / len;
    assert d == q * len;
    if q < 0.0 {
      VertexLeft(len, d, s);
    } else if q > 1.0 {
      VertexRight(len, d, s);
    } else {
      VertexInside(len, q, s);
    }
  }

  lemma VertexLeft(len: real, d: real, s: real)
    requires len > 0.0 && 0.0 <= s <= 1.0 && d < 0.0
    ensures 0.0 <= s * s * len - 2.0 * s * d
  {
    assert s * (s * len - 2.0 * d) >= 0.0;
  }

  lemma VertexRight(len: real, d: real, s: real)
    requires len > 0.0 && 0.0 <= s <= 1.0 && d > len
    ensures len - 2.0 * d <= s * s * len - 2.0 * s * d
  {
    assert len * (s + 1.0) - 2.0 * d < 0.0;
    assert (1.0 - s) * (2.0 * d - len * (s + 1.0)) >= 0.0;
  }

  lemma VertexInside(len: real, t: real, s: real)
    requires len > 0.0 && 0.0 <= s <= 1.0 && 0.0 <= t <= 1.0
    ensures t * t * len - 2.0 * t * (t * len) <= s * s * len - 2.0 * s * (t * len)
  {
    var e := (s - t) * (s - t);
    assert e >= 0.0;
    assert len * e >= 0.0;
    calc {
      (s * s * len - 2.0 * s * (t * len)) - (t * t * len - 2.0 * t * (t * len));
      == len * e;
    }
  }

  /** The clamped projection gives the point of the segment nearest to `pos`. */
  lemma Nearest(p: Props, pos: Point, s: real)
    requires p.LineProps? && LengthSq(p) != 0.0 && 0.0 <= s <= 1.0
    ensures SqDist(pos, At(p, Param(p, pos))) <= SqDist(pos, At(p, s))
  {
    var t, len, d := Param(p, pos), LengthSq(p), Dot(p, pos);
    assert t == Max(0.0, Min(1.0, d / len));
    Expand(p, pos, s);
    Expand(p, pos, t);
    QuadraticMin(len, d, t, s);
  }

  /**
   * A line is selected iff its endpoints differ and some point of the segment
   * lies within the tolerance of `pos`.
   */
  lemma HitIffNearSegment(p: Props, pos: Point)
    requires p.LineProps?
    ensures Hit(p, pos) <==>
              LengthSq(p) != 0.0 &&
              exists s :: 0.0 <= s <= 1.0 && SqDist(pos, At(p, s)) <= ToleranceSq
  {
    if LengthSq(p) != 0.0 {
      if exists s :: 0.0 <= s <= 1.0 && SqDist(pos, At(p, s)) <= ToleranceSq {
        var s :| 0.0 <= s <= 1.0 && SqDist(pos, At(p, s)) <= ToleranceSq;
        Nearest(p, pos, s);
      }
      if Hit(p, pos) {
        var t := Param(p, pos);
        assert 0.0 <= t <= 1.0 && SqDist(pos, At(p, t)) <= ToleranceSq;
      }
    }
  }

  /** Every point of a non-degenerate segment, the endpoints included, is selected. */
  lemma SegmentPointsHit(p: Props, s: real)
    requires p.LineProps? && LengthSq(p) != 0.0 && 0.0 <= s <= 1.0
    ensures Hit(p, At(p, s))
  {
    var pos := At(p, s);
    assert SqDist(pos, pos) == 0.0;
    HitIffNearSegment(p, pos);
  }

  /** The move handle sits at the midpoint of the segment, so a press on its centre selects the line. */
  lemma MoveHandleSelects(p: Props)
    requires p.LineProps? && LengthSq(p) != 0.0
    ensures var h := Layout(p)[0]; Hit(p, Point(h.x, h.y))
  {
    SegmentPointsHit(p, 0.5);
    assert At(p, 0.5) == Point(Layout(p)[0].x, Layout(p)[0].y);
  }

  /** The unstyled horizontal segment from (0, 0) to (100, 0) is selected 9 units away but not 20 units away. */
  lemma HitExample()
    ensures Hit(LineProps(0.0, 0.0, 100.0, 0.0, NoConfig), Point(50.0, 9.0))
    ensures !Hit(LineProps(0.0, 0.0, 100.0, 0.0, NoConfig), Point(50.0, 20.0))
  {
    var p := LineProps(0.0, 0.0, 100.0, 0.0, NoConfig);
    assert LengthSq(p) == 10000.0;
    assert Param(p, Point(50.0, 9.0)) == 0.5;
    assert Param(p, Point(50.0, 20.0)) == 0.5;
  }

  /** Drawing with no active handle: the line runs from the drag's start to the cursor. */
  function Drag(p: Props, start: Point, cur: Point): (r: Props)
    requires p.LineProps?
    ensures r.LineProps? && r.config == p.config
    ensures Start(r) == start && End(r) == cur
  {
    LineProps(start.x, start.y, cur.x, cur.y, p.config)
  }

  /** The "full" handle: both endpoints shift together, so the direction is kept and the midpoint follows the cursor. */
  function Move(p: Props, cur: Point): (r: Props)
    requires p.LineProps?
    ensures r.LineProps? && r.config == p.config
    ensures r.x2 - r.x == p.x2 - p.x && r.y2 - r.y == p.y2 - p.y
    ensures Midpoint(r) == cur
  {
    var halfWidth := (p.x2 - p.x) / 2.0;
    var halfHeight := (p.y2 - p.y) / 2.0;
    LineProps(cur.x - halfWidth, cur.y - halfHeight, cur.x + halfWidth, cur.y + halfHeight, p.config)
  }

  /** The "top-left" handle moves the first endpoint only. */
  function MoveStart(p: Props, cur: Point): (r: Props)
    requires p.LineProps?
    ensures r.LineProps? && r.config == p.config
    ensures Start(r) == cur && End(r) == End(p)
  {
    LineProps(cur.x, cur.y, p.x2, p.y2, p.config)
  }

  /** The "top-right" handle moves the second endpoint only. */
  function MoveEnd(p: Props, cur: Point): (r: Props)
    requires p.LineProps?
    ensures r.LineProps? && r.config == p.config
    ensures Start(r) == Start(p) && End(r) == cur
  {
    LineProps(p.x, p.y, cur.x, cur.y, p.config)
  }

  function ApplyHandle(p: Props, position: Position, cur: Point): (r: Props)
    requires p.LineProps?
    ensures r.LineProps?
    ensures position !in {Full, TopLeft, TopRight} ==> r == p
  {
    match position
    case Full => Move(p, cur)
    case TopLeft => MoveStart(p, cur)
    case TopRight => MoveEnd(p, cur)
    case _ => p
  }

  /** `updateResizeHandles`: "full" at the midpoint, then "top-left" and "top-right" on the endpoints. */
  function Layout(p: Props): (hs: seq<Handle>)
    requires p.LineProps?
    ensures |hs| == 3
    ensures hs[0].position == Full && hs[1].position == TopLeft && hs[2].position == TopRight
    ensures forall i :: 0 <= i < |hs| ==> hs[i].width == 8.0 && hs[i].height == 8.0
    ensures Point(hs[1].x, hs[1].y) == Start(p) && Point(hs[2].x, hs[2].y) == End(p)
    ensures hs[0].x == (hs[1].x + hs[2].x) / 2.0 && hs[0].y == (hs[1].y + hs[2].y) / 2.0
  {
    [ Square((p.x + p.x2) / 2.0, (p.y + p.y2) / 2.0, "move", Full),
      Square(p.x, p.y, "ne-resize", TopLeft),
      Square(p.x2, p.y2, "ne-resize", TopRight) ]
  }
}
