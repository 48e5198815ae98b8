/**
 * The circle (Circle.ts): centre `(x, y)` and `radius`.
 */
module Circles {
  import opened Geometry
  import opened Handles
  import opened Wire

  function Centre(p: Props): Point
    requires p.CircleProps?
  {
    Point(p.x, p.y)
  }

  /**
   * `isSelected`: the distance to the centre is strictly below the radius.
   * The source compares a square root with the radius; `RootBelow` shows that
   * this squared form decides the same thing.
   */
  predicate Hit(p: Props, pos: Point)
    requires p.CircleProps?
  {
    0.0 < p.radius && SqDist(pos, Centre(p)) < p.radius * p.radius
  }

  /** The squared test agrees with the source's `sqrt(d) < radius` for the true root of `d`. */
  lemma HitMatchesRoot(p: Props, pos: Point, dist: real)
    requires p.CircleProps?
    requires dist >= 0.0 && dist * dist == SqDist(pos, Centre(p))
    ensures Hit(p, pos) <==> dist < p.radius
  {
    RootBelow(SqDist(pos, Centre(p)), dist, p.radius);
  }

  /** A circle whose radius is not positive is never selected, not even at its centre. */
  lemma DegenerateNeverHit(p: Props, pos: Point)
    requires p.CircleProps? && p.radius <= 0.0
    ensures !Hit(p, pos)
  {
  }

  /** The centre is selected exactly when the radius is positive. */
  lemma CentreHitIffPositive(p: Props)
    requires p.CircleProps?
    ensures Hit(p, Centre(p)) <==> p.radius > 0.0
  {
    if p.radius > 0.0 {
      calc {
        SqDist(Centre(p), Centre(p));
        == 0.0;
        < p.radius * p.radius;
      }
    }
  }

  /** Growing the radius never deselects a point. */
  lemma HitMonotone(p: Props, bigger: real, pos: Point)
    requires p.CircleProps? && p.radius <= bigger
    ensures Hit(p, pos) ==> Hit(CircleProps(p.x, p.y, bigger, p.config), pos)
  {
    if Hit(p, pos) {
      assert 0.0 < p.radius;
      assert (bigger - p.radius) * (bigger + p.radius) >= 0.0;
      assert p.radius * p.radius <= bigger * bigger;
    }
  }

  /** A radius the source computes: the floored distance between two points. */
  predicate IsFlooredDistance(radius: real, a: Point, b: Point) {
    IsFloorRoot(radius, SqDist(a, b))
  }

  function FlooredDistance(a: Point, b: Point): (r: real)
    ensures IsFlooredDistance(r, a, b)
  {
    FloorSqrt(SqDist(a, b))
  }

  /** Drawing with no active handle: centred on the drag's start, radius the floored drag length. */
  function Drag(p: Props, start: Point, cur: Point): (r: Props)
    requires p.CircleProps?
    ensures r.CircleProps? && r.config == p.config
    ensures Centre(r) == start && IsFlooredDistance(r.radius, cur, start)
  {
    CircleProps(start.x, start.y, FlooredDistance(cur, start), p.config)
  }

  /** The "full" handle: the centre follows the cursor and the radius is kept. */
  function Move(p: Props, cur: Point): (r: Props)
    requires p.CircleProps?
    ensures r.CircleProps? && r.config == p.config
    ensures Centre(r) == cur && r.radius == p.radius
  {
    CircleProps(cur.x, cur.y, p.radius, p.config)
  }

  /** The "bottom-right" handle: the centre is kept and the radius becomes the floored distance to the cursor. */
  function Resize(p: Props, cur: Point): (r: Props)
    requires p.CircleProps?
    ensures r.CircleProps? && r.config == p.config
    ensures Centre(r) == Centre(p) && IsFlooredDistance(r.radius, cur, Centre(p))
  {
    CircleProps(p.x, p.y, FlooredDistance(cur, Centre(p)), p.config)
  }

  function ApplyHandle(p: Props, position: Position, cur: Point): (r: Props)
    requires p.CircleProps?
    ensures r.CircleProps?
    ensures position != Full && position != BottomRight ==> r == p
  {
    match position
    case Full => Move(p, cur)
    case BottomRight => Resize(p, cur)
    case _ => p
  }

  /**
   * Wherever a radius was set from a pointer (drawing or the radius handle),
   * the pointer itself lies on or outside the circle, so it is not selected.
   */
  lemma PointerNotInside(radius: real, centre: Point, cur: Point, c: Config)
    requires IsFlooredDistance(radius, cur, centre)
    ensures !Hit(CircleProps(centre.x, centre.y, radius, c), cur)
  {
  }

  /** `updateResizeHandles`: "full" at the centre, then "bottom-right" on the circle, right of the centre. */
  function Layout(p: Props): (hs: seq<Handle>)
    requires p.CircleProps?
    ensures |hs| == 2 && hs[0].position == Full && hs[1].position == BottomRight
    ensures forall i :: 0 <= i < |hs| ==> hs[i].width == 8.0 && hs[i].height == 8.0
    ensures Point(hs[0].x, hs[0].y) == Centre(p)
    ensures Point(hs[1].x, hs[1].y) == Point(p.x + p.radius, p.y)
  {
    [ Square(p.x, p.y, "move", Full),
      Square(p.x + p.radius, p.y, "se-resize", BottomRight) ]
  }

  /** The resize handle sits on the rim: its squared distance from the centre is the radius squared. */
  lemma ResizeHandleOnRim(p: Props)
    requires p.CircleProps?
    ensures var h := Layout(p)[1]; SqDist(Point(h.x, h.y), Centre(p)) == p.radius * p.radius
  {
  }
}
