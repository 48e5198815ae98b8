/**
 * The freehand stroke (Pencil.ts): an ordered list of points and a cached
 * bounding box that starts from the sentinels +100000 / -100000.
 */
module Pencils {
  import opened Geometry
  import opened Handles
  import opened Wire

  const Sentinel: real := 100000.0

  /** The corner `minPoint` starts from before the strokes are folded in. */
  const MinStart: Point := Point(Sentinel, Sentinel)

  /** The corner `maxPoint` starts from before the strokes are folded in. */
  const MaxStart: Point := Point(-Sentinel, -Sentinel)

  /** `minPoint` after `updateBoundingBox`: the strokes folded in order into the sentinel with `Math.min`. */
  function BoxMin(s: seq<Point>): Point {
    if s == [] then MinStart
    else
      var m := BoxMin(s[..|s| - 1]);
      var q := s[|s| - 1];
      Point(Min(q.x, m.x), Min(q.y, m.y))
  }

  /** `maxPoint` after `updateBoundingBox`. */
  function BoxMax(s: seq<Point>): Point {
    if s == [] then MaxStart
    else
      var m := BoxMax(s[..|s| - 1]);
      var q := s[|s| - 1];
      Point(Max(q.x, m.x), Max(q.y, m.y))
  }

  /** The inclusive box test of `isSelected`, against the cached corners. */
  predicate InBox(minPoint: Point, maxPoint: Point, pos: Point) {
    minPoint.x <= pos.x <= maxPoint.x && minPoint.y <= pos.y <= maxPoint.y
  }

  /** `isSelected` refreshes the box first, so it is a test against the strokes' own box. */
  predicate Hit(p: Props, pos: Point)
    requires p.PencilProps?
  {
    InBox(BoxMin(p.strokes), BoxMax(p.strokes), pos)
  }

  /**
   * The box is the componentwise minimum and maximum of the stroke points
   * together with the sentinels: each corner lies on the far side of its
   * sentinel and of every point, and is either the sentinel or one point's
   * coordinate.
   */
  lemma {:induction false} BoxBounds(s: seq<Point>)
    ensures BoxMin(s).x <= Sentinel && BoxMin(s).y <= Sentinel
    ensures BoxMax(s).x >= -Sentinel && BoxMax(s).y >= -Sentinel
    ensures forall i :: 0 <= i < |s| ==> InBox(BoxMin(s), BoxMax(s), s[i])
    ensures BoxMin(s).x == Sentinel || exists i :: 0 <= i < |s| && BoxMin(s).x == s[i].x
    ensures BoxMin(s).y == Sentinel || exists i :: 0 <= i < |s| && BoxMin(s).y == s[i].y
    ensures BoxMax(s).x == -Sentinel || exists i :: 0 <= i < |s| && BoxMax(s).x == s[i].x
    ensures BoxMax(s).y == -Sentinel || exists i :: 0 <= i < |s| && BoxMax(s).y == s[i].y
  {
    if s != [] {
      var init := s[..|s| - 1];
      var last := |s| - 1;
      BoxBounds(init);
      forall i | 0 <= i < |s| - 1
        ensures InBox(BoxMin(s), BoxMax(s), s[i])
      {
        assert s[i] == init[i];
      }
      if BoxMin(s).x != Sentinel && BoxMin(s).x != s[last].x {
        var i :| 0 <= i < |init| && BoxMin(init).x == init[i].x;
        assert s[i] == init[i];
      }
      if BoxMin(s).y != Sentinel && BoxMin(s).y != s[last].y {
        var i :| 0 <= i < |init| && BoxMin(init).y == init[i].y;
        assert s[i] == init[i];
      }
      if BoxMax(s).x != -Sentinel && BoxMax(s).x != s[last].x {
        var i :| 0 <= i < |init| && BoxMax(init).x == init[i].x;
        assert s[i] == init[i];
      }
      if BoxMax(s).y != -Sentinel && BoxMax(s).y != s[last].y {
        var i :| 0 <= i < |init| && BoxMax(init).y == init[i].y;
        assert s[i] == init[i];
      }
    }
  }

  /**
   * A click selects a stroke only between its extreme points, each widened to
   * its sentinel: some point (or the sentinel) lies on each side of the click.
   */
  lemma HitOnlyWithinPoints(p: Props, pos: Point)
    requires p.PencilProps? && Hit(p, pos)
    ensures pos.x >= Sentinel || exists i :: 0 <= i < |p.strokes| && p.strokes[i].x <= pos.x
    ensures pos.x <= -Sentinel || exists i :: 0 <= i < |p.strokes| && pos.x <= p.strokes[i].x
    ensures pos.y >= Sentinel || exists i :: 0 <= i < |p.strokes| && p.strokes[i].y <= pos.y
    ensures pos.y <= -Sentinel || exists i :: 0 <= i < |p.strokes| && pos.y <= p.strokes[i].y
  {
    BoxBounds(p.strokes);
  }

  /**
   * The sentinels take part in the fold: a stroke lying wholly right of
   * x = 100000 still gets `minPoint.x == 100000`.
   */
  lemma FarStrokeReachesSentinel(s: seq<Point>)
    requires forall i :: 0 <= i < |s| ==> s[i].x >= Sentinel
    ensures BoxMin(s).x == Sentinel
  {
    BoxBounds(s);
  }

  /** So a click at (150000, 0) selects a stroke whose only point is (200000, 0). */
  lemma FarStrokeHitExample()
    ensures Hit(PencilProps([Point(200000.0, 0.0)]), Point(150000.0, 0.0))
  {
    FarStrokeReachesSentinel([Point(200000.0, 0.0)]);
  }

  /** Every stroke point is selected; with no strokes the box is inverted and nothing is. */
  lemma HitStrokes(p: Props, pos: Point)
    requires p.PencilProps?
    ensures forall i :: 0 <= i < |p.strokes| ==> Hit(p, p.strokes[i])
    ensures p.strokes == [] ==> !Hit(p, pos)
  {
    BoxBounds(p.strokes);
  }

  /** Drawing with no active handle appends the cursor; earlier points stay as they were. */
  function Append(s: seq<Point>, cur: Point): (r: seq<Point>)
    ensures |r| == |s| + 1 && r[|s|] == cur
    ensures forall i :: 0 <= i < |s| ==> r[i] == s[i]
  {
    s + [cur]
  }

  /**
   * The "full" handle translates every point by `cur - s[0]`: the first point
   * lands on the cursor and the differences between points are kept.
   */
  function Translate(s: seq<Point>, cur: Point): (r: seq<Point>)
    requires |s| > 0
    ensures |r| == |s| && r[0] == cur
    ensures forall i, j :: 0 <= i < |s| && 0 <= j < |s| ==>
              r[i].x - r[j].x == s[i].x - s[j].x && r[i].y - r[j].y == s[i].y - s[j].y
  {
    var dx, dy := cur.x - s[0].x, cur.y - s[0].y;
    seq(|s|, i requires 0 <= i < |s| => Point(s[i].x + dx, s[i].y + dy))
  }

  /** `updateResizeHandles`: one "full" handle, halfway between the cached corners. */
  function Layout(minPoint: Point, maxPoint: Point): (hs: seq<Handle>)
    ensures |hs| == 1 && hs[0].position == Full && hs[0].width == 8.0 && hs[0].height == 8.0
    ensures hs[0].x - minPoint.x == maxPoint.x - hs[0].x
    ensures hs[0].y - minPoint.y == maxPoint.y - hs[0].y
  {
    [ Square(minPoint.x + (maxPoint.x - minPoint.x) / 2.0,
             minPoint.y + (maxPoint.y - minPoint.y) / 2.0, "move", Full) ]
  }

  /** A stroke's handle, laid out on a fresh box, lies inside that box, so a click on it selects the stroke. */
  lemma HandleInsideBox(p: Props)
    requires p.PencilProps? && p.strokes != []
    ensures var h := Layout(BoxMin(p.strokes), BoxMax(p.strokes))[0];
            Hit(p, Point(h.x, h.y))
  {
    BoxBounds(p.strokes);
    assert InBox(BoxMin(p.strokes), BoxMax(p.strokes), p.strokes[0]);
  }

  /**
   * An empty stroke's handle sits where the sentinels meet, at (0, 0): the
   * handle exists though no point selects the stroke.
   */
  lemma EmptyHandleAtOrigin()
    ensures var h := Layout(BoxMin([]), BoxMax([]))[0];
            h.x == 0.0 && h.y == 0.0
  {
  }
}
