/**
 * The rectangle (Rectangle.ts): anchor `(x, y)`, signed `width` and `height`.
 */
module Rectangles {
  import opened Geometry
  import opened Handles
  import opened Wire

  /** The rectangle's midpoint. */
  function Centre(p: Props): Point
    requires p.RectProps?
  {
    Point(p.x + p.width / 2.0, p.y + p.height / 2.0)
  }

  /** The corner opposite the anchor. */
  function FarCorner(p: Props): Point
    requires p.RectProps?
  {
    Point(p.x + p.width, p.y + p.height)
  }

  /** `isSelected`: an inclusive test against the normalised bounding box. */
  predicate Hit(p: Props, pos: Point)
    requires p.RectProps?
  {
    && Min(p.x, p.x + p.width) <= pos.x <= Max(p.x, p.x + p.width)
    && Min(p.y, p.y + p.height) <= pos.y <= Max(p.y, p.y + p.height)
  }

  /** A point is selected iff each coordinate lies between the anchor and the far corner. */
  lemma HitIffBetween(p: Props, pos: Point)
    requires p.RectProps?
    ensures Hit(p, pos) <==> Between(pos.x, p.x, FarCorner(p).x) && Between(pos.y, p.y, FarCorner(p).y)
  {
  }

  /** Both corners and the midpoint are selected, whichever signs width and height have. */
  lemma CornersAndCentreHit(p: Props)
    requires p.RectProps?
    ensures Hit(p, Point(p.x, p.y)) && Hit(p, FarCorner(p)) && Hit(p, Centre(p))
  {
  }

  /** Drawing with no active handle: the rectangle spans from the drag's start to the cursor. */
  function Drag(p: Props, start: Point, cur: Point): (r: Props)
    requires p.RectProps?
    ensures r.RectProps? && r.config == p.config
    ensures Point(r.x, r.y) == start && FarCorner(r) == cur
  {
    RectProps(start.x, start.y, cur.x - start.x, cur.y - start.y, p.config)
  }

  /** The "full" handle: the size is kept and the midpoint follows the cursor. */
  function Move(p: Props, cur: Point): (r: Props)
    requires p.RectProps?
    ensures r.RectProps? && r.config == p.config
    ensures r.width == p.width && r.height == p.height && Centre(r) == cur
  {
    RectProps(cur.x - p.width / 2.0, cur.y - p.height / 2.0, p.width, p.height, p.config)
  }

  /** The "bottom-right" handle: the anchor is kept and the far corner follows the cursor. */
  function Resize(p: Props, cur: Point): (r: Props)
    requires p.RectProps?
    ensures r.RectProps? && r.config == p.config
    ensures r.x == p.x && r.y == p.y && FarCorner(r) == cur
  {
    RectProps(p.x, p.y, cur.x - p.x, cur.y - p.y, p.config)
  }

  /** The effect of an active handle; positions the switch does not name leave the rectangle as it is. */
  function ApplyHandle(p: Props, position: Position, cur: Point): (r: Props)
    requires p.RectProps?
    ensures r.RectProps?
    ensures position != Full && position != BottomRight ==> r == p
  {
    match position
    case Full => Move(p, cur)
    case BottomRight => Resize(p, cur)
    case _ => p
  }

  /** Dragging the move handle from the midpoint by `d` translates the anchor by `d`. */
  lemma MoveTranslates(p: Props, d: Point)
    requires p.RectProps?
    ensures var r := Move(p, Point(Centre(p).x + d.x, Centre(p).y + d.y));
            r.x == p.x + d.x && r.y == p.y + d.y && r.width == p.width && r.height == p.height
  {
  }

  /** `updateResizeHandles`: "full" at the midpoint, then "bottom-right" at the far corner. */
  function Layout(p: Props): (hs: seq<Handle>)
    requires p.RectProps?
    ensures |hs| == 2 && hs[0].position == Full && hs[1].position == BottomRight
    ensures forall i :: 0 <= i < |hs| ==> hs[i].width == 8.0 && hs[i].height == 8.0
    ensures Point(hs[1].x, hs[1].y) == FarCorner(p)
    ensures hs[0].x == (p.x + hs[1].x) / 2.0 && hs[0].y == (p.y + hs[1].y) / 2.0
  {
    [ Square(p.x + p.width / 2.0, p.y + p.height / 2.0, "move", Full),
      Square(p.x + p.width, p.y + p.height, "se-resize", BottomRight) ]
  }

  /** The hit test of the rectangle `{x: 0, y: 0, width: 100, height: 50}`. */
  lemma HitExample(c: Config)
    ensures Hit(RectProps(0.0, 0.0, 100.0, 50.0, c), Point(50.0, 25.0))
    ensures !Hit(RectProps(0.0, 0.0, 100.0, 50.0, c), Point(150.0, 25.0))
  {
  }
}
