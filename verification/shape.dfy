/**
 * The editable shape object (Shape.ts with the fields of its four subclasses).
 *
 * One class stands for the base class and its subclasses: `kind` is fixed at
 * construction and every method does what the subclass of that kind does.
 * Each method assigns the fields as the source does and is proved against the
 * per-kind functions on the wire form in Rectangles, Circles, Lines and Pencils.
 */
module Shapes {
  import opened Wrappers
  import opened Geometry
  import opened Handles
  import opened Wire
  import Rectangles
  import Circles
  import Lines
  import Pencils

  /** The hit test of any wire form; a freehand stroke is tested against its freshly computed box. */
  predicate HitTest(p: Props, pos: Point) {
    match p
    case RectProps(_, _, _, _, _) => Rectangles.Hit(p, pos)
    case CircleProps(_, _, _, _) => Circles.Hit(p, pos)
    case LineProps(_, _, _, _, _) => Lines.Hit(p, pos)
    case PencilProps(_) => Pencils.Hit(p, pos)
  }

  /**
   * What one `update(start, cur)` does to the wire form, given the position of
   * the active handle, if any. A freehand stroke moved by its "full" handle
   * while it has no points throws before assigning anything, so it is unchanged.
   */
  function Reshape(p: Props, handle: Option<Position>, start: Point, cur: Point): (r: Props)
    ensures r.Kind() == p.Kind()
    ensures !p.PencilProps? ==> r.config == p.config
    ensures p.PencilProps? && handle.None? ==> r.strokes == Pencils.Append(p.strokes, cur)
    ensures p.PencilProps? && handle.Some? && handle.value != Full ==> r == p
  {
    match p
    case RectProps(_, _, _, _, _) =>
      if handle.None? then Rectangles.Drag(p, start, cur) else Rectangles.ApplyHandle(p, handle.value, cur)
    case CircleProps(_, _, _, _) =>
      if handle.None? then Circles.Drag(p, start, cur) else Circles.ApplyHandle(p, handle.value, cur)
    case LineProps(_, _, _, _, _) =>
      if handle.None? then Lines.Drag(p, start, cur) else Lines.ApplyHandle(p, handle.value, cur)
    case PencilProps(s) =>
      if handle.None? then PencilProps(Pencils.Append(s, cur))
      else if handle.value == Full && s != [] then PencilProps(Pencils.Translate(s, cur))
      else p
  }

  class Shape {
    const kind: Kind
    const id: Id
    const config: Config
    var x: real
    var y: real
    var width: real
    var height: real
    var radius: real
    var x2: real
    var y2: real
    var strokes: seq<Point>
    var minPoint: Point
    var maxPoint: Point
    var activeHandle: Option<Handle>
    var resizeHandles: seq<Handle>

    /** `getProperties`: the wire form of the current geometry. */
    function GetProperties(): (p: Props)
      reads this`x, this`y, this`width, this`height, this`radius, this`x2, this`y2, this`strokes
      ensures p.Kind() == kind
      ensures !p.PencilProps? ==> p.config == config
    {
      match kind
      case RectKind => RectProps(x, y, width, height, config)
      case CircleKind => CircleProps(x, y, radius, config)
      case LineKind => LineProps(x, y, x2, y2, config)
      case PencilKind => PencilProps(strokes)
    }

    /** The handle list `updateResizeHandles` would lay out now (a stroke's uses the cached box). */
    function Handles(): (hs: seq<Handle>)
      reads this`x, this`y, this`width, this`height, this`radius, this`x2, this`y2, this`strokes
      reads this`minPoint, this`maxPoint
      ensures |hs| > 0 && hs[0].position == Full
    {
      match kind
      case RectKind => Rectangles.Layout(GetProperties())
      case CircleKind => Circles.Layout(GetProperties())
      case LineKind => Lines.Layout(GetProperties())
      case PencilKind => Pencils.Layout(minPoint, maxPoint)
    }

    function ActivePosition(): Option<Position>
      reads this`activeHandle
    {
      if activeHandle.Some? then Some(activeHandle.value.position) else None
    }

    /** Fields every constructor starts from. */
    ghost predicate Fresh()
      reads this
    {
      && x == 0.0 && y == 0.0 && width == 0.0 && height == 0.0 && radius == 0.0
      && x2 == 0.0 && y2 == 0.0 && strokes == []
      && minPoint == Pencils.MinStart && maxPoint == Pencils.MaxStart
      && activeHandle == None && resizeHandles == []
    }

    constructor Rectangle(config: Config, id: Id)
      ensures kind == RectKind && this.config == config && this.id == id && Fresh()
    {
      kind, this.config, this.id := RectKind, config, id;
      x, y, width, height, radius, x2, y2 := 0.0, 0.0, 0.0, 0.0, 0.0, 0.0, 0.0;
      strokes, minPoint, maxPoint := [], Pencils.MinStart, Pencils.MaxStart;
      activeHandle, resizeHandles := None, [];
    }

    constructor Circle(config: Config, id: Id)
      ensures kind == CircleKind && this.config == config && this.id == id && Fresh()
    {
      kind, this.config, this.id := CircleKind, config, id;
      x, y, width, height, radius, x2, y2 := 0.0, 0.0, 0.0, 0.0, 0.0, 0.0, 0.0;
      strokes, minPoint, maxPoint := [], Pencils.MinStart, Pencils.MaxStart;
      activeHandle, resizeHandles := None, [];
    }

    constructor Line(config: Config, id: Id)
      ensures kind == LineKind && this.config == config && this.id == id && Fresh()
    {
      kind, this.config, this.id := LineKind, config, id;
      x, y, width, height, radius, x2, y2 := 0.0, 0.0, 0.0, 0.0, 0.0, 0.0, 0.0;
      strokes, minPoint, maxPoint := [], Pencils.MinStart, Pencils.MaxStart;
      activeHandle, resizeHandles := None, [];
    }

    /** The freehand constructor takes no style; its second argument becomes the id. */
    constructor Pencil(id: Id)
      ensures kind == PencilKind && config == NoConfig && this.id == id && Fresh()
    {
      kind, this.config, this.id := PencilKind, NoConfig, id;
      x, y, width, height, radius, x2, y2 := 0.0, 0.0, 0.0, 0.0, 0.0, 0.0, 0.0;
      strokes, minPoint, maxPoint := [], Pencils.MinStart, Pencils.MaxStart;
      activeHandle, resizeHandles := None, [];
    }

    /** `updateResizeHandles`: recompute the handle list from the current geometry. */
    method UpdateResizeHandles()
      modifies this`resizeHandles
      ensures resizeHandles == Handles()
    {
      match kind
      case RectKind => resizeHandles := Rectangles.Layout(GetProperties());
      case CircleKind => resizeHandles := Circles.Layout(GetProperties());
      case LineKind => resizeHandles := Lines.Layout(GetProperties());
      case PencilKind => resizeHandles := Pencils.Layout(minPoint, maxPoint);
    }

    /**
     * `checkForResize`: lay the handles out afresh, then walk them in order;
     * while no handle is active, the first one whose box holds `pos` becomes
     * active. The active handle (or none) is returned.
     */
    method CheckForResize(pos: Point) returns (h: Option<Handle>)
      modifies this`resizeHandles, this`activeHandle
      ensures resizeHandles == Handles()
      ensures activeHandle == Choose(old(activeHandle), resizeHandles, pos)
      ensures h == activeHandle
    {
      UpdateResizeHandles();
      var i := 0;
      while i < |resizeHandles|
        invariant 0 <= i <= |resizeHandles|
        invariant activeHandle == Choose(old(activeHandle), resizeHandles[..i], pos)
        modifies this`activeHandle
      {
        var handle := resizeHandles[i];
        ChooseExtend(old(activeHandle), resizeHandles[..i], handle, pos);
        assert resizeHandles[..i + 1] == resizeHandles[..i] + [handle];
        if activeHandle.None? && Covers(handle, pos) {
          activeHandle := Some(handle);
        }
        i := i + 1;
      }
      assert resizeHandles[..i] == resizeHandles;
      h := activeHandle;
    }

    /**
     * `showCursor`: the cursor of the first cached handle whose box holds
     * `pos`, or "default". Nothing about the shape changes.
     */
    function ShowCursor(pos: Point): (cursor: string)
      reads this`resizeHandles
      ensures (forall i :: 0 <= i < |resizeHandles| ==> !Covers(resizeHandles[i], pos)) ==> cursor == "default"
      ensures forall i ::
                (0 <= i < |resizeHandles| && Covers(resizeHandles[i], pos) &&
                 forall j :: 0 <= j < i ==> !Covers(resizeHandles[j], pos))
                ==> cursor == resizeHandles[i].cursor
      ensures Choose(None, resizeHandles, pos).Some? ==> cursor == Choose(None, resizeHandles, pos).value.cursor
    {
      match FirstCovering(resizeHandles, pos)
      case Some(i) => resizeHandles[i].cursor
      case None => "default"
    }

    /** `closeResize`: drop the active handle and nothing else. */
    method CloseResize()
      modifies this`activeHandle
      ensures activeHandle == None
    {
      activeHandle := None;
    }

    /**
     * `update(start, cur)`: with no active handle, define the shape from the
     * drag; otherwise apply the active handle to the cursor.
     */
    method Update(start: Point, cur: Point)
      modifies this
      ensures GetProperties() == Reshape(old(GetProperties()), old(ActivePosition()), start, cur)
      ensures activeHandle == old(activeHandle) && resizeHandles == old(resizeHandles)
      ensures minPoint == old(minPoint) && maxPoint == old(maxPoint)
    {
      match kind
      case RectKind =>
        if activeHandle.Some? {
          match activeHandle.value.position
          case Full =>
            var halfWidth := width / 2.0;
            var halfHeight := height / 2.0;
            x := cur.x - halfWidth;
            y := cur.y - halfHeight;
          case BottomRight =>
            width := cur.x - x;
            height := cur.y - y;
          case _ =>
        } else {
          var w := cur.x - start.x;
          var h := cur.y - start.y;
          x, y := start.x, start.y;
          width, height := w, h;
        }
      case CircleKind =>
        if activeHandle.Some? {
          match activeHandle.value.position
          case Full =>
            x, y := cur.x, cur.y;
          case BottomRight =>
            radius := Circles.FlooredDistance(cur, Point(x, y));
          case _ =>
        } else {
          x, y := start.x, start.y;
          radius := Circles.FlooredDistance(cur, start);
        }
      case LineKind =>
        if activeHandle.Some? {
          match activeHandle.value.position
          case Full =>
            var halfWidth := (x2 - x) / 2.0;
            var halfHeight := (y2 - y) / 2.0;
            x, y := cur.x - halfWidth, cur.y - halfHeight;
            x2, y2 := cur.x + halfWidth, cur.y + halfHeight;
          case TopLeft =>
            x, y := cur.x, cur.y;
          case TopRight =>
            x2, y2 := cur.x, cur.y;
          case _ =>
        } else {
          x, y := start.x, start.y;
          x2, y2 := cur.x, cur.y;
        }
      case PencilKind =>
        if activeHandle.Some? {
          if activeHandle.value.position == Full && strokes != [] {
            strokes := Pencils.Translate(strokes, cur);
          }
        } else {
          strokes := strokes + [cur];
        }
    }

    /**
     * `updateBoundingBox`: fold every stroke point, in order, into the
     * sentinel corners.
     */
    method UpdateBoundingBox()
      requires kind == PencilKind
      modifies this`minPoint, this`maxPoint
      ensures minPoint == Pencils.BoxMin(strokes) && maxPoint == Pencils.BoxMax(strokes)
    {
      minPoint := Pencils.MinStart;
      maxPoint := Pencils.MaxStart;
      var i := 0;
      while i < |strokes|
        invariant 0 <= i <= |strokes|
        invariant minPoint == Pencils.BoxMin(strokes[..i]) && maxPoint == Pencils.BoxMax(strokes[..i])
      {
        var stroke := strokes[i];
        assert strokes[..i + 1][..i] == strokes[..i];
        minPoint := Point(Min(stroke.x, minPoint.x), Min(stroke.y, minPoint.y));
        maxPoint := Point(Max(stroke.x, maxPoint.x), Max(stroke.y, maxPoint.y));
        i := i + 1;
      }
      assert strokes[..i] == strokes;
    }

    /**
     * `isSelected`: the hit test of this kind. A hit also lays the handles out
     * (the handle painting does that); a stroke refreshes its box first.
     */
    method IsSelected(pos: Point) returns (hit: bool)
      modifies this`minPoint, this`maxPoint, this`resizeHandles
      ensures hit == HitTest(GetProperties(), pos)
      ensures kind == PencilKind ==>
                minPoint == Pencils.BoxMin(strokes) && maxPoint == Pencils.BoxMax(strokes)
      ensures kind != PencilKind ==> minPoint == old(minPoint) && maxPoint == old(maxPoint)
      ensures resizeHandles == if hit then Handles() else old(resizeHandles)
    {
      match kind {
      case RectKind =>
        var minX := Min(x, x + width);
        var maxX := Max(x, x + width);
        var minY := Min(y, y + height);
        var maxY := Max(y, y + height);
        hit := pos.x >= minX && pos.x <= maxX && pos.y >= minY && pos.y <= maxY;
      case CircleKind =>
        hit := 0.0 < radius && SqDist(pos, Point(x, y)) < radius * radius;
      case LineKind =>
        var p := GetProperties();
        var abSq := Lines.LengthSq(p);
        if abSq == 0.0 {
          // zero divided by zero is NaN, and NaN is not within the tolerance
          hit := false;
        } else {
          var t := Max(0.0, Min(1.0, Lines.Dot(p, pos) / abSq));
          var closest := Lines.At(p, t);
          hit := SqDist(pos, closest) <= Lines.ToleranceSq;
        }
      case PencilKind =>
        UpdateBoundingBox();
        hit := pos.x >= minPoint.x && pos.x <= maxPoint.x && pos.y >= minPoint.y && pos.y <= maxPoint.y;
      }
      if hit {
        UpdateResizeHandles();
      }
    }

    /**
     * `updateProperties`: take the geometry of `p`; the style is not touched.
     * Fed its own `getProperties()`, the shape's wire form is unchanged.
     */
    method UpdateProperties(p: Props)
      requires p.Kind() == kind
      modifies this
      ensures GetProperties() == p.WithConfig(config)
      ensures p.WithConfig(config) == p ==> GetProperties() == p
      ensures activeHandle == old(activeHandle) && resizeHandles == old(resizeHandles)
      ensures minPoint == old(minPoint) && maxPoint == old(maxPoint)
    {
      match p
      case RectProps(px, py, pw, ph, _) =>
        x, y, width, height := px, py, pw, ph;
      case CircleProps(px, py, pr, _) =>
        x, y, radius := px, py, pr;
      case LineProps(px, py, px2, py2, _) =>
        x, y, x2, y2 := px, py, px2, py2;
      case PencilProps(s) =>
        strokes := s;
    }
  }
}
