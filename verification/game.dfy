/**
 * The whiteboard controller (Game.ts): the local collection of persisted
 * shapes, the pointer state machine that draws, selects, resizes and pans,
 * the zoom, and the handling of frames that arrive from the room.
 *
 * Frames this client sends are appended to the ghost `outbox`; the canvas,
 * the cursor style and the React state callback are not modelled.
 */
module Client {
  import opened Wrappers
  import opened Geometry
  import opened Handles
  import opened Wire
  import opened Shapes
  import Pencils

  datatype Tool = Hand | Cursor | RectangleTool | CircleTool | LineTool | PencilTool
  {
    /** The four tools that start a new shape on pointer-down. */
    predicate Draws() {
      !Hand? && !Cursor?
    }

    function ShapeKind(): Kind
      requires Draws()
    {
      if RectangleTool? then RectKind
      else if CircleTool? then CircleKind
      else if LineTool? then LineKind
      else PencilKind
    }
  }

  /** A persisted chat record whose message has been parsed into a wire form. */
  datatype ChatRecord = ChatRecord(id: int, roomId: int, userId: string, message: Props)

  /** An element of the local collection: the record and the shape object built from it. */
  datatype Entry = Entry(record: ChatRecord, shape: Shape)

  /** A frame from the room, already parsed. */
  datatype Inbound =
    | InChat(record: ChatRecord)
    | InUpdate(record: ChatRecord)
    | InDelete(record: ChatRecord)
    | InError(text: string)
    | InOther

  /** A frame this client sends, with the payload it serialises. */
  datatype Outbound =
    | OutChat(roomId: int, shape: Props)
    | OutUpdate(roomId: int, id: Id, shape: Props)
    | OutDelete(roomId: int, id: Id)

  const DefaultConfig: Config := Style(1.0, "rgba(0,0,0,0)", "#000000", 1.0, "solid")
  const MinScale: real := 0.1
  const MaxScale: real := 5.0

  /** `Number(v.toFixed(2))` for v >= 0: the nearest hundredth, halves rounded up. */
  function Hundredths(v: real): (r: real)
    ensures (r * 100.0).Floor as real == r * 100.0
    ensures -0.005 < r - v <= 0.005
  {
    ((v * 100.0 + 0.5).Floor as real) / 100.0
  }

  /** The scale after one wheel step of `delta`: clamped to [0.1, 5], then rounded to hundredths. */
  function ZoomedScale(scale: real, delta: real): (r: real)
    ensures MinScale <= r <= MaxScale
    ensures -0.005 < r - Max(MinScale, Min(MaxScale, scale - delta)) <= 0.005
  {
    var clamped := Max(MinScale, Min(MaxScale, scale - delta));
    var n := (clamped * 100.0 + 0.5).Floor;
    assert 10 <= n <= 500;
    Hundredths(clamped)
  }

  /** The offset that keeps the model point at screen distance `mouse` from the old offset fixed. */
  function ZoomShift(offset: real, mouse: real, oldScale: real, newScale: real): real
    requires oldScale > 0.0
  {
    offset - mouse * (newScale / oldScale - 1.0)
  }

  /** Zooming about the pointer leaves the model coordinate under the pointer where it was. */
  lemma ZoomFixesPointer(client: real, offset: real, oldScale: real, newScale: real)
    requires oldScale > 0.0 && newScale > 0.0
    ensures (client - ZoomShift(offset, client - offset, oldScale, newScale)) / newScale
         == (client - offset) / oldScale
  {
    var m := client - offset;
    calc {
      client - ZoomShift(offset, m, oldScale, newScale);
    ==
      m + m * (newScale / oldScale - 1.0);
    ==
      m * (newScale / oldScale);
    ==
      (m / oldScale) * newScale;
    }
  }

  /**
   * The offset after a zoom from `oldScale` to `newScale`: the anchor is the
   * pointer relative to the old offset, or, with no pointer, half the canvas
   * at the new scale. With a pointer, the model point under it stays put.
   */
  function ZoomOffset(offset: Point, pointer: Option<Point>, canvas: Point, oldScale: real, newScale: real): (r: Point)
    requires oldScale > 0.0 && newScale > 0.0
    ensures pointer.None? ==>
              r == Point(ZoomShift(offset.x, canvas.x * newScale / 2.0, oldScale, newScale),
                         ZoomShift(offset.y, canvas.y * newScale / 2.0, oldScale, newScale))
    ensures pointer.Some? ==>
              && (pointer.value.x - r.x) / newScale == (pointer.value.x - offset.x) / oldScale
              && (pointer.value.y - r.y) / newScale == (pointer.value.y - offset.y) / oldScale
  {
    match pointer
    case None =>
      Point(ZoomShift(offset.x, canvas.x * newScale / 2.0, oldScale, newScale),
            ZoomShift(offset.y, canvas.y * newScale / 2.0, oldScale, newScale))
    case Some(c) =>
      ZoomFixesPointer(c.x, offset.x, oldScale, newScale);
      ZoomFixesPointer(c.y, offset.y, oldScale, newScale);
      Point(ZoomShift(offset.x, c.x - offset.x, oldScale, newScale),
            ZoomShift(offset.y, c.y - offset.y, oldScale, newScale))
  }

  /** The model coordinates of a screen point: undo pan and zoom, then floor each coordinate. */
  function ToModel(client: Point, offset: Point, scale: real): (p: Point)
    requires scale > 0.0
    ensures p.x <= (client.x - offset.x) / scale < p.x + 1.0
    ensures p.y <= (client.y - offset.y) / scale < p.y + 1.0
    ensures p.x.Floor as real == p.x && p.y.Floor as real == p.y
  {
    Point(((client.x - offset.x) / scale).Floor as real, ((client.y - offset.y) / scale).Floor as real)
  }

  /** `Array.prototype.findIndex` by record id, as an option. */
  function FirstIndexOf(ids: seq<int>, id: int): (r: Option<nat>)
    ensures r.Some? ==> r.value < |ids| && ids[r.value] == id
    ensures r.Some? ==> forall j :: 0 <= j < r.value ==> ids[j] != id
    ensures r.None? <==> id !in ids
  {
    if ids == [] then None
    else if ids[0] == id then Some(0)
    else
      var rest := FirstIndexOf(ids[1..], id);
      if rest.None? then None else Some(rest.value + 1)
  }

  /** The index of the first wire form hit at `pos`, in collection order. */
  function FirstHit(forms: seq<Props>, pos: Point): (r: Option<nat>)
    ensures r.Some? ==> r.value < |forms| && HitTest(forms[r.value], pos)
    ensures r.Some? ==> forall j :: 0 <= j < r.value ==> !HitTest(forms[j], pos)
    ensures r.None? ==> forall j :: 0 <= j < |forms| ==> !HitTest(forms[j], pos)
  {
    if forms == [] then None
    else if HitTest(forms[0], pos) then Some(0)
    else
      var rest := FirstHit(forms[1..], pos);
      if rest.None? then None else Some(rest.value + 1)
  }

  /** A hit at `i` with none before it is the first hit. */
  lemma FirstHitAt(forms: seq<Props>, pos: Point, i: nat)
    requires i < |forms| && HitTest(forms[i], pos)
    requires forall j :: 0 <= j < i ==> !HitTest(forms[j], pos)
    ensures FirstHit(forms, pos) == Some(i)
  {
  }

  /** With no hit at all there is no first hit. */
  lemma NoFirstHit(forms: seq<Props>, pos: Point)
    requires forall j :: 0 <= j < |forms| ==> !HitTest(forms[j], pos)
    ensures FirstHit(forms, pos) == None
  {
  }

  /** `splice(k, 1)`: the sequence without its element at `k`, the others in order. */
  function RemoveAt<T>(s: seq<T>, k: nat): (r: seq<T>)
    requires k < |s|
    ensures |r| == |s| - 1
    ensures forall j :: 0 <= j < k ==> r[j] == s[j]
    ensures forall j :: k <= j < |r| ==> r[j] == s[j + 1]
    ensures multiset(r) + multiset{s[k]} == multiset(s)
  {
    assert s == s[..k] + [s[k]] + s[k + 1..];
    s[..k] + s[k + 1..]
  }

  function RecordIds(es: seq<Entry>): (ids: seq<int>)
    ensures |ids| == |es| && forall j :: 0 <= j < |es| ==> ids[j] == es[j].record.id
  {
    seq(|es|, j requires 0 <= j < |es| => es[j].record.id)
  }

  function Records(es: seq<Entry>): (rs: seq<ChatRecord>)
    ensures |rs| == |es| && forall j :: 0 <= j < |es| ==> rs[j] == es[j].record
  {
    seq(|es|, j requires 0 <= j < |es| => es[j].record)
  }

  function Messages(rs: seq<ChatRecord>): (ms: seq<Props>)
    ensures |ms| == |rs| && forall j :: 0 <= j < |rs| ==> ms[j] == rs[j].message
  {
    seq(|rs|, j requires 0 <= j < |rs| => rs[j].message)
  }

  /**
   * When record ids are distinct (the server numbers them), removing the
   * first record with `id` leaves no record with that id and every other one
   * in place.
   */
  lemma {:induction false} DeleteRemovesId(ids: seq<int>, id: int, k: nat)
    requires forall i, j :: 0 <= i < j < |ids| ==> ids[i] != ids[j]
    requires FirstIndexOf(ids, id) == Some(k)
    ensures id !in RemoveAt(ids, k)
    ensures multiset(RemoveAt(ids, k)) == multiset(ids) - multiset{id}
  {
    var r := RemoveAt(ids, k);
    forall j | 0 <= j < |r|
      ensures r[j] != id
    {
      if j < k {
        assert r[j] == ids[j];
      } else {
        assert r[j] == ids[j + 1] && ids[k] == id;
      }
    }
  }

  /** A record appended by a CHAT frame is exactly what a DELETE frame for its id takes away. */
  lemma {:induction false} DeleteUndoesChat(es: seq<Entry>, e: Entry)
    requires e.record.id !in RecordIds(es)
    ensures FirstIndexOf(RecordIds(es + [e]), e.record.id) == Some(|es|)
    ensures RemoveAt(es + [e], |es|) == es
  {
    var ids := RecordIds(es + [e]);
    assert ids[|es|] == e.record.id;
    assert forall j :: 0 <= j < |es| ==> ids[j] == RecordIds(es)[j];
    assert (es + [e])[..|es|] == es;
  }

  /**
   * The id a freehand shape object receives from the constructor's second
   * argument: a missing (undefined) argument takes the default 0, a style
   * object is stored as it is.
   */
  function PencilCtorId(arg: Config): (r: Id)
    ensures r == Num(0) <==> arg == NoConfig
    ensures r.ConfigAsId? ==> r.config == arg
  {
    if arg == NoConfig then Num(0) else ConfigAsId(arg)
  }

  /**
   * The id `createShapeClass` gives a shape built from a persisted record,
   * as written: the freehand branch passes the wire form's (absent) config
   * where the id belongs, so the record id is dropped.
   */
  function LoadedIdAsWritten(p: Props, id: int): Id {
    if p.PencilProps? then PencilCtorId(NoConfig) else Num(id)
  }

  /** Every freehand shape loaded from a record with a non-zero id loses that id. */
  lemma LoadedPencilLosesId(strokes: seq<Point>, id: int)
    requires id != 0
    ensures LoadedIdAsWritten(PencilProps(strokes), id) == Num(0)
    ensures LoadedIdAsWritten(PencilProps(strokes), id) != Num(id)
  {
  }

  /** With that id, two loaded strokes become indistinguishable to UPDATE and DELETE frames. */
  lemma LoadedPencilsCollide(s1: seq<Point>, id1: int, s2: seq<Point>, id2: int)
    ensures LoadedIdAsWritten(PencilProps(s1), id1) == LoadedIdAsWritten(PencilProps(s2), id2)
  {
  }

  /** The shape objects of a collection. */
  ghost function Objects(es: seq<Entry>): set<Shape> {
    set j | 0 <= j < |es| :: es[j].shape
  }

  /** The current wire forms of the entries' shape objects, in order. */
  ghost function Forms(es: seq<Entry>): (r: seq<Props>)
    reads Objects(es)
    ensures |r| == |es|
    ensures forall j :: 0 <= j < |es| ==> r[j] == es[j].shape.GetProperties()
  {
    seq(|es|, j reads Objects(es) requires 0 <= j < |es| => es[j].shape.GetProperties())
  }

  /** The wire forms of `es` are `forms` when they agree entry by entry. */
  lemma FormsAre(es: seq<Entry>, forms: seq<Props>)
    requires |forms| == |es|
    requires forall j :: 0 <= j < |es| ==> es[j].shape.GetProperties() == forms[j]
    ensures Forms(es) == forms
  {
  }

  /** Shape `s` still has wire form `p`, active handle `h` and handle cache `hs`. */
  ghost predicate Kept(s: Shape, p: Props, h: Option<Handle>, hs: seq<Handle>)
    reads s
  {
    s.GetProperties() == p && s.activeHandle == h && s.resizeHandles == hs
  }

  /** Shape `s` still has active handle `h`, handle cache `hs` and cached box `lo`..`hi`. */
  ghost predicate KeptCaches(s: Shape, h: Option<Handle>, hs: seq<Handle>, lo: Point, hi: Point)
    reads s
  {
    s.activeHandle == h && s.resizeHandles == hs && s.minPoint == lo && s.maxPoint == hi
  }

  /**
   * The probing loop of the `find` on pointer-down: ask each shape in turn
   * whether it holds `pos`, stopping at the first that does. Geometry and
   * active handles are untouched; the shape hit has its handles laid out
   * and, if it is a stroke, its box refreshed from its points; the other
   * shapes keep their handle caches.
   */
  method Probe(es: seq<Entry>, pos: Point) returns (k: Option<nat>)
    requires forall i, j :: 0 <= i < j < |es| ==> es[i].shape != es[j].shape
    modifies Objects(es)
    ensures Forms(es) == old(Forms(es))
    ensures k == FirstHit(Forms(es), pos)
    ensures forall j :: 0 <= j < |es| ==> es[j].shape.activeHandle == old(es[j].shape.activeHandle)
    ensures forall j :: 0 <= j < |es| && k != Some(j) ==>
              es[j].shape.resizeHandles == old(es[j].shape.resizeHandles)
    ensures k.Some? ==>
              var s := es[k.value].shape;
              && s.resizeHandles == s.Handles()
              && (s.kind == PencilKind ==>
                    s.minPoint == Pencils.BoxMin(s.strokes) && s.maxPoint == Pencils.BoxMax(s.strokes))
  {
    ghost var forms := Forms(es);
    var i: nat := 0;
    while i < |es|
      invariant i <= |es|
      invariant forall j :: 0 <= j < |es| ==>
                  Kept(es[j].shape, forms[j], old(es[j].shape.activeHandle), old(es[j].shape.resizeHandles))
      invariant forall j :: 0 <= j < i ==> !HitTest(forms[j], pos)
    {
      var hit := es[i].shape.IsSelected(pos);
      if hit {
        FormsAre(es, forms);
        FirstHitAt(forms, pos, i);
        return Some(i);
      }
      i := i + 1;
    }
    FormsAre(es, forms);
    NoFirstHit(forms, pos);
    return None;
  }

  /** Removing an entry keeps the shapes inside `repr`, distinct, and carrying their records' ids. */
  lemma RemoveKeepsEntries(es: seq<Entry>, k: nat, repr: set<object>)
    requires k < |es|
    requires forall j :: 0 <= j < |es| ==> es[j].shape in repr
    requires forall i, j :: 0 <= i < j < |es| ==> es[i].shape != es[j].shape
    requires forall j :: 0 <= j < |es| ==> es[j].shape.id == Num(es[j].record.id)
    ensures var r := RemoveAt(es, k);
            && (forall j :: 0 <= j < |r| ==> r[j].shape in repr)
            && (forall i, j :: 0 <= i < j < |r| ==> r[i].shape != r[j].shape)
            && (forall j :: 0 <= j < |r| ==> r[j].shape.id == Num(r[j].record.id))
  {
    var r := RemoveAt(es, k);
    forall i, j | 0 <= i < j < |r|
      ensures r[i].shape != r[j].shape
    {
      var i', j' := if i < k then i else i + 1, if j < k then j else j + 1;
      assert r[i] == es[i'] && r[j] == es[j'] && i' < j';
    }
  }

  /** The wire forms of the remaining entries are the old wire forms without the removed one. */
  lemma FormsRemoveAt(es: seq<Entry>, k: nat)
    requires k < |es|
    ensures Forms(RemoveAt(es, k)) == RemoveAt(Forms(es), k)
  {
  }

  class Game {
    const roomId: int
    var shapes: seq<Entry>
    var startCoordinates: Point
    var offset: Point
    var scale: real
    var isDrawing: bool
    var isResizing: bool
    var isPanning: bool
    var selectedShape: Shape?
    var currentTool: Tool
    var shapeConfig: Config
    ghost var outbox: seq<Outbound>
    ghost var Repr: set<object>

    /**
     * The controller and every shape it can reach are in `Repr`; each entry
     * has its own shape object, which carries the entry's record id; the
     * scale stays within the zoom bounds. The record id on a loaded stroke
     * rests on the corrected `CreateShapeClass`: as written, a loaded stroke
     * carries id 0 (`LoadedIdAsWritten`).
     */
    ghost predicate Valid()
      reads this`Repr, this`shapes, this`selectedShape, this`scale
    {
      && this in Repr
      && (forall j :: 0 <= j < |shapes| ==> shapes[j].shape in Repr)
      && (selectedShape != null ==> selectedShape in Repr)
      && (forall i, j :: 0 <= i < j < |shapes| ==> shapes[i].shape != shapes[j].shape)
      && (forall j :: 0 <= j < |shapes| ==> shapes[j].shape.id == Num(shapes[j].record.id))
      && MinScale <= scale <= MaxScale
    }

    /** The wire forms of the collection, in order. */
    ghost function Snapshot(): (r: seq<Props>)
      reads this`shapes, Objects(shapes)
      ensures |r| == |shapes|
      ensures forall j :: 0 <= j < |shapes| ==> r[j] == shapes[j].shape.GetProperties()
    {
      Forms(shapes)
    }

    constructor (roomId: int)
      ensures Valid() && fresh(Repr)
      ensures this.roomId == roomId && shapes == [] && outbox == []
      ensures scale == 1.0 && offset == Point(0.0, 0.0) && startCoordinates == Point(0.0, 0.0)
      ensures !isDrawing && !isResizing && !isPanning && selectedShape == null
      ensures currentTool == Cursor && shapeConfig == DefaultConfig
    {
      this.roomId := roomId;
      shapes := [];
      startCoordinates, offset, scale := Point(0.0, 0.0), Point(0.0, 0.0), 1.0;
      isDrawing, isResizing, isPanning := false, false, false;
      selectedShape := null;
      currentTool := Cursor;
      shapeConfig := DefaultConfig;
      outbox := [];
      Repr := {this};
    }

    /**
     * `createShapeClass(shape, id)`, corrected: an object of the wire form's
     * kind, carrying the record id, whose geometry and style are the wire form's.
     */
    method CreateShapeClass(p: Props, id: int) returns (s: Shape)
      ensures fresh(s) && s.kind == p.Kind() && s.id == Num(id)
      ensures s.GetProperties() == p
      ensures s.activeHandle == None && s.resizeHandles == []
    {
      if p.RectProps? {
        s := new Shape.Rectangle(p.config, Num(id));
      } else if p.CircleProps? {
        s := new Shape.Circle(p.config, Num(id));
      } else if p.LineProps? {
        s := new Shape.Line(p.config, Num(id));
      } else {
        s := new Shape.Pencil(Num(id));
      }
      s.UpdateProperties(p);
    }

    /** Push a record and the shape built from it onto the collection. */
    method AddRecord(rec: ChatRecord)
      requires Valid()
      modifies this`shapes, this`Repr
      ensures Valid() && fresh(Repr - old(Repr))
      ensures Records(shapes) == Records(old(shapes)) + [rec]
      ensures Snapshot() == old(Snapshot()) + [rec.message]
    {
      var s := CreateShapeClass(rec.message, rec.id);
      shapes := shapes + [Entry(rec, s)];
      Repr := Repr + {s};
      assert Records(shapes) == Records(old(shapes)) + [rec];
    }

    /** `init`: the room's persisted records, in order, each with its shape object. */
    method Init(records: seq<ChatRecord>)
      requires Valid()
      modifies this`shapes, this`Repr
      ensures Valid() && fresh(Repr - old(Repr))
      ensures Records(shapes) == Records(old(shapes)) + records
      ensures Snapshot() == old(Snapshot()) + Messages(records)
    {
      var i := 0;
      while i < |records|
        invariant 0 <= i <= |records|
        invariant Valid() && fresh(Repr - old(Repr))
        invariant Records(shapes) == Records(old(shapes)) + records[..i]
        invariant Snapshot() == old(Snapshot()) + Messages(records[..i])
      {
        AddRecord(records[i]);
        assert records[..i + 1] == records[..i] + [records[i]];
        assert Messages(records[..i + 1]) == Messages(records[..i]) + [records[i].message];
        i := i + 1;
      }
      assert records[..i] == records;
    }

    /**
     * The `find` over the collection on pointer-down (`Probe` on the entries):
     * only the collection's shapes are touched, and only their caches.
     */
    method FindTarget(pos: Point, ghost other: Shape?) returns (k: Option<nat>)
      requires Valid()
      modifies Objects(shapes)
      ensures forall j :: 0 <= j < |shapes| ==> shapes[j].shape.activeHandle == old(shapes[j].shape.activeHandle)
      ensures other != null ==> other.activeHandle == old(other.activeHandle)
      ensures Snapshot() == old(Snapshot())
      ensures k == FirstHit(Snapshot(), pos)
      ensures k.Some? ==>
                var s := shapes[k.value].shape;
                && s.resizeHandles == s.Handles()
                && (s.kind == PencilKind ==>
                      s.minPoint == Pencils.BoxMin(s.strokes) && s.maxPoint == Pencils.BoxMax(s.strokes))
      ensures forall j :: 0 <= j < |shapes| && k != Some(j) ==>
                shapes[j].shape.resizeHandles == old(shapes[j].shape.resizeHandles)
    {
      k := Probe(shapes, pos);
    }

    /** The object the drawing tool `tool` starts: as yet without geometry, with id 0 (a stroke: the style in the id slot). */
    static method NewShape(tool: Tool, config: Config) returns (s: Shape)
      requires tool.Draws()
      ensures fresh(s) && s.Fresh() && s.kind == tool.ShapeKind()
      ensures s.id == (if tool == PencilTool then PencilCtorId(config) else Num(0))
      ensures tool != PencilTool ==> s.config == config
    {
      if tool == RectangleTool {
        s := new Shape.Rectangle(config, Num(0));
      } else if tool == CircleTool {
        s := new Shape.Circle(config, Num(0));
      } else if tool == LineTool {
        s := new Shape.Line(config, Num(0));
      } else {
        s := new Shape.Pencil(PencilCtorId(config));
      }
    }

    /** The drawing-tool branch of `mouseDown`: a fresh shape of the tool's kind, anchored at `pos`. */
    method StartShape(pos: Point)
      requires Valid() && currentTool.Draws()
      modifies this`isDrawing, this`startCoordinates, this`selectedShape, this`Repr
      ensures Valid() && fresh(Repr - old(Repr)) && Snapshot() == old(Snapshot())
      ensures isDrawing && startCoordinates == pos
      ensures selectedShape != null && fresh(selectedShape) && selectedShape.Fresh()
      ensures selectedShape.kind == currentTool.ShapeKind()
      ensures selectedShape.id == (if currentTool == PencilTool then PencilCtorId(shapeConfig) else Num(0))
      ensures currentTool != PencilTool ==> selectedShape.config == shapeConfig
    {
      isDrawing := true;
      startCoordinates := pos;
      var s := NewShape(currentTool, shapeConfig);
      selectedShape := s;
      Repr := Repr + {s};
    }

    /** Drop the current selection, clearing its active handle. */
    method Deselect()
      requires Valid()
      modifies this`selectedShape, (if selectedShape == null then {} else {selectedShape})`activeHandle
      ensures Valid() && selectedShape == null && Snapshot() == old(Snapshot())
      ensures old(selectedShape) != null ==> old(selectedShape).activeHandle == None
      ensures forall j :: 0 <= j < |shapes| && shapes[j].shape != old(selectedShape) ==>
                shapes[j].shape.activeHandle == old(shapes[j].shape.activeHandle)
    {
      if selectedShape != null {
        selectedShape.CloseResize();
        selectedShape := null;
      }
    }

    /** Select entry `k` and activate the handle of it that holds `pos`, if any. */
    method Activate(k: nat, pos: Point)
      requires Valid() && k < |shapes|
      modifies this`selectedShape, this`isResizing, shapes[k].shape`resizeHandles, shapes[k].shape`activeHandle
      ensures Valid() && Snapshot() == old(Snapshot())
      ensures selectedShape == shapes[k].shape
      ensures selectedShape.resizeHandles == selectedShape.Handles()
      ensures selectedShape.activeHandle == Choose(old(shapes[k].shape.activeHandle), selectedShape.resizeHandles, pos)
      ensures isResizing == (old(isResizing) || selectedShape.activeHandle.Some?)
      ensures forall j :: 0 <= j < |shapes| && j != k ==> shapes[j].shape.activeHandle == old(shapes[j].shape.activeHandle)
    {
      var target := shapes[k].shape;
      ghost var forms := Snapshot();
      selectedShape := target;
      var h := target.CheckForResize(pos);
      assert forall j :: 0 <= j < |shapes| ==> shapes[j].shape.GetProperties() == forms[j];
      if h.Some? {
        isResizing := true;
      }
    }

    /**
     * The cursor branch of `mouseDown` once the selection is dropped: select
     * the first shape hit at `pos` and start a resize if one of its handles
     * holds `pos`.
     */
    method SelectFirstHit(pos: Point, ghost prev: Shape?)
      requires Valid() && selectedShape == null
      modifies this`selectedShape, this`isResizing, Objects(shapes)
      ensures Valid() && Snapshot() == old(Snapshot())
      ensures prev != null && prev != selectedShape ==> prev.activeHandle == old(prev.activeHandle)
      ensures forall j :: 0 <= j < |shapes| && shapes[j].shape != selectedShape ==>
                && shapes[j].shape.activeHandle == old(shapes[j].shape.activeHandle)
                && shapes[j].shape.resizeHandles == old(shapes[j].shape.resizeHandles)
      ensures var k := FirstHit(Snapshot(), pos);
              && (k.None? ==> selectedShape == null && isResizing == old(isResizing))
              && (k.Some? ==> selectedShape == shapes[k.value].shape)
      ensures selectedShape != null ==>
                var s := selectedShape;
                && s.resizeHandles == s.Handles()
                && s.activeHandle == Choose(old(s.activeHandle), s.resizeHandles, pos)
                && isResizing == (old(isResizing) || s.activeHandle.Some?)
                && (s.kind == PencilKind ==>
                      s.minPoint == Pencils.BoxMin(s.strokes) && s.maxPoint == Pencils.BoxMax(s.strokes))
    {
      var k := FindTarget(pos, prev);
      if k.Some? {
        ghost var target := shapes[k.value].shape;
        assert target.activeHandle == old(target.activeHandle);
        assert target.kind == PencilKind ==>
                 target.minPoint == Pencils.BoxMin(target.strokes) && target.maxPoint == Pencils.BoxMax(target.strokes);
        Activate(k.value, pos);
      }
    }

    /**
     * The cursor branch of `mouseDown`: drop the current selection and its
     * active handle, select the first shape hit at `pos`, and start a resize
     * if one of its handles holds `pos`.
     */
    method SelectAt(pos: Point)
      requires Valid()
      modifies this`selectedShape, this`isResizing, Objects(shapes)
      modifies (if selectedShape == null then {} else {selectedShape})`activeHandle
      ensures Valid() && Repr == old(Repr)
      ensures shapes == old(shapes) && Snapshot() == old(Snapshot()) && outbox == old(outbox)
      ensures currentTool == old(currentTool) && shapeConfig == old(shapeConfig)
      ensures offset == old(offset) && scale == old(scale) && startCoordinates == old(startCoordinates)
      ensures isDrawing == old(isDrawing) && isPanning == old(isPanning)
      ensures old(selectedShape) != null && old(selectedShape) != selectedShape ==>
                old(selectedShape).activeHandle == None
      ensures forall j :: 0 <= j < |shapes| && shapes[j].shape != selectedShape ==>
                && (shapes[j].shape != old(selectedShape) ==> shapes[j].shape.activeHandle == old(shapes[j].shape.activeHandle))
                && shapes[j].shape.resizeHandles == old(shapes[j].shape.resizeHandles)
      ensures var k := FirstHit(Snapshot(), pos);
              && (k.None? ==> selectedShape == null && isResizing == old(isResizing))
              && (k.Some? ==> selectedShape == shapes[k.value].shape)
      ensures selectedShape != null ==>
                var s := selectedShape;
                && s.resizeHandles == s.Handles()
                && s.activeHandle == Choose(if s == old(selectedShape) then None else old(s.activeHandle), s.resizeHandles, pos)
                && isResizing == (old(isResizing) || s.activeHandle.Some?)
                && (s.kind == PencilKind ==>
                      s.minPoint == Pencils.BoxMin(s.strokes) && s.maxPoint == Pencils.BoxMax(s.strokes))
    {
      ghost var prev := selectedShape;
      Deselect();
      label Deselected:
      SelectFirstHit(pos, prev);
      if selectedShape != null {
        ghost var s := selectedShape;
        assert s == shapes[FirstHit(Snapshot(), pos).value].shape;
        assert old@Deselected(s.activeHandle) == if s == prev then None else old(s.activeHandle);
      }
    }

    /**
     * `mouseDown`: a drawing tool starts a fresh shape at the pointer; the
     * hand starts a pan; the cursor drops the current selection, selects the
     * first shape under the pointer and activates the handle under it, if any.
     */
    method MouseDown(client: Point)
      requires Valid()
      modifies this, if currentTool == Cursor then Objects(shapes) else {}
      modifies (if currentTool != Cursor || selectedShape == null then {} else {selectedShape})`activeHandle
      ensures Valid() && fresh(Repr - old(Repr))
      ensures shapes == old(shapes) && Snapshot() == old(Snapshot()) && outbox == old(outbox)
      ensures currentTool == old(currentTool) && shapeConfig == old(shapeConfig)
      ensures offset == old(offset) && scale == old(scale)
      ensures currentTool.Draws() ==>
                && isDrawing && isPanning == old(isPanning) && isResizing == old(isResizing)
                && startCoordinates == ToModel(client, offset, scale)
                && selectedShape != null && fresh(selectedShape) && selectedShape.Fresh()
                && selectedShape.kind == currentTool.ShapeKind()
                && selectedShape.id == (if currentTool == PencilTool then PencilCtorId(shapeConfig) else Num(0))
                && (currentTool != PencilTool ==> selectedShape.config == shapeConfig)
      ensures currentTool == Hand ==>
                && isPanning && startCoordinates == client
                && selectedShape == old(selectedShape)
                && isDrawing == old(isDrawing) && isResizing == old(isResizing)
      ensures currentTool == Cursor ==>
                && startCoordinates == old(startCoordinates)
                && isDrawing == old(isDrawing) && isPanning == old(isPanning)
                && (old(selectedShape) != null && old(selectedShape) != selectedShape ==>
                      old(selectedShape).activeHandle == None)
                && (forall j :: 0 <= j < |shapes| && shapes[j].shape != selectedShape ==>
                      && (shapes[j].shape != old(selectedShape) ==> shapes[j].shape.activeHandle == old(shapes[j].shape.activeHandle))
                      && shapes[j].shape.resizeHandles == old(shapes[j].shape.resizeHandles))
      ensures currentTool == Cursor ==>
                var k := FirstHit(Snapshot(), ToModel(client, offset, scale));
                && (k.None? ==> selectedShape == null && isResizing == old(isResizing))
                && (k.Some? ==> selectedShape == shapes[k.value].shape)
      ensures currentTool == Cursor && selectedShape != null ==>
                var s := selectedShape;
                && s.resizeHandles == s.Handles()
                && s.activeHandle == Choose(if s == old(selectedShape) then None else old(s.activeHandle),
                                            s.resizeHandles, ToModel(client, offset, scale))
                && isResizing == (old(isResizing) || s.activeHandle.Some?)
                && (s.kind == PencilKind ==>
                      s.minPoint == Pencils.BoxMin(s.strokes) && s.maxPoint == Pencils.BoxMax(s.strokes))
    {
      var pos := ToModel(client, offset, scale);
      if currentTool.Draws() {
        StartShape(pos);
      } else if currentTool == Hand {
        startCoordinates := client;
        isPanning := true;
      } else {
        SelectAt(pos);
      }
    }

    /**
     * `mouseMove`: while panning, shift the view by the pointer's travel;
     * otherwise, while drawing or resizing, reshape the selected shape towards
     * the pointer's model position.
     */
    method MouseMove(client: Point)
      requires Valid()
      modifies this`offset, this`startCoordinates, if isPanning || !(isDrawing || isResizing) then {} else {selectedShape}
      ensures Valid() && Repr == old(Repr)
      ensures shapes == old(shapes) && outbox == old(outbox) && selectedShape == old(selectedShape)
      ensures isDrawing == old(isDrawing) && isResizing == old(isResizing) && isPanning == old(isPanning)
      ensures currentTool == old(currentTool) && scale == old(scale)
      ensures isPanning ==>
                && offset == Point(old(offset.x) + client.x - old(startCoordinates.x),
                                   old(offset.y) + client.y - old(startCoordinates.y))
                && client.x - offset.x == old(startCoordinates.x - offset.x)
                && client.y - offset.y == old(startCoordinates.y - offset.y)
                && startCoordinates == client && Snapshot() == old(Snapshot())
      ensures !isPanning ==> offset == old(offset) && startCoordinates == old(startCoordinates)
      ensures !isPanning && selectedShape != null && (isDrawing || isResizing) ==>
                && selectedShape.GetProperties()
                   == Reshape(old(selectedShape.GetProperties()), old(selectedShape.ActivePosition()),
                              startCoordinates, ToModel(client, offset, scale))
                && selectedShape.activeHandle == old(selectedShape.activeHandle)
                && KeptCaches(selectedShape, old(selectedShape.activeHandle), old(selectedShape.resizeHandles),
                              old(selectedShape.minPoint), old(selectedShape.maxPoint))
                && forall j :: 0 <= j < |shapes| && shapes[j].shape != selectedShape ==>
                     Snapshot()[j] == old(Snapshot())[j]
      ensures !isPanning && (selectedShape == null || !(isDrawing || isResizing)) ==>
                Snapshot() == old(Snapshot())
    {
      if isPanning {
        offset := Point(offset.x + (client.x - startCoordinates.x), offset.y + (client.y - startCoordinates.y));
        startCoordinates := client;
        return;
      }
      if selectedShape == null {
        return;
      }
      var pos := ToModel(client, offset, scale);
      if isDrawing || isResizing {
        selectedShape.Update(startCoordinates, pos);
      }
    }

    /**
     * `mouseUp`: end a pan; send a finished drawing as a CHAT frame and return
     * to the cursor; send a finished resize as an UPDATE frame with the
     * shape's id and drop its active handle. Either way the selection clears.
     */
    method MouseUp()
      requires Valid()
      modifies this`isPanning, this`outbox, this`isDrawing, this`isResizing, this`selectedShape, this`currentTool
      modifies (if selectedShape == null then {} else {selectedShape})`activeHandle
      ensures Valid() && Repr == old(Repr)
      ensures shapes == old(shapes) && Snapshot() == old(Snapshot())
      ensures offset == old(offset) && scale == old(scale) && startCoordinates == old(startCoordinates)
      ensures old(isPanning) ==>
                && !isPanning && outbox == old(outbox) && selectedShape == old(selectedShape)
                && isDrawing == old(isDrawing) && isResizing == old(isResizing) && currentTool == old(currentTool)
      ensures !old(isPanning) ==> !isPanning
      ensures !old(isPanning) && old(selectedShape) != null && old(isDrawing) ==>
                && outbox == old(outbox) + [OutChat(roomId, old(selectedShape.GetProperties()))]
                && !isDrawing && isResizing == old(isResizing)
                && selectedShape == null && currentTool == Cursor
      ensures !old(isPanning) && old(selectedShape) != null && !old(isDrawing) && old(isResizing) ==>
                && outbox == old(outbox) + [OutUpdate(roomId, old(selectedShape).id, old(selectedShape.GetProperties()))]
                && !isResizing && !isDrawing && old(selectedShape).activeHandle == None
                && selectedShape == null && currentTool == old(currentTool)
      ensures !old(isPanning) && old(isResizing) && !old(isDrawing) ==>
                forall j :: 0 <= j < |shapes| && shapes[j].shape == old(selectedShape) ==>
                  outbox[|outbox| - 1] == OutUpdate(roomId, Num(shapes[j].record.id), Snapshot()[j])
      ensures !old(isPanning) && (old(selectedShape) == null || (!old(isDrawing) && !old(isResizing))) ==>
                && outbox == old(outbox) && selectedShape == old(selectedShape)
                && isDrawing == old(isDrawing) && isResizing == old(isResizing) && currentTool == old(currentTool)
    {
      if isPanning {
        isPanning := false;
        return;
      }
      if selectedShape == null {
        return;
      }
      if isDrawing {
        FinishDrawing();
      } else if isResizing {
        FinishResize();
      }
    }

    /** The drawing branch of `mouseUp`: send the finished shape in a CHAT frame, clear the selection, back to the cursor. */
    method FinishDrawing()
      requires Valid() && selectedShape != null
      modifies this`outbox, this`isDrawing, this`selectedShape, this`currentTool
      ensures Valid()
      ensures outbox == old(outbox) + [OutChat(roomId, old(selectedShape.GetProperties()))]
      ensures !isDrawing && selectedShape == null && currentTool == Cursor
    {
      outbox := outbox + [OutChat(roomId, selectedShape.GetProperties())];
      isDrawing := false;
      selectedShape := null;
      SetTool(Cursor);
    }

    /** The resize branch of `mouseUp`: send the shape's id and new geometry in an UPDATE frame, drop its active handle, clear the selection. */
    method FinishResize()
      requires Valid() && selectedShape != null
      modifies this`outbox, this`isResizing, this`selectedShape, selectedShape`activeHandle
      ensures Valid() && Snapshot() == old(Snapshot())
      ensures outbox == old(outbox) + [OutUpdate(roomId, old(selectedShape).id, old(selectedShape.GetProperties()))]
      ensures !isResizing && old(selectedShape).activeHandle == None && selectedShape == null
    {
      outbox := outbox + [OutUpdate(roomId, selectedShape.id, selectedShape.GetProperties())];
      isResizing := false;
      selectedShape.CloseResize();
      selectedShape := null;
    }

    /**
     * `deleteShape`: ask the room to delete the selected shape by its id and
     * clear the selection. The local collection keeps the shape until a
     * DELETE frame comes back.
     */
    method DeleteShape()
      requires Valid()
      modifies this`outbox, this`selectedShape
      ensures Valid() && Repr == old(Repr) && selectedShape == null
      ensures shapes == old(shapes) && Snapshot() == old(Snapshot())
      ensures old(selectedShape) != null ==> outbox == old(outbox) + [OutDelete(roomId, old(selectedShape).id)]
      ensures old(selectedShape) == null ==> outbox == old(outbox)
      ensures currentTool == old(currentTool) && scale == old(scale) && offset == old(offset)
      ensures isDrawing == old(isDrawing) && isResizing == old(isResizing) && isPanning == old(isPanning)
    {
      if selectedShape != null {
        outbox := outbox + [OutDelete(roomId, selectedShape.id)];
        selectedShape := null;
      }
    }

    /** `setTool`: only the tool changes (the cursor style follows it on screen). */
    method SetTool(tool: Tool)
      modifies this`currentTool
      ensures currentTool == tool
    {
      currentTool := tool;
    }

    /**
     * `zoom(delta, event)`: step the scale and move the offset so that the
     * model point under the pointer stays put; without a pointer the anchor
     * is half the canvas size at the new scale.
     */
    method Zoom(delta: real, pointer: Option<Point>, canvas: Point)
      requires Valid()
      modifies this`scale, this`offset
      ensures Valid()
      ensures scale == ZoomedScale(old(scale), delta)
      ensures offset == ZoomOffset(old(offset), pointer, canvas, old(scale), scale)
      ensures pointer.Some? ==>
                && (pointer.value.x - offset.x) / scale == (pointer.value.x - old(offset.x)) / old(scale)
                && (pointer.value.y - offset.y) / scale == (pointer.value.y - old(offset.y)) / old(scale)
    {
      var oldScale := scale;
      scale := ZoomedScale(scale, delta);
      offset := ZoomOffset(offset, pointer, canvas, oldScale, scale);
    }

    /** `resetScale`: back to scale 1; the offset is left as it is. */
    method ResetScale()
      requires Valid()
      modifies this`scale
      ensures Valid() && scale == 1.0
    {
      scale := 1.0;
    }

    /** The shape an UPDATE frame for record id `id` may reshape: the first entry with that id, if any. */
    ghost function UpdateTarget(id: int): (t: set<Shape>)
      reads this`shapes
      ensures forall u :: u in t ==> u in Objects(shapes)
    {
      var k := FirstIndexOf(RecordIds(shapes), id);
      if k.Some? then {shapes[k.value].shape} else {}
    }

    /**
     * An UPDATE frame: the first entry whose record id matches takes the new
     * geometry, keeping its own style. Frames for an unknown id, and frames
     * whose kind differs from the entry's, change nothing.
     */
    method ApplyUpdate(rec: ChatRecord)
      requires Valid()
      modifies UpdateTarget(rec.id)
      ensures Valid() && Repr == old(Repr) && shapes == old(shapes)
      ensures selectedShape == old(selectedShape) && currentTool == old(currentTool) && outbox == old(outbox)
      ensures isDrawing == old(isDrawing) && isResizing == old(isResizing) && isPanning == old(isPanning)
      ensures offset == old(offset) && scale == old(scale)
      ensures var k := FirstIndexOf(RecordIds(shapes), rec.id);
              && (k.None? ==> Snapshot() == old(Snapshot()))
              && (k.Some? && rec.message.Kind() == shapes[k.value].shape.kind ==>
                    Snapshot() == old(Snapshot())[k.value := rec.message.WithConfig(shapes[k.value].shape.config)])
              && (k.Some? && rec.message.Kind() != shapes[k.value].shape.kind ==>
                    Snapshot() == old(Snapshot()))
      ensures forall t :: t in UpdateTarget(rec.id) ==> KeptCaches(t, old(t.activeHandle), old(t.resizeHandles), old(t.minPoint), old(t.maxPoint))
    {
      var k := FirstIndexOf(RecordIds(shapes), rec.id);
      if k.Some? && rec.message.Kind() == shapes[k.value].shape.kind {
        var target := shapes[k.value].shape;
        ghost var forms := Snapshot();
        target.UpdateProperties(rec.message);
        assert forall j :: 0 <= j < |shapes| && j != k.value ==> shapes[j].shape != target;
        assert forall j :: 0 <= j < |shapes| && j != k.value ==> shapes[j].shape.GetProperties() == forms[j];
      }
    }

    /** A DELETE frame: the first entry whose record id matches leaves the collection. */
    method ApplyDelete(rec: ChatRecord)
      requires Valid()
      modifies this`shapes
      ensures Valid()
      ensures var k := FirstIndexOf(RecordIds(old(shapes)), rec.id);
              && (k.None? ==> shapes == old(shapes) && Snapshot() == old(Snapshot()))
              && (k.Some? ==> shapes == RemoveAt(old(shapes), k.value)
                              && Snapshot() == RemoveAt(old(Snapshot()), k.value))
    {
      var k := FirstIndexOf(RecordIds(shapes), rec.id);
      if k.Some? {
        RemoveKeepsEntries(shapes, k.value, Repr);
        FormsRemoveAt(shapes, k.value);
        shapes := RemoveAt(shapes, k.value);
      }
    }

    /**
     * The socket's `onmessage`: a CHAT frame appends its record; an UPDATE
     * frame gives the first entry with its id the new geometry; a DELETE
     * frame removes the first entry with its id; anything else changes
     * nothing. The selection, tool and view are never touched.
     */
    method OnMessage(msg: Inbound)
      requires Valid()
      modifies this`shapes, this`Repr, if msg.InUpdate? then UpdateTarget(msg.record.id) else {}
      ensures Valid() && fresh(Repr - old(Repr))
      ensures selectedShape == old(selectedShape) && currentTool == old(currentTool) && outbox == old(outbox)
      ensures isDrawing == old(isDrawing) && isResizing == old(isResizing) && isPanning == old(isPanning)
      ensures offset == old(offset) && scale == old(scale)
      ensures msg.InChat? ==>
                && Records(shapes) == Records(old(shapes)) + [msg.record]
                && Snapshot() == old(Snapshot()) + [msg.record.message]
      ensures msg.InUpdate? ==>
                var k := FirstIndexOf(RecordIds(old(shapes)), msg.record.id);
                && shapes == old(shapes)
                && (k.None? ==> Snapshot() == old(Snapshot()))
                && (k.Some? && msg.record.message.Kind() == shapes[k.value].shape.kind ==>
                      Snapshot() == old(Snapshot())[k.value := msg.record.message.WithConfig(shapes[k.value].shape.config)])
                && (k.Some? && msg.record.message.Kind() != shapes[k.value].shape.kind ==>
                      Snapshot() == old(Snapshot()))
      ensures msg.InDelete? ==>
                var k := FirstIndexOf(RecordIds(old(shapes)), msg.record.id);
                && (k.None? ==> shapes == old(shapes) && Snapshot() == old(Snapshot()))
                && (k.Some? ==> shapes == RemoveAt(old(shapes), k.value)
                                && Snapshot() == RemoveAt(old(Snapshot()), k.value))
      ensures msg.InError? || msg.InOther? ==> shapes == old(shapes) && Snapshot() == old(Snapshot())
      ensures msg.InUpdate? ==>
                forall t :: t in old(UpdateTarget(msg.record.id)) ==>
                  KeptCaches(t, old(t.activeHandle), old(t.resizeHandles), old(t.minPoint), old(t.maxPoint))
    {
      match msg {
        case InChat(rec) =>
          AddRecord(rec);
        case InUpdate(rec) =>
          ApplyUpdate(rec);
        case InDelete(rec) =>
          ApplyDelete(rec);
        case InError(_) =>
        case InOther =>
      }
    }
  }
}
