/**
 * Resize handles (the `ResizeHandle` record of the front end) and the box
 * test that decides whether a point is "under" one.
 */
module Handles {
  import opened Wrappers
  import opened Geometry

  datatype Position = TopLeft | TopRight | BottomLeft | BottomRight | Full

  datatype Handle = Handle(x: real, y: real, width: real, height: real, cursor: string, position: Position)

  /** Every handle a shape lays out is an 8 by 8 box. */
  function Square(x: real, y: real, cursor: string, position: Position): Handle {
    Handle(x, y, 8.0, 8.0, cursor, position)
  }

  /** The handle box test: inclusive, and a box rather than a disc. */
  predicate Covers(h: Handle, p: Point) {
    Abs(p.x - h.x) <= h.width && Abs(p.y - h.y) <= h.height
  }

  /** The index of the first handle in list order that covers `p`. */
  function FirstCovering(hs: seq<Handle>, p: Point): (r: Option<nat>)
    ensures r.Some? ==> r.value < |hs| && Covers(hs[r.value], p)
    ensures r.Some? ==> forall j :: 0 <= j < r.value ==> !Covers(hs[j], p)
    ensures r.None? <==> forall j :: 0 <= j < |hs| ==> !Covers(hs[j], p)
  {
    if hs == [] then None
    else if Covers(hs[0], p) then Some(0)
    else
      match FirstCovering(hs[1..], p)
      case None => None
      case Some(k) => Some(k + 1)
  }

  /**
   * The handle that is active after `checkForResize`: an already active
   * handle stays, otherwise the first covering handle becomes active.
   */
  function Choose(prior: Option<Handle>, hs: seq<Handle>, p: Point): (r: Option<Handle>)
    ensures prior.Some? ==> r == prior
    ensures prior.None? && r.None? ==> forall j :: 0 <= j < |hs| ==> !Covers(hs[j], p)
    ensures prior.None? && r.Some? ==>
              exists i :: 0 <= i < |hs| && hs[i] == r.value && Covers(hs[i], p) &&
                          forall j :: 0 <= j < i ==> !Covers(hs[j], p)
  {
    if prior.Some? then prior
    else
      match FirstCovering(hs, p)
      case None => None
      case Some(i) => Some(hs[i])
  }

  /**
   * Scanning one more handle: once a handle is chosen later handles are
   * ignored, and otherwise the new handle is taken exactly when it covers `p`.
   */
  lemma {:induction false} ChooseExtend(prior: Option<Handle>, hs: seq<Handle>, h: Handle, p: Point)
    ensures Choose(prior, hs + [h], p) ==
              if Choose(prior, hs, p).Some? then Choose(prior, hs, p)
              else if Covers(h, p) then Some(h) else None
  {
    if prior.None? {
      var ext := hs + [h];
      assert forall j :: 0 <= j < |hs| ==> ext[j] == hs[j];
      match FirstCovering(hs, p)
      case Some(k) =>
        var r := FirstCovering(ext, p);
        assert Covers(ext[k], p);
        assert r.Some? && r.value == k;
      case None =>
        assert ext[|hs|] == h;
        if Covers(h, p) {
          assert FirstCovering(ext, p) == Some(|hs|);
        }
    }
  }
}
