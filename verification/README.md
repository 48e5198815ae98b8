# Collaborative whiteboard: shape engine, controller and room registry

This project models the core of a real-time collaborative drawing board.

- **Shapes.** Rectangles, circles, lines and freehand strokes are editable objects. They are hit-tested, and they are moved and resized through small square handles.
- **Controller.** A per-client controller (`Game`) turns pointer events into drawing, selection, resizing, panning and zooming. It sends CHAT, UPDATE and DELETE frames to its room. It applies the frames that come back to its local, ordered collection of persisted shapes.
- **Room registry.** The WebSocket server keeps a map from room id to the users connected to that room. It appends on JOIN_ROOM, filters on LEAVE_ROOM, and on CHAT persists the message and broadcasts it to every member.

## Layout

| file | module | contents |
|---|---|---|
| `wrappers.dfy` | `Wrappers` | `Option`, standing for JavaScript's `null`/`undefined` results |
| `geometry.dfy` | `Geometry` | points; squared distances; integer square root; agreement of `sqrt` comparisons with squared comparisons |
| `handles.dfy` | `Handles` | the handle record, the inclusive box test, first-match handle picking |
| `wire.dfy` | `Wire` | the wire form of a shape (`ShapeType`) with its style and id values |
| `rectangle.dfy`, `circle.dfy`, `line.dfy`, `pencil.dfy` | `Rectangles`, `Circles`, `Lines`, `Pencils` | per-kind hit test, drag, handle transforms and handle layout, as functions on the wire form |
| `shape.dfy` | `Shapes` | the mutable `Shape` class (Shape.ts and its four subclasses) |
| `game.dfy` | `Client` | the `Game` controller class |
| `server.dfy` | `WsServer` | the `Registry` class and the pure transition function it follows |

### Modelling choices

- **Numbers are `real`.**
  - Pointer positions reach the shapes floored to integers.
  - Halving and the line projection produce exact fractions.
  - Every `Math.sqrt` comparison is stated on squared distances. `Geometry.RootBelow` and `Geometry.RootAtMost` prove this agrees with the comparison of the root.
  - The circle radius `Math.floor(Math.sqrt(d²))` is the integer `r` with `r² <= d² < (r+1)²`.
- **One `Shape` class for all four kinds.**
  - It has a constant `kind` and the union of the subclasses' fields.
  - Each method branches on `kind` exactly as the corresponding subclass method does.
  - Each method is proved equal to the per-kind function on the wire form.
- **The style object (`Config`) is carried through unchanged.** `NoConfig` stands for the `undefined` that a freehand wire form yields as its style.
  - The subclass constructors pass their style to `super(ctx, shapeConfig)`, but the `Shape` constructor takes only `ctx` (Shape.ts:10-12), and no code assigns `this.shapeConfig`. As written, the `config` that `getProperties` returns and the style that rendering spreads are therefore `undefined`.
  - The model stores the constructor's style as the constant `Shape.config` and puts it in the wire form. See "## Left out".
- **Shape ids are the `Id` type.** The freehand constructor's second parameter is its id. The drawing code passes a style object there (Game.ts:184), so `Id` also has a case holding a style.
- **Sends, persistence calls and closes are ghost logs.**
  - The client's frames go to `Game.outbox`.
  - The server's sends, closes and persistence calls go to `Registry.log`.
- **Oracles are parameters.** The token check, the room lookup and the outcome of persisting a chat are passed in as values.

### Behaviour of the code that the model keeps

- **UPDATE and DELETE frames on the server.** The server's `switch` handles only JOIN_ROOM, LEAVE_ROOM and CHAT. UPDATE and DELETE frames are ignored: nothing is persisted and nothing is broadcast (`WsServer.Registry.HandleMessage`, `WsServer.NextRooms`).
- **Disconnects.** There is no close handler, so nothing but LEAVE_ROOM removes a user (`WsServer.OnlyLeaveRemoves`).
- **Rectangle handles.** Two handles are laid out: move and bottom-right (`Rectangles.Layout`).
- **Selection after a resize.** The selection is cleared after a resize ends (`Client.Game.MouseUp`).
- **Degenerate shapes.** A zero-size shape is still sent at the end of a drawing gesture (`Client.Game.MouseUp`).
- **Invalid token.** The socket gets the text "Invalid token." and is closed; no ERROR frame is sent (`WsServer.Registry.Connect`).
- **Unknown room id on join.** The socket is closed, but the user is still appended (`WsServer.JoinUnknownRoomStillAppends`).
- **A stale resize flag.** Pointer-down with the cursor only ever sets `isResizing`; only pointer-up clears it. If a pointer-up is lost, the next click on a shape keeps `isResizing` set even when no handle is under the pointer (`Client.Game.SelectAt`: `isResizing == old(isResizing) || …`). Pointer moves then reshape that shape from the stale start point (`Client.Game.MouseMove`), and the next pointer-up sends an UPDATE for it (`Client.Game.MouseUp`).
- **The stroke box includes the sentinels.** The box starts from +100000/-100000 and the points are folded into it, so a stroke lying wholly right of x = 100000 still has `minPoint.x == 100000` (`Pencils.FarStrokeReachesSentinel`, `Pencils.FarStrokeHitExample`).

## Model

| member | source | states |
|---|---|---|
| Geometry.IntSqrt | apps/frontend/draw/Circle.ts:40-45 | the result is the integer square root: `r*r <= n < (r+1)*(r+1)` |
| Geometry.FloorSqrt | apps/frontend/draw/Circle.ts:40-45 | `Math.floor(Math.sqrt(d))` as the whole number `r >= 0` with `r² <= d < (r+1)²` |
| Geometry.RootBelow | apps/frontend/draw/Circle.ts:81-85 | for a root `s` of `d`, `s < bound` iff `bound > 0` and `d < bound²`; the strict radius test may be done on squares |
| Geometry.RootAtMost | apps/frontend/draw/Line.ts:100-104 | for a root `s` of `d` and `bound >= 0`, `s <= bound` iff `d <= bound²`; the line tolerance test may be done on squares |
| Handles.FirstCovering | apps/frontend/draw/Shape.ts:57-61 | the index of the first handle whose inclusive box holds the point, with no earlier handle covering it; none exactly when no handle covers it |
| Handles.Choose | apps/frontend/draw/Shape.ts:17-27 | an already active handle is kept whatever the point; otherwise the first covering handle in list order becomes active, or none if no handle covers the point |
| Handles.ChooseExtend | apps/frontend/draw/Shape.ts:17-27 | one more `forEach` step: appending a handle changes the choice only when nothing was chosen and the new handle covers the point |
| Rectangles.HitIffBetween | apps/frontend/draw/Rectangle.ts:81-97 | a point is selected iff each coordinate lies between the anchor and the far corner, in either order, so negative width or height works |
| Rectangles.CornersAndCentreHit | apps/frontend/draw/Rectangle.ts:81-97 | both corners and the centre of any rectangle, degenerate ones included, are selected |
| Rectangles.HitExample | apps/frontend/draw/Rectangle.ts:81-97 | the rectangle at (0,0) of size 100×50 holds (50,25) but not (150,25) |
| Rectangles.Drag | apps/frontend/draw/Rectangle.ts:37-44 | with no active handle the anchor is the drag start and the far corner is the cursor (signed size); the style is kept |
| Rectangles.Move | apps/frontend/draw/Rectangle.ts:25-31 | the move handle keeps width and height and puts the centre on the cursor |
| Rectangles.MoveTranslates | apps/frontend/draw/Rectangle.ts:25-31 | moving the centre by a delta moves the anchor by exactly that delta and keeps the size |
| Rectangles.Resize | apps/frontend/draw/Rectangle.ts:32-35 | the bottom-right handle keeps the anchor and puts the far corner on the cursor |
| Rectangles.ApplyHandle | apps/frontend/draw/Rectangle.ts:23-36 | any handle position other than move and bottom-right leaves the rectangle unchanged |
| Rectangles.Layout | apps/frontend/draw/Rectangle.ts:100-119 | exactly two 8×8 handles, move then bottom-right; the second at the far corner, the first midway between anchor and far corner |
| Circles.HitMatchesRoot | apps/frontend/draw/Circle.ts:80-91 | the squared hit test agrees with `distance < radius` for the true distance |
| Circles.DegenerateNeverHit | apps/frontend/draw/Circle.ts:80-91 | a circle of radius 0 (or less) is never selected |
| Circles.CentreHitIffPositive | apps/frontend/draw/Circle.ts:80-91 | the centre is selected iff the radius is positive |
| Circles.HitMonotone | apps/frontend/draw/Circle.ts:80-91 | enlarging the radius keeps every selected point selected |
| Circles.FlooredDistance | apps/frontend/draw/Circle.ts:29-34 | the radius assigned from a pointer is a non-negative integer `r` with `r² <= d² < (r+1)²` |
| Circles.Drag | apps/frontend/draw/Circle.ts:38-45 | with no active handle the centre is the drag start and the radius the floored distance to the cursor |
| Circles.Move | apps/frontend/draw/Circle.ts:24-27 | the move handle puts the centre on the cursor and keeps the radius |
| Circles.Resize | apps/frontend/draw/Circle.ts:28-34 | the bottom-right handle keeps the centre and sets the radius to the floored distance from the centre to the cursor |
| Circles.ApplyHandle | apps/frontend/draw/Circle.ts:22-36 | any other handle position leaves the circle unchanged |
| Circles.PointerNotInside | apps/frontend/draw/Circle.ts:28-34 | right after a radius is set from the pointer, the pointer itself is not strictly inside the circle |
| Circles.Layout | apps/frontend/draw/Circle.ts:93-112 | two 8×8 handles: move at the centre, then bottom-right at (x + radius, y) |
| Circles.ResizeHandleOnRim | apps/frontend/draw/Circle.ts:103-110 | the resize handle lies on the rim: its squared distance to the centre is the radius squared |
| Lines.Param | apps/frontend/draw/Line.ts:93 | the projection parameter is clamped into [0, 1] |
| Lines.Nearest | apps/frontend/draw/Line.ts:89-98 | the clamped projection is the point of the segment nearest to the pointer |
| Lines.HitIffNearSegment | apps/frontend/draw/Line.ts:84-109 | a line is selected iff it has non-zero length and some point of the segment is within 10 of the pointer (a zero-length line, where the source divides by zero, is never selected) |
| Lines.SegmentPointsHit | apps/frontend/draw/Line.ts:84-109 | every point of a non-degenerate segment, endpoints included, is selected |
| Lines.MoveHandleSelects | apps/frontend/draw/Line.ts:111-120 | the move handle sits on the segment, so pressing its centre selects the line |
| Lines.HitExample | apps/frontend/draw/Line.ts:84-109 | the unstyled segment (0,0)–(100,0) holds (50,9) but not (50,20) |
| Lines.Drag | apps/frontend/draw/Line.ts:43-47 | with no active handle the line runs from the drag start to the cursor |
| Lines.Move | apps/frontend/draw/Line.ts:25-33 | the move handle keeps the direction vector and puts the midpoint on the cursor |
| Lines.MoveStart | apps/frontend/draw/Line.ts:34-37 | the top-left handle moves the start to the cursor and keeps the end |
| Lines.MoveEnd | apps/frontend/draw/Line.ts:38-41 | the top-right handle moves the end to the cursor and keeps the start |
| Lines.ApplyHandle | apps/frontend/draw/Line.ts:23-42 | any handle position other than move, top-left and top-right leaves the line unchanged |
| Lines.Layout | apps/frontend/draw/Line.ts:111-138 | three 8×8 handles: move at the midpoint, top-left at the start, top-right at the end |
| Pencils.BoxBounds | apps/frontend/draw/Pencil.ts:51-61 | the box is exactly the componentwise min and max of the points and the ±100000 sentinels: each corner is beyond its sentinel and every point, and each corner is the sentinel or some point's coordinate |
| Pencils.HitOnlyWithinPoints | apps/frontend/draw/Pencil.ts:76-95 | a click selects a stroke only if, on each axis and each side, some point (or the sentinel) lies between the click and the box edge |
| Pencils.FarStrokeReachesSentinel | apps/frontend/draw/Pencil.ts:51-61 | a stroke with every point at x >= 100000 gets `minPoint.x == 100000` |
| Pencils.FarStrokeHitExample | apps/frontend/draw/Pencil.ts:76-95 | a click at (150000, 0) selects the stroke whose only point is (200000, 0) |
| Pencils.HitStrokes | apps/frontend/draw/Pencil.ts:76-95 | every stroke point selects the stroke; a stroke with no points is never selected |
| Pencils.Append | apps/frontend/draw/Pencil.ts:29-31 | drawing appends the cursor: one point longer, earlier points unchanged |
| Pencils.Translate | apps/frontend/draw/Pencil.ts:19-28 | the move handle puts the first point on the cursor, keeps the length and every pairwise difference |
| Pencils.Layout | apps/frontend/draw/Pencil.ts:97-108 | one 8×8 move handle, equidistant from the two box corners on each axis |
| Pencils.HandleInsideBox | apps/frontend/draw/Pencil.ts:97-108 | for a non-empty stroke the move handle lies inside its box, so it selects the stroke |
| Pencils.EmptyHandleAtOrigin | apps/frontend/draw/Pencil.ts:51-53 | for an empty stroke the sentinel box puts the handle at the origin |
| Shapes.Reshape | apps/frontend/draw/Pencil.ts:18-33 | one `update` on any kind keeps kind and style; a stroke with no handle gets the cursor appended; a non-move handle leaves a stroke unchanged |
| Shapes.Shape.GetProperties | apps/frontend/draw/Rectangle.ts:61-72 | the wire form has the object's kind and carries its style; a stroke's wire form (Pencil.ts:63-70) is its points and carries no style |
| Shapes.Shape.Handles | apps/frontend/draw/Line.ts:111-138 | every kind's layout is non-empty and starts with the move handle |
| Shapes.Shape.Rectangle | apps/frontend/draw/Rectangle.ts:11-20 | a rectangle object with the given style and id, zero geometry and no handles |
| Shapes.Shape.Circle | apps/frontend/draw/Circle.ts:10-19 | a circle object with the given style and id, zero geometry and no handles |
| Shapes.Shape.Line | apps/frontend/draw/Line.ts:11-20 | a line object with the given style and id, zero geometry and no handles |
| Shapes.Shape.Pencil | apps/frontend/draw/Pencil.ts:4-16 | a stroke object whose id is the constructor's second argument, no points and the sentinel box |
| Shapes.Shape.UpdateResizeHandles | apps/frontend/draw/Rectangle.ts:100-119 | the cached handles become the layout of the current geometry |
| Shapes.Shape.CheckForResize | apps/frontend/draw/Shape.ts:14-30 | handles are recomputed first; the active handle becomes `Choose` of the prior one over them; it is returned |
| Shapes.Shape.ShowCursor | apps/frontend/draw/Shape.ts:56-66 | the cursor of the first cached handle covering the point, else "default"; reads nothing but the cached handles |
| Shapes.Shape.CloseResize | apps/frontend/draw/Shape.ts:68-70 | the active handle is cleared and no other field may change |
| Shapes.Shape.Update | apps/frontend/draw/Rectangle.ts:22-48 | the new wire form is `Reshape` of the old one under the old active handle, for every kind (likewise Circle.ts:21-49, Line.ts:22-51, Pencil.ts:18-33); handles and box untouched; a stroke move with no points changes nothing |
| Shapes.Shape.UpdateBoundingBox | apps/frontend/draw/Pencil.ts:51-61 | the box becomes the fold of all points into the sentinels, as `Pencils.BoxMin`/`BoxMax` |
| Shapes.Shape.IsSelected | apps/frontend/draw/Rectangle.ts:81-98 | the answer is the kind's hit test of the current wire form (likewise Circle.ts:80-91, Line.ts:84-109 by the clamped projection, Pencil.ts:76-95, where a stroke refreshes its box first); on a hit the handles are laid out |
| Shapes.Shape.UpdateProperties | apps/frontend/draw/Rectangle.ts:74-79 | the geometry becomes the given wire form's and the object's own style stays, for every kind (likewise Circle.ts:74-78, Line.ts:77-82, Pencil.ts:72-74); a wire form already carrying that style is taken exactly |
| Client.Hundredths | apps/frontend/draw/Game.ts:367-369 | `toFixed(2)` of a non-negative value: a whole number of hundredths, within half a hundredth of the value |
| Client.ZoomedScale | apps/frontend/draw/Game.ts:366-369 | the new scale stays within [0.1, 5] whatever the delta, within half a hundredth of the clamped value |
| Client.ZoomFixesPointer | apps/frontend/draw/Game.ts:372-381 | the offset correction keeps the model coordinate under the pointer unchanged across the zoom |
| Client.ZoomOffset | apps/frontend/draw/Game.ts:371-381 | with a pointer, the model point under it is the same before and after the zoom; without one, the anchor is half the canvas at the new scale |
| Client.ToModel | apps/frontend/draw/Game.ts:159-162 | screen to model: an integer within one unit below `(client - offset) / scale` |
| Client.FirstIndexOf | apps/frontend/draw/Game.ts:111-113 | `findIndex` by id: the first index holding the id; none iff the id is absent |
| Client.FirstHit | apps/frontend/draw/Game.ts:202-206 | the first shape, in collection order, whose hit test holds; none iff no shape is hit |
| Client.RemoveAt | apps/frontend/draw/Game.ts:115-117 | `splice(k, 1)`: one element fewer, the others in order |
| Client.DeleteRemovesId | apps/frontend/draw/Game.ts:108-118 | with distinct record ids, a DELETE leaves no entry with that id and removes exactly one |
| Client.DeleteUndoesChat | apps/frontend/draw/Game.ts:85-118 | a DELETE for the id a CHAT just appended finds that entry and restores the earlier collection |
| Client.PencilCtorId | apps/frontend/draw/Pencil.ts:10-12 | the stroke's id is its constructor's second argument, or 0 when that is undefined |
| Client.LoadedPencilLosesId | apps/frontend/draw/Game.ts:321 | a stroke loaded from a record with a non-zero id gets id 0, not the record's id |
| Client.LoadedPencilsCollide | apps/frontend/draw/Game.ts:321 | any two loaded strokes get the same id |
| Client.Game.constructor | apps/frontend/draw/Game.ts:18-33 | the initial state: empty collection, scale 1, zero offset, cursor tool, default style, nothing sent |
| Client.Game.CreateShapeClass | apps/frontend/draw/Game.ts:303-326 | a fresh object of the wire form's kind whose wire form is the given one and whose id is the record id |
| Client.Game.AddRecord | apps/frontend/draw/Game.ts:89-91 | one entry appended with the record, its shape's wire form equal to the record's message, earlier entries unchanged |
| Client.Game.Init | apps/frontend/draw/Game.ts:52-63 | the records are appended in order, each with a matching shape |
| Client.Probe | apps/frontend/draw/Game.ts:202-206 | the `find` loop over `isSelected`: the result is the first entry whose wire form is hit, none iff none is; wire forms and active handles are kept; the hit shape has its handles laid out and, if a stroke, its box refreshed from its points; the others keep their handle caches |
| Client.Game.FindTarget | apps/frontend/draw/Game.ts:202-206 | `Probe` on the collection: only the collection's shapes may change, and only their caches; the result is `FirstHit` of the wire forms; no wire form and no active handle changes, the previous selection's included; the shape hit has its handles laid out and, if it is a stroke, its box refreshed from its points; every other shape keeps its handle cache |
| Client.Game.StartShape | apps/frontend/draw/Game.ts:164-186 | a drawing tool starts a fresh shape of its kind with the current style, anchored at the model position |
| Client.Game.Deselect | apps/frontend/draw/Game.ts:196-200 | the previous selection loses its active handle and the selection clears; only that one field of that one shape changes |
| Client.Game.Activate | apps/frontend/draw/Game.ts:208-214 | the hit shape becomes selected, its handle under the pointer becomes active, and resizing starts iff one is active |
| Client.Game.SelectFirstHit | apps/frontend/draw/Game.ts:202-214 | with the selection already dropped: the first shape hit is selected, its handles laid out (a stroke's from its refreshed box), its handle under the pointer chosen as `Choose` from its own active handle; resizing if one is chosen or the flag was set; no wire form changes; only the collection's shapes may change, and every shape other than the one selected keeps its active handle and handle cache |
| Client.Game.SelectAt | apps/frontend/draw/Game.ts:195-215 | the cursor branch: previous handle cleared, the first hit selected, its handles laid out (a stroke's from its freshly refreshed box), resizing if a handle is under the pointer or the flag was already set; every other shape keeps its active handle (the previous selection aside) and its handle cache, and a previous selection outside the collection changes only its active handle |
| Client.Game.MouseDown | apps/frontend/draw/Game.ts:158-217 | drawing tool: drawing starts at the model position on a fresh shape; hand: panning starts at the screen position; with either, no existing shape changes at all, the previous selection included; cursor: as `SelectAt`, a selected stroke's box being its points' box, every other shape keeping its active handle (the previous selection aside) and handle cache; nothing is sent; the tool and style stay |
| Client.Game.MouseMove | apps/frontend/draw/Game.ts:219-250 | a pan adds the pointer travel to the offset, so the grabbed point stays under the pointer, and changes no shape; drawing or resizing reshapes only the selected shape by `Reshape`, keeping its active handle, handle cache and box; an idle move changes no shape; only the offset, the start point and (when drawing or resizing) the selected shape may change |
| Client.Game.MouseUp | apps/frontend/draw/Game.ts:252-289 | a pan end sends nothing; a drawing end sends one CHAT and resets the tool; a resize end sends one UPDATE with the shape's id and clears the active handle; the selection clears; style, view and collection stay. That this id is the entry's record id rests on the corrected `Client.Game.CreateShapeClass` (see "## Findings"): as written, a loaded stroke's UPDATE carries id 0 |
| Client.Game.FinishDrawing | apps/frontend/draw/Game.ts:262-272 | the finished shape's wire form is appended as one CHAT frame; drawing stops, the selection clears, the tool returns to the cursor |
| Client.Game.FinishResize | apps/frontend/draw/Game.ts:274-288 | one UPDATE frame with the shape's id and wire form is appended; resizing stops, the shape loses its active handle, the selection clears, no wire form changes |
| Client.Game.DeleteShape | apps/frontend/draw/Game.ts:328-340 | with a selection, one DELETE with its id is sent and the selection clears; the collection keeps the shape; nothing else changes. For a loaded stroke the id is the record id only under the corrected `Client.Game.CreateShapeClass`; as written it is 0 |
| Client.Game.SetTool | apps/frontend/draw/Game.ts:342-343 | only the tool changes |
| Client.Game.Zoom | apps/frontend/draw/Game.ts:365-392 | the scale becomes `ZoomedScale`; with a pointer the model point under it stays put; without, the anchor is half the canvas at the new scale |
| Client.Game.ResetScale | apps/frontend/draw/Game.ts:394-398 | the scale becomes 1 and the offset is kept |
| Client.Game.ApplyUpdate | apps/frontend/draw/Game.ts:93-107 | only the first entry with the id may change, and it takes the new geometry, keeping its style, active handle, handle cache and box; no match changes nothing, and no other shape (the one being drawn or the selection included) is touched; the controller's own fields are untouched |
| Client.Game.ApplyDelete | apps/frontend/draw/Game.ts:108-118 | the first entry with the id is removed, the others keep their order; no match changes nothing |
| Client.Game.OnMessage | apps/frontend/draw/Game.ts:80-131 | CHAT appends, UPDATE and DELETE act on the first matching id, ERROR and other types change nothing; only the collection and, for UPDATE, the geometry of the one matched shape may change, which keeps its active handle, handle cache and box |
| WsServer.CheckUser | apps/websocket-backend/src/index.ts:14-26 | a user id exactly for a verified token with a non-empty `userId` claim |
| WsServer.UsersOf | apps/websocket-backend/src/index.ts:73 | an unknown room reads as the empty list |
| WsServer.RemoveUser | apps/websocket-backend/src/index.ts:75 | the filter keeps exactly the entries of other users |
| WsServer.RemoveUserAppend | apps/websocket-backend/src/index.ts:75 | the filter distributes over concatenation, so order is kept |
| WsServer.RemoveAbsentUser | apps/websocket-backend/src/index.ts:75 | filtering an id nobody has changes nothing |
| WsServer.RemoveUserIdempotent | apps/websocket-backend/src/index.ts:72-78 | leaving twice is the same as leaving once |
| WsServer.JoinThenLeave | apps/websocket-backend/src/index.ts:63-78 | a join followed by a leave of the same user leaves the other members in their order |
| WsServer.Broadcast | apps/websocket-backend/src/index.ts:93-95 | one CHAT frame per list entry, in list order |
| WsServer.BroadcastReachesMembers | apps/websocket-backend/src/index.ts:93-95 | a socket receives the broadcast iff it is in the room's list, the sender included |
| WsServer.NextRooms | apps/websocket-backend/src/index.ts:49-97 | JOIN appends (creating the list) unless the lookup threw; LEAVE filters (storing an empty list for an unknown room); CHAT, UPDATE, DELETE and others leave the registry as it was |
| WsServer.OnlyLeaveRemoves | apps/websocket-backend/src/index.ts:49-97 | after any frame but LEAVE every room remains and its old list is a prefix of the new |
| WsServer.OtherRoomsUntouched | apps/websocket-backend/src/index.ts:49-97 | a frame about one room leaves every other room's list as it was |
| WsServer.JoinUnknownRoomStillAppends | apps/websocket-backend/src/index.ts:58-66 | when the room does not exist the user is still appended |
| WsServer.DoubleJoinDuplicates | apps/websocket-backend/src/index.ts:63-66 | joining twice lists the user twice |
| WsServer.LeaveRemovesEveryEntry | apps/websocket-backend/src/index.ts:72-78 | after LEAVE no entry of the room has the user's id |
| WsServer.Registry.constructor | apps/websocket-backend/src/index.ts:12 | the registry starts empty |
| WsServer.Registry.Connect | apps/websocket-backend/src/index.ts:28-44 | no URL: nothing; a token that fails the check: "Invalid token." then close, and no handler; otherwise the handler is bound to the user id |
| WsServer.Registry.Join | apps/websocket-backend/src/index.ts:50-71 | the registry follows `NextRooms`; the log gains `JoinReplies`: a missing room gets "Invalid room id." and a close, a failed lookup "Soemthing went wrong." and a close |
| WsServer.Registry.Leave | apps/websocket-backend/src/index.ts:72-78 | the room's list becomes the filtered list; nothing is sent |
| WsServer.Registry.Chat | apps/websocket-backend/src/index.ts:79-96 | exactly one persistence call, then, if it succeeded and the room has a list, the broadcast to each member in order; the registry is not changed |
| WsServer.JoinReplies | apps/websocket-backend/src/index.ts:58-70 | a found room gets no reply; a missing room or a failed lookup gets one text on the joining socket, then its close |
| WsServer.Registry.HandleMessage | apps/websocket-backend/src/index.ts:46-98 | dispatch on the frame type; the registry follows `NextRooms`; JOIN sends `JoinReplies`, CHAT logs the persistence call and the broadcast, LEAVE and other types send nothing |

## Left out

- Rendering: `draw`, `drawOutline`, the painting in `drawHandles`, `clearCanvas`, roughjs, the 2D context, the cursor style written by `showCursor`/`setTool`/pan, and the React `updateState` callback. Only the handle recomputation of `drawHandles` on a hit is kept.
- Repaints recompute the handle cache of any shape with an active handle (`draw` calls `drawHandles`). This changes only the cached handles used for the cursor hint and is not modelled.
- Floating point: coordinates, the projection and the zoom are exact reals. `Math.sqrt` is replaced by squared comparisons and an exact integer root. `toFixed(2)` is rounding half up on the exact value.
- JSON parsing: inbound frames arrive as parsed values (`Client.Inbound`, `WsServer.ClientMessage`). Parse errors, the alert and the redirect in the `catch` branches, and wire forms of an unknown kind are not modelled.
- The URL query parsing and `jwt.verify` are an oracle (`WsServer.TokenCheck`). The Prisma room lookup (`WsServer.Lookup`) and the chat insert (`persisted`) are oracle outcomes.
- `ws.send` and `socket.close` are log entries. Sending to a closed socket is not modelled.
- Async interleaving: each server frame and each client event is one atomic step, and `init`'s fetch is its records parameter.
- Client.Game.ApplyUpdate: an UPDATE whose wire form has a different kind from the matched entry is modelled as changing nothing. The source copies the mismatched fields in and writes `undefined` into the others.
- Client.Game.MouseMove: the cursor hint from `showCursor` is not part of the state.
- The style editing done by the UI directly on `shapeConfig`, and its aliasing into shapes already drawn, is not modelled. Each shape keeps the style it was built with.
- Shapes.Shape.UpdateProperties requires the wire form to be of the object's own kind. The source copies mismatched fields blindly; its only caller in the model, `Client.Game.ApplyUpdate`, checks the kind first.
- Live CHAT frames as the client receives them: the server broadcasts the raw `message` string the client sent, with no record id (index.ts:94). The client's CHAT handler parses `message.message` and reads `message.id` (Game.ts:85-88); on that string `message.message` is `undefined`, the parse throws, and a live CHAT ends in the handler's `catch` branch without appending anything. The model takes inbound frames as the parsed records the handler expects (`Client.ChatRecord`), so its CHAT appends a record where the source's live CHAT does not.
- Client.Game.FindTarget: states the refreshed box only for the shape that is hit (every other shape is stated to keep its handle cache). Every stroke probed before it also has its box refreshed by `isSelected` (Pencil.ts:51-61); the contract does not state this, and each later `isSelected` refreshes the box again before reading it.
- `destroy`: removing listeners has no effect on the model state.
- Shapes.Shape.GetProperties: the wire form of a rectangle, circle or line carries the style the object was built with. As written, the style never reaches the object (Shape.ts:10-12 stores only `ctx`), so the source's wire forms carry `config: undefined`. The model keeps the style the source drops.
- WsServer.Registry.Chat: a failed chat insert (`persisted == false`) is modelled as the persistence call followed by no broadcast. In the source, the rejected `await prisma.chat.create` (index.ts:83-89) escapes the `async` message handler as an unhandled promise rejection. Under Node's default settings that terminates the server process, dropping every room. Process termination is not modelled.

## Findings

| source | as written | input that shows it | evidently intended | confidence | as-written member | corrected member |
|---|---|---|---|---|---|---|
| apps/frontend/draw/Game.ts:321 | `new Pencil(this.ctx, shape.config, id)` passes the wire form's style (absent for strokes) as the constructor's `id` parameter. The record id is a surplus argument, so the default 0 applies | a persisted stroke record with id 7 loaded by `init` or a CHAT frame: the shape's id is 0. Its later UPDATE/DELETE frames carry id 0, and every loaded stroke has the same id | the stroke carries the record id 7, as rectangles, circles and lines do | high; not executed | Client.LoadedPencilLosesId | Client.Game.CreateShapeClass |
