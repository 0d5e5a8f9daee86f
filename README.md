# Notes app core, modelled and verified in Dafny

This project models the logic core of a browser notes and drawing app and proves properties of
that model. The app has an infinite-feeling canvas of A4 pages, pen and shape tools, selection
with move, rotate and resize, undo and redo, a flood fill, and an export to PDF. The model covers
these parts:

- **History and ids** (`history.dfy`). The `HistoryManager` keeps a bounded undo list of opaque
  snapshots, a redo stack and a deferred autosave slot. The `IdGenerator` hands out increasing
  ids. They are classes whose methods update their fields. Each method is proved against the pure
  step functions `PushStep`, `UndoStep` and `RedoStep`, and the round-trip lemmas are proved
  about those functions.
- **Geometry** (`geometry.dfy`). `GeometryUtils` gives each object type its bounds, the centre,
  the bounds after the object's transform, the point-to-segment distance and the hit test.
  `cos`, `sin`, `atan2` and `hypot` are a `Trig` record passed as a parameter. Lemmas state the
  only facts assumed about it (`AtZero`, `RotationLaws`, `HypotIsNorm`), each as a precondition.
- **Pages and viewport** (`pages.dfy`, `viewport.dfy`). These cover the page layout (margin 5,
  spacing 5, page height 1.4142 times the window width), `isWithinPageBounds` and
  `constrainToPageBounds`. They also cover the screen/world mapping, zoom about an anchor, pan
  clamping and the fit-to-width scale.
- **Drawing engine** (`drawing.dfy`, `colour.dfy`, `floodfill.dfy`). `DrawingEngine` is a class
  with these parts:
  - the object list, the selection and the view;
  - the canvas size, stored as the integer a canvas dimension keeps: below 2^31, with the
    default 300 by 150 for a value out of that range;
  - the gesture flags.

  Its scene, view, page, snapshot and selection-handle operations are methods on it.
  `floodFillAt` is a scanline fill in place over an RGBA `array`, with its `visited` array. The
  `confirm()` answer is a parameter. `hexToRgba` is modelled with the exact `parseInt(…, 16)`
  semantics, NaN included.
- **Pointer state machine** (`app.dfy`). `NotesApp` is a class over the engine and the history.
  Its pointer-down, pointer-move and pointer-up handlers, and every gesture step they call, keep
  `Valid()`, which holds when:
  - the pointer map holds each id once;
  - every selected id is present;
  - a marquee drag has its rectangle;
  - a rotate or resize drag has captured a transform for every selected object;
  - the history is within its bound.

  The commands are methods too: undo, redo, delete, add page, clear, import and load autosave.
- **PDF page placement** (`pdf_export.dfy`). This file holds `getObjectBounds`,
  `isObjectOnPage` and `adjustObjectForPage` as written, plus the page count and page offset. The page
  loop of `exportToPDF` is a method returning, per page, the objects drawn on it. It takes a
  `Placement`. `AsWritten` runs the loop with the source's `isObjectOnPage` and
  `adjustObjectForPage`. `Corrected` runs it with the corrected placement of the two findings
  below. Both share the source's page count, slices and error path.

Numbers are `real`. NaN and the infinities are not values of the model. Where the source
produces them, the model uses the outcome the comparisons in the source then give, for example
a `NoExtent` box that meets nothing. Integer canvas sizes, `Math.round`, `Math.ceil` and the
conversion on assignment to a canvas dimension are written out in `common.dfy`. That
conversion is WebIDL's ToUint32 followed by the reflection rule of the HTML standard for
`unsigned long` attributes, which puts the default (300 wide, 150 high) in place of any value
above 2147483647. Clocks, the `confirm()` dialog, the pointer event, the current tool and
brush, and the zoom lock are parameters of the methods that read them.

## Model

| member | source | states |
|---|---|---|
| Common.Clamp | drawing.js:872-903 | The result lies in [lo, hi], equals v when v is already inside, and is the nearer end otherwise. |
| Common.RemNonNeg | drawing.js:501 | JavaScript `%` on a non-negative dividend: the remainder is in [0, b) and recombines with the floor quotient to the dividend. |
| Common.Round | drawing.js:492-493 | `Math.round` lands within half a unit of its argument, with halves going up. |
| Common.Ceil | pdf-export.js:95 | `Math.ceil` is the least integer at or above its argument. |
| Common.ToCanvasDim | drawing.js:108-109 | A number assigned to a canvas dimension is below 2^31. It is its floor when it is in [0, 2^31), and the default size when its uint32 wrap is 2^31 or more: for numbers in [2^31, 2^32) and for negative numbers down to -2^31. |
| History.PushStep | utils.js:28-36 | After a push, the snapshot is the top of the undo list and the list stays within HISTORY_LIMIT (100). On overflow exactly the oldest entry goes. The redo stack is emptied. |
| History.UndoStep | utils.js:38-45 | With at most one entry, undo returns nothing and changes nothing. Otherwise the top moves onto the redo stack and the new top is returned. The total number of snapshots is unchanged. |
| History.RedoStep | utils.js:47-54 | With an empty redo stack, redo returns nothing and changes nothing. Otherwise the redo top moves back onto the undo list and is returned. The total is unchanged. |
| History.UndoThenRedo | utils.js:38-54 | An effective undo followed by a redo restores both stacks and returns the snapshot that was undone. |
| History.RedoThenUndo | utils.js:38-54 | A redo followed by an undo restores both stacks and returns the snapshot that was current before the redo. |
| History.UndosThenRedos | utils.js:38-54 | Any n undos (with more than n entries) followed by n redos restore both stacks. |
| History.HistoryManager.constructor | utils.js:22-26 | Both stacks start empty, with no autosave pending. |
| History.HistoryManager.PushHistory | utils.js:28-36 | The stacks become `PushStep` of the old stacks, and an autosave is scheduled. |
| History.HistoryManager.Undo | utils.js:38-45 | The snapshot returned and the new stacks are `UndoStep` of the old stacks. |
| History.HistoryManager.Redo | utils.js:47-54 | The snapshot returned and the new stacks are `RedoStep` of the old stacks. |
| History.HistoryManager.ScheduleAutosave | utils.js:56-60 | Re-arms the debounce: a write is pending. |
| History.HistoryManager.FireAutosave | utils.js:61-67 | The timer writes the top of the undo list, or the current engine state when the list is empty. A refused write leaves the slot as it was. |
| History.HistoryManager.LoadAutosave | utils.js:70-80 | Returns a snapshot exactly when one is stored, and then the stored one. |
| History.IdGenerator.constructor | utils.js:317-319 | The counter starts at the given id. |
| History.IdGenerator.Generate | utils.js:321-323 | Returns the current counter and increments it, so successive ids are distinct and increasing. |
| History.IdGenerator.SetNext | utils.js:325-327 | The counter is overwritten. |
| Geometry.Include | utils.js:128-133 | One min/max step: the box holds the new point and everything it held, and each side either stays or moves to the point. |
| Geometry.PointsExtentTight | utils.js:126-134 | The path box is empty exactly for an empty path. It holds every sample, and each of its four sides is attained by a sample. |
| Geometry.PathBounds | utils.js:126-134 | The `forEach` loop computes the path box, which is ordered for a non-empty path and holds every sample. |
| Geometry.ObjectBoundsShape | utils.js:98-158 | Path bounds hold every point. Line and rect bounds are ordered with both endpoints inside. Circle bounds are ordered and centred on the start point. An unrecognised type gets the zero box. |
| Geometry.ObjectCenter | utils.js:160-163 | There is a centre exactly when the bounds are a real box. |
| Geometry.EnsureTransform | utils.js:92-96 | Afterwards a transform is present. An existing transform is kept, and a missing one becomes the identity. |
| Geometry.TransformOf | utils.js:92-96 | The transform every reader uses is the one `ensureTransform` leaves. |
| Geometry.LocalUndoesForward | utils.js:236-248 | The hit test's world-to-local mapping inverts the transformed-bounds mapping, assuming cos² + sin² = 1 and parity. |
| Geometry.Envelope4 | utils.js:195-201 | The min/max of four points is an ordered box holding all four. |
| Geometry.TransformedBounds | utils.js:165-204 | The transformed box is empty exactly when the untransformed box is. |
| Geometry.TransformedBoundsHoldCorners | utils.js:165-204 | The transformed box holds the image of each of the four corners under scale, rotation and translation about the centre. |
| Geometry.TranslatedBounds | utils.js:165-204 | Under a pure translation, the transformed box is the untransformed box, normalised and shifted by (tx, ty). |
| Geometry.IdentityBounds | utils.js:165-204 | With no transform, an ordered box comes back unchanged. |
| Geometry.SegmentFootClamped | utils.js:206-230 | A zero-length segment measures to (x1, y1), because t stays -1. Otherwise the foot is at the projection parameter clamped into [0, 1]. |
| Geometry.SegmentFootClosest | utils.js:206-230 | No point of the segment is nearer to the query point than the foot the distance is measured to. |
| Geometry.HitTestUnderTransform | utils.js:232-284 | Hit testing is invariant under the object's transform. A world point obtained by transforming a local point hits exactly when that local point hits the bare shape. |
| Geometry.PathHitNeedsSegment | utils.js:250-259 | A path with fewer than two samples is never hit. |
| Pages.PageSlot | drawing.js:499 | A page slot is longer than a page, which is not negative. |
| Pages.PageIndex | drawing.js:500 | The page index of a row at or below the first page top is not negative. |
| Pages.YInPage | drawing.js:501 | The offset into the slot is in [0, slot) and recombines with the index to the row. |
| Pages.SlotPosition | drawing.js:497-503 | A row k slots plus r below the first page top is on page k, r into it. |
| Pages.PageEdgesWithin | drawing.js:852-870 | Every page top and page bottom passes the page-bounds test. |
| Pages.ConstrainedIsWithin | drawing.js:872-903 | The constrained point always passes `isWithinPageBounds`. |
| Pages.WithinIsFixed | drawing.js:852-903 | A point already within the page bounds is left where it is. |
| Pages.ConstrainIdempotent | drawing.js:872-903 | Constraining twice is constraining once. |
| Pages.GapSnapsToNearerEdge | drawing.js:889-900 | A row in a gap lies strictly between the page bottom above and the page top below, and snaps to the nearer of the two (to the top on a tie). |
| Viewport.WorldScreenWorld | drawing.js:146-158 | `getCanvasCoords` undoes `worldToScreen` for any non-zero scale. |
| Viewport.ScreenWorldScreen | drawing.js:146-158 | `worldToScreen` undoes `getCanvasCoords` for any non-zero scale. |
| Viewport.ZoomScale | drawing.js:715-718 | The applied scale is in [MIN_ZOOM, MAX_ZOOM]. It is the requested one when that is inside, and the nearer limit otherwise. |
| Viewport.ZoomOffset | drawing.js:710-726 | The world point under the anchor is the same before and after the zoom. |
| Viewport.MaxOffset | app.js:316-320 | The largest offset the clamps allow is not negative. |
| Viewport.ClampOffset | drawing.js:780-783 | The clamped offset is in [0, max(0, canvas - view/scale)], and equals the input when that is already inside. |
| Viewport.AvailableWidth | drawing.js:752 | The width left for the page is at least 100 and at least the CSS width minus both paddings. |
| Viewport.FitScale | drawing.js:752-758 | The fit scale is in the zoom range. If the page width is zero it is the maximum. If the exact fit is within range, the page width times the scale is the available width. |
| Viewport.ScreenCenterPx | drawing.js:765-769 | The screen centre in canvas pixels is half the canvas dimension. |
| Viewport.CenterOffset | drawing.js:775-777 | This offset puts the chosen world point under the chosen screen point. |
| Colour.TrimStart | drawing.js:517-519 | `parseInt` skips exactly the leading white space: a suffix of the input that starts with no white space. |
| Colour.HexRun | drawing.js:517-519 | The length of the longest leading run of hexadecimal digits. |
| Colour.Substring | drawing.js:517-519 | `substring` with in-range ends is the slice, and never longer than the string. |
| Colour.RemoveFirst | drawing.js:515 | `replace('#', '')` removes one character exactly when there is a `#`. |
| Colour.DoubleDigits | drawing.js:516 | A three-digit colour doubles each digit. |
| Colour.Stored | drawing.js:570-573 | A channel written to the pixel buffer is a byte: NaN gives 0, and values in range are kept. |
| Colour.WrittenFill | drawing.js:570-573 | The fill pixel is opaque. |
| Colour.SameColourIsWrittenEquality | drawing.js:531-534 | For a colour whose channels all parse to bytes, the `===` test against the clicked pixel is equality with the written fill. |
| Colour.ParseByteHex | drawing.js:517-519 | `parseInt(…, 16)` reads back a two-digit byte. |
| Colour.HexRoundTrip | drawing.js:514-523 | `hexToRgba` inverts the `#rrggbb` encoding of any three bytes. |
| Colour.ShortFormDoubles | drawing.js:516 | `#rgb` means `#rrggbb`. |
| Colour.BadDigitIsNaN | drawing.js:517 | A non-hex first digit makes the red channel NaN, so no pixel ever matches. |
| FloodFill.Grow | drawing.js:578-582 | The four "expand bounds" updates: each side moves out to the pixel or stays. |
| FloodFill.GrowCovers | drawing.js:578-582 | Growing by a newly painted pixel keeps the box invariant: the box contains every painted pixel, and each side is at its start value or touches a painted pixel. |
| FloodFill.BoxEmptyIffNothingPainted | drawing.js:614 | The final `minX > maxX \|\| minY > maxY` test holds exactly when nothing was painted. |
| FloodFill.PaintStep | drawing.js:568-576 | Painting one more unvisited pixel of the target colour, within the limits, keeps the painting invariant. |
| FloodFill.LeftWalk | drawing.js:557-563 | The left walk stops at the first column that is visited, off target or left of the page. Every column it passed is unvisited and of the target colour. |
| FloodFill.PaintRun | drawing.js:565-597 | The right run paints only unvisited target pixels within the page and grows the box over them. When the threshold is reached it asks once, and a refusal is reported with the count at or above the threshold. |
| FloodFill.Put | drawing.js:570-575 | One pixel takes the fill colour and is marked visited, and nothing else changes. |
| FloodFill.PushColumn | drawing.js:600-611 | For one column, exactly the unvisited target cells above and below within the page rows are pushed. |
| FloodFill.PushSpans | drawing.js:599-611 | The span scan keeps the old stack as a prefix and pushes exactly the pushable cells, at most two per column. |
| FloodFill.FillRun | drawing.js:550-611 | One popped entry is filled and its spans pushed. The invariant is kept, and the termination measure goes down. |
| FloodFill.FillStep | drawing.js:550-612 | One loop iteration: an already visited entry is skipped, otherwise its run is filled. The invariant is kept unless the user declines, and the measure goes down. |
| FloodFill.ScanlineFill | drawing.js:536-614 | Every repainted pixel had the target colour and now has the fill, and every other pixel is unchanged. The repainted pixels lie in the page's columns and rows. The clicked pixel is one of them. A finished fill's box covers exactly the painted pixels, and a declined fill is reported with the count at or above the threshold. |
| Drawing.SetPointer | app.js:103 | `Map.set`: a tracked pointer keeps its place and takes the new position, and a new one goes last. |
| Drawing.SetPointerDistinct | app.js:103 | Setting a pointer keeps the ids distinct. |
| Drawing.DeletePointer | app.js:169 | `Map.delete` keeps exactly the entries with other ids. |
| Drawing.DeletePointerFacts | app.js:169 | Deleting removes exactly that id, keeps the ids distinct, and shrinks the map by one exactly when the id was tracked. |
| Drawing.Keep | drawing.js:1042-1047 | The filter keeps exactly the objects whose id is not dropped. |
| Drawing.Picked | drawing.js:911 | The filter keeps exactly the objects whose id is selected. |
| Drawing.KeepAppend | drawing.js:1042-1047 | The filter keeps the order: it distributes over concatenation. |
| Drawing.KeepShrinks | drawing.js:1042-1053 | The list shrinks exactly when some object has a listed id. |
| Drawing.KeepNothing | drawing.js:1042-1047 | A filter that drops nothing returns the list itself. |
| Drawing.UnionBoundsHolds | drawing.js:912-920 | The union of the selected objects' transformed boxes holds every point of each of them. |
| Drawing.SelectionBounds | drawing.js:912-920 | The min/max loop over the selection computes that union. |
| Drawing.Handles | drawing.js:928-937 | The eight resize handles start at the top-left and reach the bottom-right corner. |
| Drawing.RotateHandle | drawing.js:947-948 | The rotation handle is centred above the middle of the top edge. |
| Drawing.FirstHandle | drawing.js:939-944 | The result is the first handle whose square holds the point, or none when no handle does. |
| Drawing.FindHandle | drawing.js:939-944 | The `for … of` search returns that first handle. |
| Drawing.HandleHitAt | drawing.js:928-953 | The answer is a resize handle (the first one holding the point) when one does, else the rotation handle when the point is close enough, else nothing. |
| Drawing.BoxHandleTest | drawing.js:908-954 | The handle test runs on the union of the selected objects' boxes, at the current view. |
| Drawing.TouchingIdsComplete | drawing.js:1081-1096 | Every stroke object that passes the box prefilter and is hit by some sample is listed. |
| Drawing.TouchingIdsSound | drawing.js:1081-1096 | Every listed id belongs to such an object. |
| Drawing.Dedup | drawing.js:1098 | `Array.from(new Set(…))` keeps the same ids, each once. |
| Drawing.AnySampleHits | drawing.js:1089-1095 | The inner loop with `break` reports exactly whether some sample hits the object. |
| Drawing.FillSite | drawing.js:492-508 | There is a fill site exactly when the rounded click is on the canvas and on a page row, not above the first page and not in a gap. The site records that page's column and row limits, and the clicked pixel is inside them. |
| Drawing.FillThreshold | drawing.js:547-548 | The confirmation threshold is the floor of the fraction times the page's pixel count. |
| Drawing.RowOnPage | drawing.js:505-508 | A row on page k lies between that page's integer top and bottom rows. |
| Drawing.DrawingEngine.constructor | drawing.js:6-112 | An empty scene at offset 0 and scale 1, with a canvas one page wide plus margins and two pages plus spacing high. |
| Drawing.DrawingEngine.CoordsRoundTrip | drawing.js:146-158 | At the current view, `getCanvasCoords` and `worldToScreen` undo each other. |
| Drawing.DrawingEngine.SetZoom | drawing.js:703-730 | Nothing changes while the zoom is locked. Otherwise the scale ends clamped to the zoom range and the world point under the anchor stays under it. |
| Drawing.DrawingEngine.FitWidthCenter | drawing.js:740-787 | Nothing changes while the zoom is locked. Otherwise the scale fits the page width, and both offsets centre the first page and are clamped into their pan ranges. |
| Drawing.DrawingEngine.FitWidthCenterHorizontal | drawing.js:791-839 | As for `FitWidthCenter`, except that the vertical offset is only re-clamped for the new scale. |
| Drawing.DrawingEngine.AddPage | drawing.js:844-847 | The canvas grows by one page slot, stored as a canvas dimension, and so gets room for a whole page more when it fits. |
| Drawing.DrawingEngine.SelectionHandleAt | drawing.js:908-954 | No handle is hit without a selection or without a box. Otherwise the answer is the handle test on the screen corners of the selection box. |
| Drawing.DrawingEngine.HitTestSelectionHandles | drawing.js:908-954 | The method computes that answer. |
| Drawing.DrawingEngine.TimestampObject | drawing.js:1005-1031 | The clock stamp carries the given id and time and is not a stroke. |
| Drawing.DrawingEngine.AddTimestampObject | drawing.js:1005-1031 | Exactly the stamp is appended, with the next id. |
| Drawing.DrawingEngine.CheckAndAddTimestamp | drawing.js:997-1003 | A stamp is appended and the clock updated exactly when the interval has passed; otherwise nothing changes. |
| Drawing.DrawingEngine.AddObject | drawing.js:959-995 | The object gets a fresh id, the time and a transform, and is appended, followed by at most one clock stamp with the next id. If every id was below the counter, that stays so and the new id is new. |
| Drawing.DrawingEngine.RemoveSelectedObjects | drawing.js:1033-1039 | With an empty selection it returns false and changes nothing. Otherwise every selected object goes, the rest keep their order, and the selection empties. |
| Drawing.DrawingEngine.RemoveObjectsById | drawing.js:1042-1053 | Exactly the objects with unlisted ids remain, in order. The ids leave the selection and the formula tracking. The result is true exactly when the list shrank. |
| Drawing.DrawingEngine.SelectAll | drawing.js:1174-1176 | The selection becomes exactly the ids present. |
| Drawing.DrawingEngine.ClearSelection | drawing.js:1178-1185 | The selection becomes empty. |
| Drawing.DrawingEngine.StrokeIdsTouchingPath | drawing.js:1068-1099 | Nothing for a path of fewer than two samples. Otherwise each id is listed once, and an id is listed exactly when its object is a path, line, rect or circle that passes the box prefilter and is hit by some sample. |
| Drawing.DrawingEngine.Restored | drawing.js:1204-1216 | The restored scale is never zero. |
| Drawing.DrawingEngine.RestoreSnapshot | drawing.js:1190-1216 | A snapshot taken by `getState` with all fields set and all canvas sizes in range is restored exactly by `setState`. |
| Drawing.DrawingEngine.SetState | drawing.js:1204-1216 | The engine state becomes the snapshot with the `\|\|` fallbacks, and the selection is cleared. |
| Drawing.DrawingEngine.Clear | drawing.js:1218-1231 | An empty scene and selection, the initial view, and a canvas of two bare pages. |
| Drawing.DrawingEngine.FillFromSite | drawing.js:536-650 | Only target-coloured pixels of the clicked page are repainted, the clicked one among them. No object is added when nothing was painted or the user declined at the threshold. Otherwise one image object with a fresh id is appended, and its corners box exactly the painted pixels. |
| Drawing.DrawingEngine.FloodFillAt | drawing.js:479-652 | Off the canvas, above the first page, in a gap, or on a pixel of the fill colour: nothing is painted or added. Otherwise the effect of `FillFromSite` from the site of the click. |
| App.SamplePressure | app.js:196-227 | The stored pressure is positive: 1 while erasing, otherwise the device's value when it reports one. |
| App.ShapeFor | app.js:273-297 | Line, rect and circle tools add that shape from the start to the end point with the brush size. |
| App.Toggled | app.js:386-397 | With `addToSelection`, the id is toggled and no other id changes. Without it, the selection becomes exactly that id. |
| App.ToggleTwice | app.js:386-397 | Toggling twice gives back the selection. |
| App.MarqueeIds | app.js:454-476 | The marquee selects only present ids. |
| App.MarqueeCornersCommute | app.js:462-465 | The marquee corners may come in either order. |
| App.MarqueeMonotone | app.js:454-476 | A larger marquee selects at least what a smaller one inside it does. |
| App.MarqueeSelect | app.js:459-470 | The loop selects exactly the objects whose transformed box lies inside the normalised rectangle. |
| App.Apply | app.js:478-529 | An edit changes only the transform (which it leaves present), never the id, shape, colour or time. |
| App.Edited | app.js:478-529 | Editing the selection keeps the list length. |
| App.EditedIds | app.js:478-529 | Editing keeps every object's id in place. |
| App.EditedTwice | app.js:478-529 | Two whole-selection edits compose object by object. |
| App.MovesAdd | app.js:478-492 | Two moves are one move by the sum. |
| App.RotationsReplace | app.js:503-511 | A later rotation, computed from the captured transforms, replaces an earlier one. |
| App.ResizesReplace | app.js:512-527 | A later resize, computed from the captured transforms, replaces an earlier one. |
| App.ResizeTwice | app.js:512-527 | For one object, two resizes from the captured transforms are the second one. |
| App.EditSelected | app.js:483-489 | The in-place loop over the objects performs the edit on exactly the selected ones. |
| App.MoveDragTotal | app.js:478-492 | However the pointer wanders, a move drag translates the selection by end minus start. |
| App.Captured | app.js:411-437 | The captured transforms cover exactly the ids present. |
| App.CapturedIsLast | app.js:416-419 | Each captured transform is that of the last object with that id. |
| App.CaptureTransforms | app.js:416-419 | The loop that fills the map captures those transforms. |
| App.PickedIds | app.js:411-437 | The selected objects' ids are the selected ids that are present. |
| App.RotationAngle | app.js:503-506 | At the start point the rotation is zero. |
| App.ResizeFactor | app.js:512-517 | A factor is never within 0.01 of zero. At the start point it is 1. A factor beyond 0.01 is the ratio of the distances from the centre. |
| App.AxisFactors | app.js:519-520 | An `x` handle keeps the height, a `y` handle keeps the width, and a corner scales both. |
| App.PinchScale | app.js:353-359 | The pinch scale is the starting scale times the ratio of the finger distances, and is unchanged when the fingers have not moved. |
| App.Midpoint | app.js:340-351 | The pinch centre is halfway between the two fingers. |
| App.TopmostHit | app.js:372-373 | The picked object is the last one the hit test accepts, and none comes back exactly when none is hit. |
| App.TransformEdit | app.js:494-529 | A rotate or resize edit computed from the captured transforms. An `x` handle fixes the y factor at 1, a `y` handle fixes the x factor at 1, and the angle is zero at the start point. |
| App.ResizeAtStart | app.js:512-527 | Back at its start point, a resize drag gives every selected object its captured scale again. |
| App.TransformDrag | app.js:411-437 | The drag records the start point and the rotate or resize mode along the handle's axis, and captures a transform for each selected present id. |
| App.BeginTransform | app.js:411-437 | Transforms are attached to the selected objects, and then the drag is captured from them. |
| App.MaxId | app.js:602 | `Math.max(0, …ids)` is not negative. |
| App.MaxIdIsMax | app.js:602 | That value is at least every id, and it is 0 or the id of some object. |
| App.ImportedNextId | app.js:602 | The imported counter is `data.nextId` when set, and at least 1 otherwise. |
| App.ImportedIdIsFresh | app.js:602 | Without a stored counter, the next id is one past the largest id, so it is above every id and no object uses it. |
| App.ImportedState | app.js:595-608 | The snapshot an import leaves: the document's objects and canvas with the fallbacks, the counter fallback, the view reset and the clock untouched. |
| App.NegativeImportedWidthIsDefault | app.js:600 | A document with a negative stored canvas width, down to -2^31, leaves the canvas at the default width of 300. |
| App.PanOffset | app.js:309-320 | After a pan step the offset lies in its clamp range, and is the unclamped one when that is inside. |
| App.AutoAddWaitsForGrowth | app.js:322-333 | Right after an automatic page, none is added again until the canvas grows by a page. |
| App.AutoAddWaitsForCooldown | app.js:322-333 | No automatic page is added within the cooldown. |
| App.WithSample | app.js:229-241 | A sample is appended to the path being drawn, and nothing else changes. |
| App.WithSampleIds | app.js:229-241 | Appending a sample keeps the set of ids. |
| App.Ended | app.js:165-191 | Pointer-up records one snapshot for a drawing that made a path or used a shape tool, and one for a selection drag. Both show the final state, and the history is otherwise left alone. |
| App.PushedIf | app.js:165-191 | A conditional push is a push exactly when the condition holds. |
| App.NotesApp.constructor | app.js:6-18 | An empty engine and an empty history over the storage slot, in a valid state. |
| App.NotesApp.StartPinchGesture | app.js:340-351 | Records the finger distance, the scale and the centre, enters the pinch, and leaves pan, drawing, drag and marquee. |
| App.NotesApp.UpdatePinchZoom | app.js:353-359 | Zooms to the pinch scale so that the world point under the pinch centre stays there, unless the zoom is locked. |
| App.NotesApp.StartPanning | app.js:302-307 | Enters the pan at the pointer position. |
| App.NotesApp.UpdatePanning | app.js:309-338 | The offsets move by the pointer step and are clamped. A page is added and a snapshot taken exactly when the automatic page rule holds, and the rule's memory is then updated. |
| App.NotesApp.AddPage | app.js:569-573 | The canvas grows by one page slot and a snapshot is recorded. |
| App.NotesApp.AddTracked | drawing.js:959-995 | Adding an object from a handler appends it with a fresh id and keeps the app valid. |
| App.NotesApp.StartDrawing | app.js:196-214 | Records the start point. Pen and eraser start a path with one sample (the eraser white, 30 wide, at pressure 1); the other tools change no object. |
| App.NotesApp.StartErasing | app.js:216-227 | Enters erasing with a new white path of one sample at pressure 1. |
| App.NotesApp.UpdateDrawing | app.js:229-241 | While drawing with pen or eraser, or erasing, the sample is appended to the current path; otherwise the objects are unchanged. |
| App.NotesApp.FinishDrawing | app.js:273-297 | Shape tools append their shape with a fresh id. A snapshot is recorded exactly when there was a path or a shape tool. |
| App.NotesApp.SelectObject | app.js:386-403 | The selection becomes the toggled or replaced one. |
| App.NotesApp.StartMarqueeSelection | app.js:405-409 | A zero-size rectangle at the point and a marquee drag. |
| App.NotesApp.StartTransformation | app.js:411-437 | Transforms are attached to the selection, and a rotate or resize drag is started with the captured transforms and box. |
| App.NotesApp.HandleSelectTool | app.js:364-384 | A handle under the pointer starts a transformation. Otherwise the pointer picks the topmost object (toggling it with shift) or starts a marquee. |
| App.NotesApp.SelectAt | app.js:371-381 | The pick on a point: the topmost hit is selected and a move starts, or the selection is cleared and a marquee starts. |
| App.NotesApp.UpdateMarqueeSelection | app.js:454-476 | The free corner follows the pointer and the selection becomes exactly the objects inside. |
| App.NotesApp.UpdateObjectMove | app.js:478-492 | The selection moves by the step since the last position, which becomes the pointer position. |
| App.NotesApp.UpdateTransformation | app.js:494-529 | The selection gets the rotate or resize edit computed from the captured transforms; nothing changes without a selection or a box. |
| App.NotesApp.UpdateSelection | app.js:439-452 | Dispatches on the drag mode and keeps the mode; each branch has its effect and leaves the other parts of the selection state alone. |
| App.NotesApp.FinishSelection | app.js:531-537 | A marquee disappears, and a snapshot is recorded. |
| App.NotesApp.HandlePointerDown | app.js:96-133 | The pointer is tracked, and exactly one branch runs, in order: a second pointer pinches, the pen's eraser button erases, touch or the hand tool pans, the select tool selects, and anything else draws. |
| App.NotesApp.HandlePointerMove | app.js:135-163 | Exactly one handler runs, in priority order: pinch (only for a tracked pointer), pan, selection drag, drawing. Only the branch that ran changes anything. |
| App.NotesApp.HandlePointerUp | app.js:165-191 | The pointer is forgotten, the pinch ends once fewer than two remain, and every gesture flag is reset. The history gets the snapshots of `Ended`, and without a drawing the objects are unchanged. |
| App.NotesApp.EndGesture | app.js:175-188 | The drawing and the selection drag are finished and the gesture is reset, with the snapshots of `Ended`. |
| App.NotesApp.FinishStroke | app.js:175-177 | A drawing in progress is finished, with its snapshot; without one the objects are unchanged. |
| App.NotesApp.FinishDrag | app.js:179-188 | A selection drag is finished, with its snapshot, and every gesture flag is reset. |
| App.NotesApp.ReleasePointer | app.js:169-173 | The pointer is forgotten, and the pinch ends once fewer than two remain. |
| App.NotesApp.Undo | app.js:546-552 | The history steps back as `UndoStep` says, and the returned snapshot, if any, is restored into the engine with the selection cleared. |
| App.NotesApp.Redo | app.js:554-560 | The history steps forward as `RedoStep` says, and the returned snapshot, if any, is restored. |
| App.NotesApp.DeleteSelected | app.js:562-567 | With a selection, those objects go and a snapshot is recorded; otherwise nothing changes. |
| App.NotesApp.ClearAll | app.js:575-579 | The engine is cleared and a snapshot is recorded. |
| App.NotesApp.ImportFromJson | app.js:595-612 | The engine takes the imported state, the selection empties, and a snapshot is recorded. |
| App.NotesApp.LoadDocument | app.js:598-608 | The engine state becomes exactly `ImportedState` of the document, and the selection empties. |
| App.NotesApp.LoadAutosave | app.js:666-677 | A stored snapshot is restored when there is one, and then the initial snapshot is recorded. |
| PdfExport.TypeName | pdf-export.js:201-226 | An object of an unknown type carries its own type string. |
| PdfExport.GetObjectBounds | pdf-export.js:228-282 | As written, the bounds step throws only for a `freehand` object without points. A pen stroke (type `path`) and an image both get the 10 by 10 box at the origin, and a latex object a NaN box. |
| PdfExport.EndpointBoxes | pdf-export.js:241-253 | Line and rect boxes are ordered and hold both endpoints, and each side is on one of them. |
| PdfExport.CircleBoxIsRadius | pdf-export.js:255-264 | The circle box is centred on the start point, and half its side is the Euclidean distance to the end point. |
| PdfExport.IsObjectOnPage | pdf-export.js:188-197 | On the page exactly when the box satisfies maxY ≥ pageOffsetY and minY ≤ pageOffsetY + pageHeight; it throws exactly when the bounds step does. |
| PdfExport.PathOnFirstPageOnly | pdf-export.js:228-282 | As written, a pen stroke is exported on the first page only, whatever its samples. |
| PdfExport.PathLostOnSecondPage | pdf-export.js:95-128 | As written, a stroke drawn inside the second page of a 1000-wide window is not exported on it. |
| PdfExport.LatexOnNoPage | pdf-export.js:266-272 | As written, a latex object is exported on no page. |
| PdfExport.AdjustObjectForPage | pdf-export.js:199-226 | Id, time, colour, transform and type are kept, and only a line, rect or circle is changed. |
| PdfExport.AdjustRoundTrip | pdf-export.js:199-226 | Adjusting never moves anything horizontally, and adjusting back by the negated offset restores the object. |
| PdfExport.RaiseBy | pdf-export.js:199-226 | The raised box holds a point exactly when the original holds it d rows lower. |
| PdfExport.AdjustRaisesBox | pdf-export.js:211-216 | For a line, rect or circle, the adjusted copy's box is the box raised by the offset. |
| PdfExport.AdjustMovesBox | pdf-export.js:122-128 | For those types, an object is on the page at the offset exactly when its adjusted copy is on the page at 0. |
| PdfExport.ExportBounds | pdf-export.js:232-239 | The corrected box throws exactly when the as-written one does, and differs from it only for pen strokes and latex objects. |
| PdfExport.OnExportPage | pdf-export.js:188-197 | `isObjectOnPage` over the corrected box, with the same if-and-only-if. |
| PdfExport.RaisePoints | pdf-export.js:204-209 | Every sample moves up by d, and nothing else about it changes. |
| PdfExport.MoveToPage | pdf-export.js:199-226 | The corrected adjustment keeps id, time, colour, transform and type, and agrees with the as-written one except for pen strokes and latex objects. |
| PdfExport.PointsExtentRaised | pdf-export.js:204-209 | Raising every sample raises the box of the samples. |
| PdfExport.CorrectedPathOnPage | pdf-export.js:232-239 | With the correction, a pen stroke is on a page exactly when some sample is at or below the page top and some sample is at or above the page bottom. |
| PdfExport.CorrectedPathKeptOnSecondPage | pdf-export.js:95-128 | With the correction, the stroke of `PathLostOnSecondPage` is exported on the second page. |
| PdfExport.CorrectedLatexOnPage | pdf-export.js:266-272 | With the correction, a latex object is on a page exactly when its rows meet the page. |
| PdfExport.MoveToPageMovesBox | pdf-export.js:122-128 | With the correction, every moved type (pen strokes and latex objects included) takes its box with it, so an object is on page i exactly when its moved copy is on the slice at 0. |
| PdfExport.ExportPageCountBounds | pdf-export.js:95 | The page count is the fewest slices one page high that reach the canvas bottom, and at least 1 for a non-empty canvas. |
| PdfExport.SlicesCoverCanvas | pdf-export.js:95-122 | The slices follow one another without a gap: every row of the canvas is in the slice of some exported page. |
| PdfExport.SliceOf | pdf-export.js:122 | Every non-negative row lies in the slice of some page index. |
| PdfExport.ObjectOnSomePage | pdf-export.js:95-128 | Under either placement, every object whose placed box is a real box starting on the canvas is on at least one exported page. As written this excludes latex objects, which have no box, and puts every stroke at the origin. |
| PdfExport.SliceAbovePage | pdf-export.js:122 | Slice i starts i + 1 page spacings above the top of page i as the engine lays pages out (drawing.js:505). |
| PdfExport.PlacedBounds | pdf-export.js:126 | The box the placement tests: `getObjectBounds` as written, the corrected box otherwise. Both throw on the same objects and agree outside strokes and latex. |
| PdfExport.OnPage | pdf-export.js:126 | The loop's page test: `isObjectOnPage` as written, `OnExportPage` corrected. It throws exactly when the bounds step throws, and is true exactly when the placed box meets the page's rows. |
| PdfExport.Moved | pdf-export.js:128 | The loop's adjustment: `adjustObjectForPage` as written, `MoveToPage` corrected. It keeps the id and type, and agrees with the source outside strokes and latex. |
| PdfExport.PageContents | pdf-export.js:124-131 | A page receives at most the objects there are, and each entry is the moved copy of an object that is on the page. |
| PdfExport.PageContentsComplete | pdf-export.js:124-131 | Under either placement, every object on the page is drawn on it, moved. |
| PdfExport.LatexTypeHasNoBox | pdf-export.js:266-272 | Every object whose `type` is `latex` gets the NaN box as written. |
| PdfExport.AsWrittenDropsLatex | pdf-export.js:124-131 | The loop as written puts no latex object on any page. |
| PdfExport.AsWrittenDropsLaterStrokes | pdf-export.js:124-131 | The loop as written puts no pen stroke on any page after the first. |
| PdfExport.PlacementsAgree | pdf-export.js:124-131 | Without strokes and latex objects, the loop as written and the corrected loop give every page the same contents. |
| PdfExport.ExportPages | pdf-export.js:95-131 | Under the given placement (`AsWritten` is the source's loop), the loop fails exactly when there is a page and some object makes the bounds step throw. Otherwise there is one entry per page, and page i receives the contents for offset i times the page height. |
| PdfExport.DrawPage | pdf-export.js:124-131 | Under the given placement (`AsWritten` calls `isObjectOnPage` and `adjustObjectForPage`), the object loop fails exactly when some object throws, and otherwise draws the page's contents. |

## Left out

- The rendering and DOM parts of `drawing.js` and `app.js`, which draw pixels and have no state
  the model needs:
  - `drawObject`, `drawOverlay`, `redrawAll`, `drawPages`, `drawPageBackground`,
    `renderAllToContext`;
  - `drawShapePreview`, `resizeCanvases`, `updateZoomLabel`;
  - the canvas and event wiring in `app.js`.
- Auto-formula tracking, the scribble heuristics (`estimatePathCoverage`,
  `isScribbleDeleterCandidate`), `strokeIdsTouchingPoint` and the timestamp interval setters.
  They are timer- and network-driven, or are not called by the modelled handlers. So
  `addObject` does not model the `shouldTriggerNewLine` test, the `triggerAutoFormula` and
  `onStrokeAdded` calls, or the `autoFormulaStrokeIds.add` of drawing.js:986-988. The
  `autoFormulaStrokeIds` field is kept only for `removeObjectsById`, which deletes from it.
- JSON and localStorage. Snapshots are opaque values, and stringify/parse is taken to round-trip.
  The autosave write is the `FireAutosave` step, with the storage refusal as a parameter.
  `getCurrentState` is the app's hook and has no logic.
- The canvas pixel work of `floodFillAt`: rendering the scene to an offscreen canvas, the crop
  and `toDataURL`. The fill runs over a given pixel array, and the image object records its box.
- `exportToPDF`'s jsPDF calls, `drawObjectToPDF`, the latex rendering, and its async and
  try/catch machinery. The page loop is modelled on objects: a page is the list of objects drawn
  on it.
- Strings are sequences of characters. The `#` removal, `substring` and `parseInt` are exact on
  those, but UTF-16 surrogate pairs are not modelled.
- NaN and the infinities. `ObjectCenter` returns `None` for an empty path's NaN centre. The
  NaN comparisons the source makes on such boxes become `NoExtent` never meeting a marquee, a
  prefilter or a page.
- App.NotesApp.UpdateTransformation: an empty box (NaN in the source) leaves the objects
  unchanged. The `|| 1` at app.js:513-514 already turns a zero distance into a divisor of 1,
  so on real numbers the `isFinite` check at app.js:516-517 never fails. In the source it fails
  only on the NaN centre of an empty box, and that case is the one the model treats apart.
- Geometry: `cos`, `sin`, `atan2` and `hypot` are parameters. The circle's
  `Math.sqrt(Math.pow(…) + Math.pow(…))` in `getObjectBounds` is `hypot`, with the norm law as a
  precondition of the lemmas that need it. No rounding behaviour is modelled.
- FloodFill.ScanlineFill, Drawing.DrawingEngine.FillFromSite, Drawing.DrawingEngine.FloodFillAt:
  they prove that only target pixels inside the page are repainted, the clicked one among them,
  and that the box covers exactly the repainted pixels. They do not prove that the whole
  connected target region of the page is painted.
- Drawing.DrawingEngine.FitWidthCenter: requires a positive CSS width and height of the
  preview. With zero the source divides by zero.
- Drawing.DrawingEngine.FitWidthCenterHorizontal: requires a positive CSS width, for the same
  reason.
- App.NotesApp.SelectObject: requires that no rotate or resize drag is in progress and that the
  object exists. The source calls it only from the pick, where both hold.
- App.NotesApp.LoadAutosave: the deferred `setTimeout(…, 0)` push is modelled as immediate.
- The object being drawn (`currentPath`, an alias of the object in the list) is tracked by its
  id. Appending a sample updates the object with that id in the list.
- A rotate or resize of an object whose captured transform is missing uses the identity. This
  cannot happen while `Valid()` holds.
- PdfExport.ExportPages: requires a positive page height. With a zero window width,
  `Math.ceil(h / 0)` is Infinity and the source's loop never ends.
- PdfExport.AdjustObjectForPage: a `freehand` object without points is returned unchanged,
  where the source throws. The bounds step always throws on such an object first, so the export
  never reaches it.
- PdfExport.ExportBounds: corrects only pen strokes and latex objects. An image, whose box is
  stored as `startX`..`endY`, keeps the as-written default box at the origin.
- The model follows the code, which does less than some of its fields suggest:
  - the fill's first seed is the clicked pixel itself (drawing.js:540), so a click left of the
    page margin paints from there;
  - a resize takes its factors about the selection centre (app.js:500-501, 513-514);
  - touch always pans (app.js:118-121), and no handler reads the palm and pan-candidate fields
    declared at drawing.js:75-78, so there is no palm rejection and no pan-candidate promotion;
  - the eraser is chosen by the tool or a pen's second button (app.js:112-115), never by tilt.

## Findings

| source | as written | input that shows it | evidently intended | confidence | as-written member | corrected member |
|---|---|---|---|---|---|---|
| pdf-export.js:204-209, 232-239, 274-279 | Pen strokes have type `path` (app.js:208, 222). The exporter handles `freehand`, so a stroke gets the default 10 by 10 box at the origin and is exported on the first page only. Its points are not moved either. | Window width 1000, canvas height 2843 (3 pages), and a stroke from (100, 2000) to (200, 2100), which lies inside page 1: it is not drawn on page 1. | Strokes take the box of their samples and are moved with them, so they appear on the pages they cross. | high, not executed | PdfExport.PathOnFirstPageOnly, PdfExport.PathLostOnSecondPage, PdfExport.AsWrittenDropsLaterStrokes | PdfExport.ExportBounds, PdfExport.MoveToPage, PdfExport.CorrectedPathOnPage, PdfExport.CorrectedPathKeptOnSecondPage |
| pdf-export.js:219-221, 266-272 | Latex objects are placed by `startX`..`endY` (latex.js:310) and have no `x` or `y`. The text/latex case computes a NaN box, so no latex object is exported on any page, and the adjustment moves only the absent `y`. | Any latex object, on any page. | A latex object is exported on the pages its `startY`..`endY` rows meet, moved up with its rectangle. | high, not executed | PdfExport.LatexOnNoPage, PdfExport.AsWrittenDropsLatex | PdfExport.ExportBounds, PdfExport.MoveToPage, PdfExport.CorrectedLatexOnPage |
