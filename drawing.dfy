/**
 * The drawing engine: the ordered list of drawn objects with its selection, the viewport onto
 * the page strip, the page strip itself, and the flood fill that turns a filled region into an
 * image object. The pointer and gesture fields the application's handlers drive live here too.
 */
module Drawing {
  import opened Common
  import opened Geometry
  import opened Viewport
  import Pages
  import Colour
  import FloodFill
  import History

  /** Minimum time between two automatic clock stamps, in milliseconds. */
  const TIMESTAMP_INTERVAL: int := 5000
  /** A fill that has painted this fraction of a page asks before going on. */
  const FLOOD_FILL_CONFIRM_FRACTION: real := 0.25
  /** Side of the square around each resize handle, in screen pixels. */
  const HANDLE_SIZE: real := 12.0
  /** The rotation handle sits this far above the top edge and reacts within this radius. */
  const ROTATE_HANDLE_OFFSET: real := 24.0
  const ROTATE_HANDLE_RADIUS: real := 10.0
  /** The text of a clock stamp starts with an alarm-clock sign and a space. */
  const TIMESTAMP_PREFIX: string := "\U{23F0} "

  /** What `getState` returns and the history stores. */
  datatype EngineState = EngineState(drawnObjects: seq<Obj>, viewOffsetX: real, viewOffsetY: real, viewScale: real,
                                     canvasWidth: int, canvasHeight: int, pageHeight: real, nextId: int,
                                     lastTimestampTime: int)

  /** The viewport and canvas fields. */
  datatype ViewState = ViewState(offsetX: real, offsetY: real, scale: real, canvasWidth: nat, canvasHeight: nat,
                                 pageHeight: real, previewWidth: nat, previewHeight: nat)

  /** The scene fields. */
  datatype SceneState = SceneState(drawnObjects: seq<Obj>, selectedIds: set<int>, autoFormulaStrokeIds: set<int>,
                                   lastTimestampTime: int)

  /** One entry of the active-pointer map: pointer id and client position. */
  datatype PointerEntry = PointerEntry(id: int, pos: Point)

  datatype DragMode = MoveDrag | MarqueeDrag | RotateDrag | ResizeDrag
  /** Which scale factors a resize handle changes. */
  datatype Axis = Both | AxisX | AxisY
  /** What a rotate or resize drag captures when it starts: each selected object's transform and
      the union of their transformed bounds. */
  datatype Initial = Initial(transforms: map<int, Transform>, bounds: Extent)
  /** `selectionDrag`; a move or marquee drag has no `initial`, and only resize reads `axis`. */
  datatype Drag = Drag(mode: DragMode, start: Point, last: Point, initial: Option<Initial>, axis: Axis)
  datatype Marquee = Marquee(x1: real, y1: real, x2: real, y2: real)

  /** The pointer and gesture fields. `currentPath` is the id of the path being drawn (the
      source holds the object itself, which is the one in the list with that id). */
  datatype GestureState = GestureState(isDrawing: bool, isPanning: bool, isErasing: bool, isPinching: bool,
                                       shapeStart: Point, panStart: Point, pointers: seq<PointerEntry>,
                                       pinchStartDist: real, pinchStartScale: real, pinchCenter: Point,
                                       selectionDrag: Option<Drag>, marqueeRect: Option<Marquee>,
                                       currentPath: Option<int>, lastAutoAddHeight: int, lastAutoAddTime: real)

  datatype Handle = Handle(name: string, x: real, y: real, axis: Axis)
  datatype HandleHit = ResizeHit(handle: string, axis: Axis) | RotateHit

  /** The pixel a fill starts from and the limits of the page it is on, in whole pixels. */
  datatype Site = Site(px: int, py: int, left: int, right: int, top: int, bottom: int, page: int)

  /* ------------------------------------------------------------ pointer map */

  function PointerIds(ps: seq<PointerEntry>): set<int>
  {
    set e | e in ps :: e.id
  }

  predicate DistinctPointers(ps: seq<PointerEntry>)
  {
    forall i, j :: 0 <= i < j < |ps| ==> ps[i].id != ps[j].id
  }

  /** `Map.set`: a tracked pointer keeps its place and takes the new position; a new one goes last. */
  function SetPointer(ps: seq<PointerEntry>, id: int, pos: Point): (r: seq<PointerEntry>)
    ensures PointerIds(r) == PointerIds(ps) + {id}
    ensures |r| == if id in PointerIds(ps) then |ps| else |ps| + 1
    ensures forall k :: 0 <= k < |r| ==> (r[k].id == id ==> r[k].pos == pos) && (r[k].id != id ==> r[k] in ps)
    ensures forall k :: 0 <= k < |ps| ==> k < |r| && r[k].id == ps[k].id
  {
    if id in PointerIds(ps) then
      var r := seq(|ps|, k requires 0 <= k < |ps| => if ps[k].id == id then PointerEntry(id, pos) else ps[k]);
      assert PointerIds(r) == PointerIds(ps) by {
        forall x | x in PointerIds(ps) ensures x in PointerIds(r) {
          var e :| e in ps && e.id == x;
          var k :| 0 <= k < |ps| && ps[k] == e;
          assert r[k].id == x;
        }
      }
      r
    else
      ps + [PointerEntry(id, pos)]
  }

  /** Setting a pointer keeps the ids distinct. */
  lemma SetPointerDistinct(ps: seq<PointerEntry>, id: int, pos: Point)
    requires DistinctPointers(ps)
    ensures DistinctPointers(SetPointer(ps, id, pos))
  {
    var r := SetPointer(ps, id, pos);
    if id !in PointerIds(ps) {
      forall i, j | 0 <= i < j < |r| ensures r[i].id != r[j].id {
        if j == |ps| {
          assert r[i] == ps[i];
        }
      }
    }
  }

  /** `Map.delete`. */
  function DeletePointer(ps: seq<PointerEntry>, id: int): (r: seq<PointerEntry>)
    ensures forall e :: e in r <==> e in ps && e.id != id
    ensures PointerIds(r) <= PointerIds(ps) - {id}
    ensures |r| <= |ps|
  {
    if |ps| == 0 then []
    else
      var rest := DeletePointer(ps[..|ps| - 1], id);
      assert forall e :: e in ps <==> e in ps[..|ps| - 1] || e == ps[|ps| - 1];
      if ps[|ps| - 1].id == id then rest else rest + [ps[|ps| - 1]]
  }

  /** Deleting keeps the ids distinct, removes exactly the given one, and shrinks the map by one
      exactly when it was tracked. */
  lemma {:induction false} DeletePointerFacts(ps: seq<PointerEntry>, id: int)
    requires DistinctPointers(ps)
    ensures DistinctPointers(DeletePointer(ps, id))
    ensures PointerIds(DeletePointer(ps, id)) == PointerIds(ps) - {id}
    ensures |DeletePointer(ps, id)| == if id in PointerIds(ps) then |ps| - 1 else |ps|
  {
    if |ps| > 0 {
      var init := ps[..|ps| - 1];
      var last := ps[|ps| - 1];
      assert DistinctPointers(init) by {
        forall i, j | 0 <= i < j < |init| ensures init[i].id != init[j].id {
          assert init[i] == ps[i] && init[j] == ps[j];
        }
      }
      DeletePointerFacts(init, id);
      assert last.id !in PointerIds(init);
      assert forall e :: e in ps <==> e in init || e == last;
      var rest := DeletePointer(init, id);
      if last.id != id {
        var r := rest + [last];
        forall i, j | 0 <= i < j < |r| ensures r[i].id != r[j].id {
          if j == |rest| {
            assert r[i] in rest;
          } else {
            assert r[i] == rest[i] && r[j] == rest[j];
          }
        }
      }
    }
  }

  /* ------------------------------------------------------------ object lists */

  function Ids(objs: seq<Obj>): set<int>
  {
    set o | o in objs :: o.id
  }

  /** Every id in the list is below `n`: what makes the generator's next id fresh. */
  ghost predicate IdsBelow(objs: seq<Obj>, n: int)
  {
    forall i :: 0 <= i < |objs| ==> objs[i].id < n
  }

  /** `objs.filter(o => !drop.has(o.id))`. */
  function Keep(objs: seq<Obj>, drop: set<int>): (r: seq<Obj>)
    ensures |r| <= |objs|
    ensures forall o :: o in r <==> o in objs && o.id !in drop
  {
    if |objs| == 0 then []
    else
      var rest := Keep(objs[..|objs| - 1], drop);
      assert forall o :: o in objs <==> o in objs[..|objs| - 1] || o == objs[|objs| - 1];
      if objs[|objs| - 1].id in drop then rest else rest + [objs[|objs| - 1]]
  }

  /** `objs.filter(o => ids.has(o.id))`. */
  function Picked(objs: seq<Obj>, ids: set<int>): (r: seq<Obj>)
    ensures |r| <= |objs|
    ensures forall o :: o in r <==> o in objs && o.id in ids
  {
    if |objs| == 0 then []
    else
      var rest := Picked(objs[..|objs| - 1], ids);
      assert forall o :: o in objs <==> o in objs[..|objs| - 1] || o == objs[|objs| - 1];
      if objs[|objs| - 1].id in ids then rest + [objs[|objs| - 1]] else rest
  }

  /** Filtering keeps the order: it distributes over concatenation. */
  lemma {:induction false} KeepAppend(a: seq<Obj>, b: seq<Obj>, drop: set<int>)
    ensures Keep(a + b, drop) == Keep(a, drop) + Keep(b, drop)
    decreases |b|
  {
    if |b| == 0 {
      assert a + b == a;
    } else {
      assert (a + b)[..|a + b| - 1] == a + b[..|b| - 1];
      KeepAppend(a, b[..|b| - 1], drop);
    }
  }

  /** The filter drops something exactly when some object has an id in `drop`. */
  lemma {:induction false} KeepShrinks(objs: seq<Obj>, drop: set<int>)
    ensures |Keep(objs, drop)| == |objs| <==> forall o :: o in objs ==> o.id !in drop
  {
    if |objs| > 0 {
      var init := objs[..|objs| - 1];
      KeepShrinks(init, drop);
      assert forall o :: o in objs <==> o in init || o == objs[|objs| - 1];
    }
  }

  /** The rest of the list keeps its order when nothing in it is dropped. */
  lemma KeepNothing(objs: seq<Obj>, drop: set<int>)
    requires forall o :: o in objs ==> o.id !in drop
    ensures Keep(objs, drop) == objs
  {
    if |objs| > 0 {
      KeepNothing(objs[..|objs| - 1], drop);
      assert objs[..|objs| - 1] + [objs[|objs| - 1]] == objs;
    }
  }

  /** The union of the transformed bounds, as the selection loops accumulate it. */
  function UnionBounds(trig: Trig, objs: seq<Obj>): Extent
  {
    if |objs| == 0 then NoExtent
    else Union(UnionBounds(trig, objs[..|objs| - 1]), TransformedBounds(trig, objs[|objs| - 1]))
  }

  lemma UnionHolds(a: Extent, b: Extent, x: real, y: real)
    ensures InExtent(a, x, y) ==> InExtent(Union(a, b), x, y)
    ensures InExtent(b, x, y) ==> InExtent(Union(a, b), x, y)
  {
  }

  /** The union holds every point of every object's transformed bounds, and it is empty only
      when every object's bounds are. */
  lemma {:induction false} UnionBoundsHolds(trig: Trig, objs: seq<Obj>, k: int, x: real, y: real)
    requires 0 <= k < |objs| && InExtent(TransformedBounds(trig, objs[k]), x, y)
    ensures InExtent(UnionBounds(trig, objs), x, y)
  {
    var init := objs[..|objs| - 1];
    if k < |objs| - 1 {
      assert objs[k] == init[k];
      UnionBoundsHolds(trig, init, k, x, y);
      UnionHolds(UnionBounds(trig, init), TransformedBounds(trig, objs[|objs| - 1]), x, y);
    } else {
      UnionHolds(UnionBounds(trig, init), TransformedBounds(trig, objs[|objs| - 1]), x, y);
    }
  }

  /** The `forEach` min/max loop over the selected objects' transformed bounds. */
  method SelectionBounds(trig: Trig, objs: seq<Obj>) returns (e: Extent)
    ensures e == UnionBounds(trig, objs)
    ensures forall k, x, y :: 0 <= k < |objs| && InExtent(TransformedBounds(trig, objs[k]), x, y)
              ==> InExtent(e, x, y)
  {
    e := NoExtent;
    var i := 0;
    while i < |objs|
      invariant 0 <= i <= |objs|
      invariant e == UnionBounds(trig, objs[..i])
    {
      assert objs[..i + 1][..i] == objs[..i];
      e := Union(e, TransformedBounds(trig, objs[i]));
      i := i + 1;
    }
    assert objs[..i] == objs;
    forall k, x, y | 0 <= k < |objs| && InExtent(TransformedBounds(trig, objs[k]), x, y)
      ensures InExtent(e, x, y)
    {
      UnionBoundsHolds(trig, objs, k, x, y);
    }
  }

  /* ------------------------------------------------------------ handles */

  /** The eight resize handles of a selection box given by its screen corners, in test order. */
  function Handles(tl: Point, br: Point): (hs: seq<Handle>)
    ensures |hs| == 8
    ensures hs[0].x == tl.x && hs[0].y == tl.y && hs[4].x == br.x && hs[4].y == br.y
  {
    var w := br.x - tl.x;
    var h := br.y - tl.y;
    [Handle("nw", tl.x, tl.y, Both), Handle("n", tl.x + w / 2.0, tl.y, AxisY),
     Handle("ne", tl.x + w, tl.y, Both), Handle("e", tl.x + w, tl.y + h / 2.0, AxisX),
     Handle("se", tl.x + w, tl.y + h, Both), Handle("s", tl.x + w / 2.0, tl.y + h, AxisY),
     Handle("sw", tl.x, tl.y + h, Both), Handle("w", tl.x, tl.y + h / 2.0, AxisX)]
  }

  predicate OnHandle(hd: Handle, sx: real, sy: real)
  {
    hd.x - HANDLE_SIZE / 2.0 <= sx <= hd.x + HANDLE_SIZE / 2.0 && hd.y - HANDLE_SIZE / 2.0 <= sy <= hd.y + HANDLE_SIZE / 2.0
  }

  /** The centre of the rotation handle: above the middle of the top edge. */
  function RotateHandle(tl: Point, br: Point): (c: Point)
    ensures c.y == tl.y - ROTATE_HANDLE_OFFSET && c.x - tl.x == br.x - c.x
  {
    Point(tl.x + (br.x - tl.x) / 2.0, tl.y - ROTATE_HANDLE_OFFSET)
  }

  /** What the handle test answers for a selection box with screen corners `tl` and `br`: the
      first resize handle whose square holds the point, else the rotation handle when the point
      is within its radius, else nothing. */
  ghost predicate HandleAnswer(trig: Trig, tl: Point, br: Point, sx: real, sy: real, r: Option<HandleHit>)
  {
    var hs := Handles(tl, br);
    var rot := RotateHandle(tl, br);
    && (r.Some? && r.value.ResizeHit? <==> exists j :: 0 <= j < |hs| && OnHandle(hs[j], sx, sy))
    && (r.Some? && r.value.ResizeHit? ==>
          exists k :: 0 <= k < |hs| && OnHandle(hs[k], sx, sy) && r.value == ResizeHit(hs[k].name, hs[k].axis)
                      && forall j :: 0 <= j < k ==> !OnHandle(hs[j], sx, sy))
    && (r == Some(RotateHit) <==>
          (forall j :: 0 <= j < |hs| ==> !OnHandle(hs[j], sx, sy)) && trig.hypot(sx - rot.x, sy - rot.y) <= ROTATE_HANDLE_RADIUS)
  }

  /** The first handle whose square holds the point. */
  function FirstHandle(hs: seq<Handle>, sx: real, sy: real): (r: Option<nat>)
    ensures r.Some? ==> r.value < |hs| && OnHandle(hs[r.value], sx, sy)
    ensures r.Some? ==> forall j :: 0 <= j < r.value ==> !OnHandle(hs[j], sx, sy)
    ensures r.None? <==> forall j :: 0 <= j < |hs| ==> !OnHandle(hs[j], sx, sy)
  {
    if |hs| == 0 then None
    else if OnHandle(hs[0], sx, sy) then Some(0)
    else
      var rest := FirstHandle(hs[1..], sx, sy);
      assert forall j :: 0 < j < |hs| ==> hs[j] == hs[1..][j - 1];
      if rest.Some? then Some(rest.value + 1) else None
  }

  /** The `for … of handles` search. */
  method FindHandle(hs: seq<Handle>, sx: real, sy: real) returns (r: Option<nat>)
    ensures r == FirstHandle(hs, sx, sy)
  {
    var k := 0;
    while k < |hs|
      invariant 0 <= k <= |hs|
      invariant forall j :: 0 <= j < k ==> !OnHandle(hs[j], sx, sy)
    {
      if OnHandle(hs[k], sx, sy) {
        return Some(k);
      }
      k := k + 1;
    }
    return None;
  }

  /** The handle test for a selection box with screen corners `tl` and `br`. */
  function HandleHitAt(trig: Trig, tl: Point, br: Point, sx: real, sy: real): (r: Option<HandleHit>)
    ensures HandleAnswer(trig, tl, br, sx, sy, r)
  {
    var hs := Handles(tl, br);
    match FirstHandle(hs, sx, sy)
    case Some(k) => Some(ResizeHit(hs[k].name, hs[k].axis))
    case None =>
      var rot := RotateHandle(tl, br);
      if trig.hypot(sx - rot.x, sy - rot.y) <= ROTATE_HANDLE_RADIUS then Some(RotateHit) else None
  }

  /** `worldToScreen` for a given view. */
  function ScreenPoint(p: Point, scale: real, offsetX: real, offsetY: real): Point
  {
    Point(WorldToScreen(p.x, scale, offsetX), WorldToScreen(p.y, scale, offsetY))
  }

  /** The handle test for the selection box `e` drawn at the given view. */
  function BoxHandleAt(trig: Trig, e: Extent, scale: real, offsetX: real, offsetY: real, sx: real, sy: real): Option<HandleHit>
  {
    if e.NoExtent? then None
    else HandleHitAt(trig, ScreenPoint(Point(e.minX, e.minY), scale, offsetX, offsetY),
                     ScreenPoint(Point(e.maxX, e.maxY), scale, offsetX, offsetY), sx, sy)
  }

  /** The body of `hitTestSelectionHandles` once the selected objects are known. */
  method BoxHandleTest(trig: Trig, selected: seq<Obj>, scale: real, offsetX: real, offsetY: real, sx: real, sy: real)
    returns (r: Option<HandleHit>)
    ensures r == BoxHandleAt(trig, UnionBounds(trig, selected), scale, offsetX, offsetY, sx, sy)
  {
    var e := SelectionBounds(trig, selected);
    if e.NoExtent? {
      return None;
    }
    var tl := ScreenPoint(Point(e.minX, e.minY), scale, offsetX, offsetY);
    var br := ScreenPoint(Point(e.maxX, e.maxY), scale, offsetX, offsetY);
    var hs := Handles(tl, br);
    var k := FindHandle(hs, sx, sy);
    if k.Some? {
      r := Some(ResizeHit(hs[k.value].name, hs[k.value].axis));
    } else {
      var rot := RotateHandle(tl, br);
      r := if trig.hypot(sx - rot.x, sy - rot.y) <= ROTATE_HANDLE_RADIUS then Some(RotateHit) else None;
    }
  }

  /* ------------------------------------------------------------ scribble hits */

  /** The bounding-box prefilter. The empty box `NoExtent` is not rejected here, while in the
      source the box of an empty path is +-Infinity (utils.js:127) and the prefilter rejects it.
      The outcome is the same: a stroke without samples has no segment for the eraser to hit,
      and an eraser path shorter than two samples is refused before any prefilter. */
  predicate Near(b: Extent, box: Extent, tolerance: real)
  {
    b.NoExtent? || box.NoExtent? ||
    !(b.maxX < box.minX - tolerance || b.minX > box.maxX + tolerance ||
      b.maxY < box.minY - tolerance || b.minY > box.maxY + tolerance)
  }

  predicate SampleHits(trig: Trig, o: Obj, pts: seq<Sample>, tolerance: real)
  {
    exists j :: 0 <= j < |pts| && ObjectHitTest(trig, o, Point(pts[j].x, pts[j].y), tolerance)
  }

  /** A stroke object passes the prefilter and some sample of the path hits it. */
  predicate Touches(trig: Trig, o: Obj, pts: seq<Sample>, box: Extent, tolerance: real)
  {
    IsStroke(o) && Near(TransformedBounds(trig, o), box, tolerance) && SampleHits(trig, o, pts, tolerance)
  }

  /** Ids of the touching objects, in list order, repeats included. */
  function TouchingIds(trig: Trig, objs: seq<Obj>, pts: seq<Sample>, box: Extent, tolerance: real): seq<int>
  {
    if |objs| == 0 then []
    else
      var rest := TouchingIds(trig, objs[..|objs| - 1], pts, box, tolerance);
      if Touches(trig, objs[|objs| - 1], pts, box, tolerance) then rest + [objs[|objs| - 1].id] else rest
  }

  /** Every touching object's id is listed. */
  lemma {:induction false} TouchingIdsComplete(trig: Trig, objs: seq<Obj>, pts: seq<Sample>, box: Extent, tolerance: real, i: int)
    requires 0 <= i < |objs| && Touches(trig, objs[i], pts, box, tolerance)
    ensures objs[i].id in TouchingIds(trig, objs, pts, box, tolerance)
  {
    var init := objs[..|objs| - 1];
    if i < |init| {
      assert init[i] == objs[i];
      TouchingIdsComplete(trig, init, pts, box, tolerance, i);
    }
  }

  /** Every listed id is a touching object's. */
  lemma {:induction false} TouchingIdsSound(trig: Trig, objs: seq<Obj>, pts: seq<Sample>, box: Extent, tolerance: real, id: int)
    requires id in TouchingIds(trig, objs, pts, box, tolerance)
    ensures exists i :: 0 <= i < |objs| && objs[i].id == id && Touches(trig, objs[i], pts, box, tolerance)
  {
    var init := objs[..|objs| - 1];
    if id in TouchingIds(trig, init, pts, box, tolerance) {
      TouchingIdsSound(trig, init, pts, box, tolerance, id);
      var i :| 0 <= i < |init| && init[i].id == id && Touches(trig, init[i], pts, box, tolerance);
      assert objs[i] == init[i];
    } else {
      assert objs[|objs| - 1].id == id && Touches(trig, objs[|objs| - 1], pts, box, tolerance);
    }
  }

  predicate NoDuplicates(s: seq<int>)
  {
    forall i, j :: 0 <= i < j < |s| ==> s[i] != s[j]
  }

  /** `Array.from(new Set(s))`: first occurrences, in order. */
  function Dedup(s: seq<int>): (r: seq<int>)
    ensures NoDuplicates(r)
    ensures forall x :: x in r <==> x in s
  {
    if |s| == 0 then []
    else
      var rest := Dedup(s[..|s| - 1]);
      assert forall x :: x in s <==> x in s[..|s| - 1] || x == s[|s| - 1];
      if s[|s| - 1] in rest then rest else rest + [s[|s| - 1]]
  }

  /** The inner `for` loop with `break`: does some sample of the path hit the object? */
  method AnySampleHits(trig: Trig, o: Obj, pts: seq<Sample>, tolerance: real) returns (hit: bool)
    ensures hit <==> SampleHits(trig, o, pts, tolerance)
  {
    var k := 0;
    while k < |pts|
      invariant 0 <= k <= |pts|
      invariant forall j :: 0 <= j < k ==> !ObjectHitTest(trig, o, Point(pts[j].x, pts[j].y), tolerance)
    {
      if ObjectHitTest(trig, o, Point(pts[k].x, pts[k].y), tolerance) {
        return true;
      }
      k := k + 1;
    }
    return false;
  }

  /* ------------------------------------------------------------ fill site */

  /** The checks `floodFillAt` makes before touching a pixel of a `w` by `h` canvas: the rounded
      point is on the canvas and on a page row (not above the first page, not in a gap). The page
      limits are the integer columns and rows the fill loop's comparisons admit. */
  function FillSite(a4Width: real, w: nat, h: nat, x: real, y: real): (s: Option<Site>)
    requires a4Width >= 0.0
    ensures s.Some? <==> var px, py := Round(x), Round(y);
              0 <= px < w && 0 <= py < h && Pages.OnPageRow(a4Width, py as real)
    ensures s.Some? ==> var site := s.value;
              && site.px == Round(x) && site.py == Round(y) && site.page >= 0
              && site.left as real == Pages.PAGE_MARGIN && site.right == Pages.PageRight(a4Width).Floor
              && site.page == Pages.PageIndex(a4Width, site.py as real - Pages.PAGE_MARGIN)
              && site.top == Ceil(Pages.PageTop(a4Width, site.page))
              && site.bottom == Pages.PageBottom(a4Width, site.page).Floor
              && site.top <= site.py <= site.bottom
              && 0 <= FloodFill.Index(site.px, site.py, w) < w * h
  {
    var px, py := Round(x), Round(y);
    if px < 0 || py < 0 || px >= w || py >= h then None
    else
      var rel := py as real - Pages.PAGE_MARGIN;
      if rel < 0.0 then None
      else if Pages.YInPage(a4Width, rel) > Pages.A4Height(a4Width) then None
      else
        var k := Pages.PageIndex(a4Width, rel);
        RowOnPage(a4Width, py, rel, k);
        IndexInRange(px, py, w, h);
        Some(Site(px, py, 5, Pages.PageRight(a4Width).Floor, Ceil(Pages.PageTop(a4Width, k)),
                  Pages.PageBottom(a4Width, k).Floor, k))
  }

  /** `thresholdPixels`: the confirmation fraction of one page's pixel count, rounded down. */
  function FillThreshold(a4Width: real, page: int): (t: int)
    requires a4Width >= 0.0 && page >= 0
    ensures t as real <= FLOOD_FILL_CONFIRM_FRACTION * (a4Width + 1.0) * (Pages.A4Height(a4Width) + 1.0) < t as real + 1.0
  {
    var pageLeft := Pages.PAGE_MARGIN;
    var pageRight := Pages.PageRight(a4Width);
    var pageTop := Pages.PageTop(a4Width, page);
    var pageBottom := Pages.PageBottom(a4Width, page);
    var pagePixels := (pageRight - pageLeft + 1.0) * (pageBottom - pageTop + 1.0);
    (FLOOD_FILL_CONFIRM_FRACTION * pagePixels).Floor
  }

  /** The cases in which `floodFillAt` returns before filling: off the canvas or the pages, or
      the clicked pixel already has the fill colour. */
  predicate FillRefused(a4Width: real, w: nat, h: nat, x: real, y: real, fillColor: string, pix: seq<Colour.Rgba>)
    requires a4Width >= 0.0
  {
    match FillSite(a4Width, w, h, x, y)
    case None => true
    case Some(s) =>
      var i := FloodFill.Index(s.px, s.py, w);
      0 <= i < |pix| && Colour.SameColour(pix[i], Colour.HexToRgba(fillColor))
  }

  /* ------------------------------------------------------------ the engine */

  class DrawingEngine {
    var drawnObjects: seq<Obj>
    var selectedIds: set<int>
    var autoFormulaStrokeIds: set<int>
    const idGenerator: History.IdGenerator
    var viewOffsetX: real
    var viewOffsetY: real
    var viewScale: real
    /** `A4_WIDTH`: the window width when the engine was built. */
    const a4Width: real
    var pageHeight: real
    var canvasWidth: nat
    var canvasHeight: nat
    /** The preview canvas size in its own pixels. */
    var previewWidth: nat
    var previewHeight: nat
    var lastTimestampTime: int

    var isDrawing: bool
    var isPanning: bool
    var isErasing: bool
    var isPinching: bool
    var shapeStart: Point
    var panStart: Point
    /** The `pointers` Map in its insertion order. */
    var pointers: seq<PointerEntry>
    var pinchStartDist: real
    var pinchStartScale: real
    var pinchCenter: Point
    var selectionDrag: Option<Drag>
    var marqueeRect: Option<Marquee>
    var currentPath: Option<int>
    var lastAutoAddHeight: int
    var lastAutoAddTime: real

    /** The scale is never zero (every writer clamps it or falls back to 1), the page width is
        not negative, and canvas sizes are below 2^31, the values a canvas dimension keeps. */
    ghost predicate Valid()
      reads this`viewScale, this`canvasWidth, this`canvasHeight
    {
      viewScale != 0.0 && a4Width >= 0.0 && canvasWidth < 0x8000_0000 && canvasHeight < 0x8000_0000
    }

    function View(): ViewState
      reads this
    {
      ViewState(viewOffsetX, viewOffsetY, viewScale, canvasWidth, canvasHeight, pageHeight, previewWidth, previewHeight)
    }

    function Scene(): SceneState
      reads this
    {
      SceneState(drawnObjects, selectedIds, autoFormulaStrokeIds, lastTimestampTime)
    }

    function Gesture(): GestureState
      reads this
    {
      GestureState(isDrawing, isPanning, isErasing, isPinching, shapeStart, panStart, pointers, pinchStartDist,
                   pinchStartScale, pinchCenter, selectionDrag, marqueeRect, currentPath, lastAutoAddHeight,
                   lastAutoAddTime)
    }

    /** The constructor followed by `initializeCanvases`: two pages with margins. */
    constructor (innerWidth: real, previewW: nat, previewH: nat)
      requires innerWidth >= 0.0
      ensures Valid()
      ensures drawnObjects == [] && selectedIds == {} && autoFormulaStrokeIds == {} && fresh(idGenerator)
      ensures idGenerator.nextId == 1 && a4Width == innerWidth && pageHeight == Pages.A4Height(innerWidth)
      ensures View() == ViewState(0.0, 0.0, 1.0, ToCanvasDim(innerWidth + 2.0 * Pages.PAGE_MARGIN, CANVAS_DEFAULT_WIDTH),
                                  ToCanvasDim((Pages.A4Height(innerWidth) + Pages.PAGE_SPACING) * 2.0 + Pages.PAGE_MARGIN, CANVAS_DEFAULT_HEIGHT),
                                  Pages.A4Height(innerWidth), previewW, previewH)
      ensures lastTimestampTime == 0
      ensures Gesture() == GestureState(false, false, false, false, Point(0.0, 0.0), Point(0.0, 0.0), [], 0.0, 1.0,
                                        Point(0.0, 0.0), None, None, None, 0, 0.0)
    {
      drawnObjects := [];
      selectedIds := {};
      autoFormulaStrokeIds := {};
      idGenerator := new History.IdGenerator(1);
      viewOffsetX, viewOffsetY, viewScale := 0.0, 0.0, 1.0;
      a4Width := innerWidth;
      pageHeight := Pages.A4Height(innerWidth);
      canvasWidth := ToCanvasDim(innerWidth + 2.0 * Pages.PAGE_MARGIN, CANVAS_DEFAULT_WIDTH);
      canvasHeight := ToCanvasDim((Pages.A4Height(innerWidth) + Pages.PAGE_SPACING) * 2.0 + Pages.PAGE_MARGIN, CANVAS_DEFAULT_HEIGHT);
      previewWidth, previewHeight := previewW, previewH;
      lastTimestampTime := 0;
      isDrawing, isPanning, isErasing, isPinching := false, false, false, false;
      shapeStart, panStart := Point(0.0, 0.0), Point(0.0, 0.0);
      pointers := [];
      pinchStartDist, pinchStartScale, pinchCenter := 0.0, 1.0, Point(0.0, 0.0);
      selectionDrag, marqueeRect, currentPath := None, None, None;
      lastAutoAddHeight, lastAutoAddTime := 0, 0.0;
    }

    /* ---------------------------------------------------------- coordinates */

    /** `getCanvasCoords`, given the pointer's offset inside the preview canvas. */
    function CanvasCoords(sx: real, sy: real): (p: Point)
      reads this
      requires Valid()
    {
      Point(ScreenToWorld(sx, viewScale, viewOffsetX), ScreenToWorld(sy, viewScale, viewOffsetY))
    }

    /** `worldToScreen`. */
    function WorldToScreenPoint(p: Point): (s: Point)
      reads this
      requires Valid()
    {
      ScreenPoint(p, viewScale, viewOffsetX, viewOffsetY)
    }

    /** The two conversions undo each other. */
    lemma CoordsRoundTrip(sx: real, sy: real, p: Point)
      requires Valid()
      ensures WorldToScreenPoint(CanvasCoords(sx, sy)) == Point(sx, sy)
      ensures CanvasCoords(WorldToScreenPoint(p).x, WorldToScreenPoint(p).y) == p
    {
      ScreenWorldScreen(sx, viewScale, viewOffsetX);
      ScreenWorldScreen(sy, viewScale, viewOffsetY);
      WorldScreenWorld(p.x, viewScale, viewOffsetX);
      WorldScreenWorld(p.y, viewScale, viewOffsetY);
    }

    /* ---------------------------------------------------------- zoom and pages */

    /** `setZoom`: nothing while the zoom is locked; otherwise clamp the scale and shift the
        offsets so that the world point under the anchor stays under it. */
    method SetZoom(newScale: real, anchorX: real, anchorY: real, zoomLocked: bool)
      requires Valid()
      modifies this`viewScale, this`viewOffsetX, this`viewOffsetY
      ensures Valid()
      ensures zoomLocked ==> View() == old(View())
      ensures !zoomLocked ==> viewScale == ZoomScale(newScale) && MIN_ZOOM <= viewScale <= MAX_ZOOM
      ensures !zoomLocked ==> ScreenToWorld(anchorX, viewScale, viewOffsetX) == old(ScreenToWorld(anchorX, viewScale, viewOffsetX))
      ensures !zoomLocked ==> ScreenToWorld(anchorY, viewScale, viewOffsetY) == old(ScreenToWorld(anchorY, viewScale, viewOffsetY))
    {
      if zoomLocked {
        return;
      }
      var oldScale := viewScale;
      viewScale := ZoomScale(newScale);
      viewOffsetX := ZoomOffset(anchorX, oldScale, viewScale, viewOffsetX);
      viewOffsetY := ZoomOffset(anchorY, oldScale, viewScale, viewOffsetY);
    }

    /** `fitWidthCenter`: the scale that fits the page width into the preview, and offsets that
        centre the first page, clamped as panning clamps them. `cssWidth`/`cssHeight` are the
        preview's displayed size. */
    method FitWidthCenter(cssWidth: real, cssHeight: real, padding: real, zoomLocked: bool)
      requires Valid() && cssWidth > 0.0 && cssHeight > 0.0
      modifies this`viewScale, this`viewOffsetX, this`viewOffsetY
      ensures Valid()
      ensures zoomLocked ==> View() == old(View())
      ensures !zoomLocked ==> viewScale == FitScale(cssWidth, padding, a4Width)
      ensures !zoomLocked ==>
                viewOffsetX == ClampOffset(CenterOffset(Pages.PAGE_MARGIN + a4Width / 2.0, previewWidth as real / 2.0, viewScale),
                                           canvasWidth as real, previewWidth as real, viewScale)
      ensures !zoomLocked ==>
                viewOffsetY == ClampOffset(CenterOffset(Pages.PAGE_MARGIN + Pages.A4Height(a4Width) / 2.0, previewHeight as real / 2.0, viewScale),
                                           canvasHeight as real, previewHeight as real, viewScale)
      ensures !zoomLocked ==> 0.0 <= viewOffsetX <= MaxOffset(canvasWidth as real, previewWidth as real, viewScale)
      ensures !zoomLocked ==> 0.0 <= viewOffsetY <= MaxOffset(canvasHeight as real, previewHeight as real, viewScale)
    {
      if zoomLocked {
        return;
      }
      var desired := FitScale(cssWidth, padding, a4Width);
      var worldCenterX := Pages.PAGE_MARGIN + a4Width / 2.0;
      var worldCenterY := Pages.PAGE_MARGIN + Pages.A4Height(a4Width) / 2.0;
      var centerX := ScreenCenterPx(cssWidth, previewWidth as real);
      var centerY := ScreenCenterPx(cssHeight, previewHeight as real);
      viewScale := desired;
      viewOffsetX := CenterOffset(worldCenterX, centerX, viewScale);
      viewOffsetY := CenterOffset(worldCenterY, centerY, viewScale);
      viewOffsetX := ClampOffset(viewOffsetX, canvasWidth as real, previewWidth as real, viewScale);
      viewOffsetY := ClampOffset(viewOffsetY, canvasHeight as real, previewHeight as real, viewScale);
    }

    /** `fitWidthCenterHorizontal`: as `FitWidthCenter`, but the vertical offset is only
        re-clamped for the new scale. */
    method FitWidthCenterHorizontal(cssWidth: real, padding: real, zoomLocked: bool)
      requires Valid() && cssWidth > 0.0
      modifies this`viewScale, this`viewOffsetX, this`viewOffsetY
      ensures Valid()
      ensures zoomLocked ==> View() == old(View())
      ensures !zoomLocked ==> viewScale == FitScale(cssWidth, padding, a4Width)
      ensures !zoomLocked ==>
                viewOffsetX == ClampOffset(CenterOffset(Pages.PAGE_MARGIN + a4Width / 2.0, previewWidth as real / 2.0, viewScale),
                                           canvasWidth as real, previewWidth as real, viewScale)
      ensures !zoomLocked ==> viewOffsetY == ClampOffset(old(viewOffsetY), canvasHeight as real, previewHeight as real, viewScale)
    {
      if zoomLocked {
        return;
      }
      var desired := FitScale(cssWidth, padding, a4Width);
      var worldCenterX := Pages.PAGE_MARGIN + a4Width / 2.0;
      var centerX := ScreenCenterPx(cssWidth, previewWidth as real);
      var previousOffsetY := viewOffsetY;
      viewScale := desired;
      viewOffsetX := CenterOffset(worldCenterX, centerX, viewScale);
      viewOffsetY := previousOffsetY;
      viewOffsetX := ClampOffset(viewOffsetX, canvasWidth as real, previewWidth as real, viewScale);
      viewOffsetY := ClampOffset(viewOffsetY, canvasHeight as real, previewHeight as real, viewScale);
    }

    /** `addPage`: the canvas grows by one page slot (the height is stored as an integer). */
    method AddPage()
      requires Valid()
      modifies this`canvasHeight
      ensures Valid()
      ensures canvasHeight == ToCanvasDim(old(canvasHeight) as real + Pages.PageSlot(a4Width), CANVAS_DEFAULT_HEIGHT)
      ensures old(canvasHeight) as real + Pages.PageSlot(a4Width) < 2147483648.0 ==>
                old(canvasHeight) as real + Pages.A4Height(a4Width) < canvasHeight as real
    {
      canvasHeight := ToCanvasDim(canvasHeight as real + Pages.PageSlot(a4Width), CANVAS_DEFAULT_HEIGHT);
    }

    /* ---------------------------------------------------------- selection handles */

    /** What `hitTestSelectionHandles` answers at a screen point: the first resize handle in
        order, else the rotation handle, tested on the screen corners of the union of the
        selected objects' transformed bounds; nothing for an empty selection or one whose
        objects have no bounds. */
    function SelectionHandleAt(trig: Trig, sx: real, sy: real): (r: Option<HandleHit>)
      reads this
      requires Valid()
      ensures |selectedIds| == 0 ==> r.None?
      ensures UnionBounds(trig, Picked(drawnObjects, selectedIds)).NoExtent? ==> r.None?
      ensures var e := UnionBounds(trig, Picked(drawnObjects, selectedIds));
              |selectedIds| > 0 && e.Extent? ==>
                HandleAnswer(trig, WorldToScreenPoint(Point(e.minX, e.minY)), WorldToScreenPoint(Point(e.maxX, e.maxY)), sx, sy, r)
    {
      if |selectedIds| == 0 then None
      else BoxHandleAt(trig, UnionBounds(trig, Picked(drawnObjects, selectedIds)), viewScale, viewOffsetX, viewOffsetY, sx, sy)
    }

    /** `hitTestSelectionHandles`. */
    method HitTestSelectionHandles(trig: Trig, sx: real, sy: real) returns (r: Option<HandleHit>)
      requires Valid()
      ensures r == SelectionHandleAt(trig, sx, sy)
    {
      if |selectedIds| == 0 {
        return None;
      }
      r := BoxHandleTest(trig, Picked(drawnObjects, selectedIds), viewScale, viewOffsetX, viewOffsetY, sx, sy);
    }

    /* ---------------------------------------------------------- scene edits */

    /** A clock stamp is due when more than the interval has passed since the last one. */
    predicate TimestampDue(now: int)
      reads this
    {
      now - lastTimestampTime > TIMESTAMP_INTERVAL
    }

    /** The clock stamp `addTimestampObject` builds: near the top right of the current view. */
    function TimestampObject(id: int, now: int, clockText: string): (o: Obj)
      reads this
      requires Valid()
      ensures o.id == id && o.timestamp == now && o.shape.Timestamp? && !IsStroke(o)
    {
      Obj(id, now, "#666", Some(IdentityTransform),
          Timestamp(TIMESTAMP_PREFIX + clockText, viewOffsetX + previewWidth as real / viewScale - 150.0,
                    viewOffsetY + 30.0, 12.0))
    }

    /** `addTimestampObject`. */
    method AddTimestampObject(now: int, clockText: string)
      requires Valid()
      modifies this`drawnObjects, idGenerator
      ensures drawnObjects == old(drawnObjects) + [TimestampObject(old(idGenerator.nextId), now, clockText)]
      ensures idGenerator.nextId == old(idGenerator.nextId) + 1
    {
      var id := idGenerator.Generate();
      drawnObjects := drawnObjects + [TimestampObject(id, now, clockText)];
    }

    /** `checkAndAddTimestamp`. */
    method CheckAndAddTimestamp(now: int, clockText: string)
      requires Valid()
      modifies this`drawnObjects, this`lastTimestampTime, idGenerator
      ensures old(TimestampDue(now)) ==>
                && drawnObjects == old(drawnObjects) + [old(TimestampObject(idGenerator.nextId, now, clockText))]
                && idGenerator.nextId == old(idGenerator.nextId) + 1 && lastTimestampTime == now
      ensures !old(TimestampDue(now)) ==>
                drawnObjects == old(drawnObjects) && idGenerator.nextId == old(idGenerator.nextId)
                && lastTimestampTime == old(lastTimestampTime)
    {
      if TimestampDue(now) {
        AddTimestampObject(now, clockText);
        lastTimestampTime := now;
      }
    }

    /** `addObject`: a fresh id and the time, the identity transform when there is none, then
        append, then perhaps a clock stamp. Ids stay below the generator, so the new ones are
        fresh. `now` is the clock reading and `clockText` its local time string. */
    method AddObject(obj: Obj, now: int, clockText: string) returns (added: Obj)
      requires Valid()
      modifies this`drawnObjects, this`lastTimestampTime, idGenerator
      ensures Valid()
      ensures added == EnsureTransform(obj.(id := old(idGenerator.nextId), timestamp := now))
      ensures old(TimestampDue(now)) ==>
                && drawnObjects == old(drawnObjects) + [added, old(TimestampObject(idGenerator.nextId + 1, now, clockText))]
                && idGenerator.nextId == old(idGenerator.nextId) + 2 && lastTimestampTime == now
      ensures !old(TimestampDue(now)) ==>
                && drawnObjects == old(drawnObjects) + [added]
                && idGenerator.nextId == old(idGenerator.nextId) + 1 && lastTimestampTime == old(lastTimestampTime)
      ensures IdsBelow(old(drawnObjects), old(idGenerator.nextId)) ==>
                IdsBelow(drawnObjects, idGenerator.nextId) && added.id !in old(Ids(drawnObjects))
    {
      var id := idGenerator.Generate();
      added := EnsureTransform(obj.(id := id, timestamp := now));
      drawnObjects := drawnObjects + [added];
      CheckAndAddTimestamp(now, clockText);
    }

    /** `removeSelectedObjects`: false and no change for an empty selection; otherwise every
        selected object goes and the selection empties. */
    method RemoveSelectedObjects() returns (removed: bool)
      modifies this`drawnObjects, this`selectedIds
      ensures removed <==> old(selectedIds) != {}
      ensures !removed ==> drawnObjects == old(drawnObjects) && selectedIds == old(selectedIds)
      ensures removed ==> drawnObjects == Keep(old(drawnObjects), old(selectedIds)) && selectedIds == {}
      ensures forall o :: o in drawnObjects ==> o in old(drawnObjects) && (removed ==> o.id !in old(selectedIds))
    {
      if |selectedIds| == 0 {
        return false;
      }
      drawnObjects := Keep(drawnObjects, selectedIds);
      selectedIds := {};
      return true;
    }

    /** `removeObjectsById`: keep exactly the objects whose id is not listed, in order; forget the
        ids in the selection and the formula tracking; report whether the list shrank. */
    method RemoveObjectsById(ids: seq<int>) returns (removed: bool)
      modifies this`drawnObjects, this`selectedIds, this`autoFormulaStrokeIds
      ensures drawnObjects == Keep(old(drawnObjects), set i | i in ids)
      ensures selectedIds == old(selectedIds) - (set i | i in ids)
      ensures autoFormulaStrokeIds == old(autoFormulaStrokeIds) - (set i | i in ids)
      ensures removed <==> exists o :: o in old(drawnObjects) && o.id in ids
    {
      var drop := set i | i in ids;
      var beforeLen := |drawnObjects|;
      KeepShrinks(drawnObjects, drop);
      drawnObjects := Keep(drawnObjects, drop);
      removed := beforeLen != |drawnObjects|;
      selectedIds := selectedIds - drop;
      autoFormulaStrokeIds := autoFormulaStrokeIds - drop;
    }

    /** `selectAll`. */
    method SelectAll()
      modifies this`selectedIds
      ensures forall id :: id in selectedIds <==> exists o :: o in drawnObjects && o.id == id
    {
      selectedIds := Ids(drawnObjects);
    }

    /** `clearSelection`. */
    method ClearSelection()
      modifies this`selectedIds
      ensures selectedIds == {}
    {
      selectedIds := {};
    }

    /** `strokeIdsTouchingPath`: the ids of the stroke objects (path, line, rect, circle) that
        pass the bounding-box prefilter and are hit by some sample of the path, each once, in
        list order; nothing for a path of fewer than two samples. */
    method StrokeIdsTouchingPath(trig: Trig, pts: seq<Sample>, tolerance: real) returns (hits: seq<int>)
      ensures |pts| < 2 ==> hits == []
      ensures |pts| >= 2 ==> hits == Dedup(TouchingIds(trig, drawnObjects, pts, PointsExtent(pts), tolerance))
      ensures NoDuplicates(hits)
      ensures forall id :: id in hits <==>
                |pts| >= 2 && exists i :: 0 <= i < |drawnObjects| && drawnObjects[i].id == id && IsStroke(drawnObjects[i])
                                          && Near(TransformedBounds(trig, drawnObjects[i]), PointsExtent(pts), tolerance)
                                          && SampleHits(trig, drawnObjects[i], pts, tolerance)
    {
      hits := [];
      if |pts| < 2 {
        return;
      }
      var box := PathBounds(pts);
      var objs := drawnObjects;
      var i := 0;
      while i < |objs|
        invariant 0 <= i <= |objs|
        invariant hits == Dedup(TouchingIds(trig, objs[..i], pts, box, tolerance))
      {
        assert objs[..i + 1][..i] == objs[..i];
        var o := objs[i];
        if IsStroke(o) && Near(TransformedBounds(trig, o), box, tolerance) {
          var hit := AnySampleHits(trig, o, pts, tolerance);
          if hit && o.id !in hits {
            hits := hits + [o.id];
          }
        }
        i := i + 1;
      }
      assert objs[..i] == objs;
      forall id | id in hits
        ensures exists i :: 0 <= i < |objs| && objs[i].id == id && Touches(trig, objs[i], pts, box, tolerance)
      {
        TouchingIdsSound(trig, objs, pts, box, tolerance, id);
      }
      forall i | 0 <= i < |objs| && Touches(trig, objs[i], pts, box, tolerance)
        ensures objs[i].id in hits
      {
        TouchingIdsComplete(trig, objs, pts, box, tolerance, i);
      }
    }

    /* ---------------------------------------------------------- state */

    /** `getState`. */
    function GetState(): EngineState
      reads this`drawnObjects, this`viewOffsetX, this`viewOffsetY, this`viewScale, this`canvasWidth,
            this`canvasHeight, this`pageHeight, this`lastTimestampTime, idGenerator`nextId
    {
      EngineState(drawnObjects, viewOffsetX, viewOffsetY, viewScale, canvasWidth, canvasHeight, pageHeight,
                  idGenerator.nextId, lastTimestampTime)
    }

    /** What `setState` leaves, with the source's `||` fallbacks for missing (zero) fields. */
    function Restored(s: EngineState, currentNextId: int): (r: EngineState)
      reads this
      ensures r.viewScale != 0.0
    {
      EngineState(s.drawnObjects, s.viewOffsetX, s.viewOffsetY, OrReal(s.viewScale, 1.0),
                  ToCanvasDim(if s.canvasWidth == 0 then a4Width else s.canvasWidth as real, CANVAS_DEFAULT_WIDTH),
                  ToCanvasDim(if s.canvasHeight == 0 then Pages.A4Height(a4Width) * 2.0 else s.canvasHeight as real, CANVAS_DEFAULT_HEIGHT),
                  OrReal(s.pageHeight, Pages.A4Height(a4Width)), OrInt(s.nextId, currentNextId),
                  s.lastTimestampTime)
    }

    /** A snapshot whose fields are all set and whose canvas sizes are below 2^31, so that a
        canvas dimension keeps them, is restored exactly. */
    lemma RestoreSnapshot(s: EngineState, currentNextId: int)
      requires s.viewScale != 0.0 && 0 < s.canvasWidth < 0x8000_0000 && 0 < s.canvasHeight < 0x8000_0000
      requires s.pageHeight != 0.0 && s.nextId != 0
      ensures Restored(s, currentNextId) == s
    {
    }

    /** `setState`: take the snapshot's scene and view (with fallbacks) and clear the selection. */
    method SetState(s: EngineState)
      requires Valid()
      modifies this`drawnObjects, this`viewOffsetX, this`viewOffsetY, this`viewScale, this`canvasWidth,
               this`canvasHeight, this`pageHeight, this`lastTimestampTime, this`selectedIds, idGenerator
      ensures Valid()
      ensures GetState() == old(Restored(s, idGenerator.nextId))
      ensures selectedIds == {}
    {
      var r := Restored(s, idGenerator.nextId);
      drawnObjects := r.drawnObjects;
      viewOffsetX := r.viewOffsetX;
      viewOffsetY := r.viewOffsetY;
      viewScale := r.viewScale;
      canvasWidth := ToCanvasDim(if s.canvasWidth == 0 then a4Width else s.canvasWidth as real, CANVAS_DEFAULT_WIDTH);
      canvasHeight := ToCanvasDim(if s.canvasHeight == 0 then Pages.A4Height(a4Width) * 2.0 else s.canvasHeight as real, CANVAS_DEFAULT_HEIGHT);
      pageHeight := r.pageHeight;
      idGenerator.SetNext(r.nextId);
      lastTimestampTime := r.lastTimestampTime;
      selectedIds := {};
    }

    /** `clear`: an empty scene at the initial view, with a canvas of two bare pages. */
    method Clear()
      requires Valid()
      modifies this`drawnObjects, this`selectedIds, this`viewOffsetX, this`viewOffsetY, this`viewScale,
               this`lastTimestampTime, this`canvasWidth, this`canvasHeight
      ensures Valid()
      ensures drawnObjects == [] && selectedIds == {} && lastTimestampTime == 0
      ensures View() == old(View()).(offsetX := 0.0, offsetY := 0.0, scale := 1.0, canvasWidth := ToCanvasDim(a4Width, CANVAS_DEFAULT_WIDTH),
                                     canvasHeight := ToCanvasDim(Pages.A4Height(a4Width) * 2.0, CANVAS_DEFAULT_HEIGHT))
    {
      drawnObjects := [];
      selectedIds := {};
      viewOffsetX, viewOffsetY, viewScale := 0.0, 0.0, 1.0;
      lastTimestampTime := 0;
      canvasWidth := ToCanvasDim(a4Width, CANVAS_DEFAULT_WIDTH);
      canvasHeight := ToCanvasDim(Pages.A4Height(a4Width) * 2.0, CANVAS_DEFAULT_HEIGHT);
    }

    /* ---------------------------------------------------------- flood fill */

    /** The part of `floodFillAt` after the checks: fill from the site's pixel within its page
        and, unless the fill was declined or painted nothing, add one image object whose box
        covers exactly the painted pixels. */
    method FillFromSite(s: Site, fill: Colour.FillColor, pixels: array<Colour.Rgba>, proceed: bool,
                        now: int, clockText: string)
      returns (r: Option<Obj>, ghost painted: map<int, FloodFill.Cell>)
      requires Valid() && pixels.Length == canvasWidth * canvasHeight
      requires 0 <= s.px < canvasWidth && 0 <= s.py < canvasHeight && s.left == 5 && s.top <= s.py <= s.bottom
      requires s.page >= 0 && 0 <= FloodFill.Index(s.px, s.py, canvasWidth) < canvasWidth * canvasHeight
      modifies pixels, this`drawnObjects, this`lastTimestampTime, idGenerator
      ensures Valid()
      ensures FillEffect(old(pixels[..]), pixels[..], painted, canvasWidth, s, Colour.WrittenFill(fill))
      ensures r.None? ==> drawnObjects == old(drawnObjects) && idGenerator.nextId == old(idGenerator.nextId)
      ensures r.None? ==> |painted| == 0 || (!proceed && |painted| >= FillThreshold(a4Width, s.page))
      ensures r.Some? ==>
                && |painted| > 0 && (proceed || |painted| < FillThreshold(a4Width, s.page))
                && r.value.id == old(idGenerator.nextId) && Appended(old(drawnObjects), drawnObjects, r.value)
                && ImageCovers(r.value, painted, canvasWidth, canvasHeight)
    {
      var w, h := canvasWidth, canvasHeight;
      var i := FloodFill.Index(s.px, s.py, w);
      var outcome;
      outcome, painted := FloodFill.ScanlineFill(pixels, w, h, s.px, s.py, s.left, s.right, s.top, s.bottom,
                                                 pixels[i], Colour.WrittenFill(fill), Some(FillThreshold(a4Width, s.page)), proceed);
      match outcome
      case Declined =>
        r := None;
      case Finished(box) =>
        FloodFill.BoxEmptyIffNothingPainted(box, painted, w, h);
        EmptyMap(painted);
        if box.minX > box.maxX || box.minY > box.maxY {
          r := None;
        } else {
          var image := Obj(0, 0, "", Some(IdentityTransform),
                           Image(box.minX as real, box.minY as real, box.maxX as real, box.maxY as real));
          ghost var before := drawnObjects;
          var o := AddObject(image, now, clockText);
          assert drawnObjects[..|before| + 1] == before + [o];
          r := Some(o);
        }
    }

    /** `floodFillAt` over the rendered scene `pixels` (row-major, one entry per pixel), with
        `proceed` the answer the confirmation would get. Off the canvas, off the pages or on a
        pixel that already has the fill colour nothing happens; otherwise the scanline fill
        repaints pixels of the clicked colour within the page, and a fill that was not declined
        and painted something adds one image object covering exactly the painted pixels. */
    method FloodFillAt(x: real, y: real, fillColor: string, pixels: array<Colour.Rgba>, proceed: bool,
                       now: int, clockText: string)
      returns (r: Option<Obj>, ghost painted: map<int, FloodFill.Cell>)
      requires Valid()
      requires pixels.Length == canvasWidth * canvasHeight
      modifies pixels, this`drawnObjects, this`lastTimestampTime, idGenerator
      ensures Valid()
      ensures old(FillRefused(a4Width, canvasWidth, canvasHeight, x, y, fillColor, pixels[..])) ==>
                r.None? && |painted| == 0 && pixels[..] == old(pixels[..]) && drawnObjects == old(drawnObjects)
      ensures !old(FillRefused(a4Width, canvasWidth, canvasHeight, x, y, fillColor, pixels[..])) ==>
                var s := FillSite(a4Width, canvasWidth, canvasHeight, x, y).value;
                && FillEffect(old(pixels[..]), pixels[..], painted, canvasWidth, s, Colour.WrittenFill(Colour.HexToRgba(fillColor)))
                && (r.None? ==> drawnObjects == old(drawnObjects) &&
                                (|painted| == 0 || (!proceed && |painted| >= FillThreshold(a4Width, s.page))))
                && (r.Some? ==>
                      && |painted| > 0 && (proceed || |painted| < FillThreshold(a4Width, s.page))
                      && r.value.id == old(idGenerator.nextId) && Appended(old(drawnObjects), drawnObjects, r.value)
                      && ImageCovers(r.value, painted, canvasWidth, canvasHeight))
    {
      painted := map[];
      var site := FillSite(a4Width, canvasWidth, canvasHeight, x, y);
      var fill := Colour.HexToRgba(fillColor);
      if site.None? || Colour.SameColour(pixels[FloodFill.Index(site.value.px, site.value.py, canvasWidth)], fill) {
        return None, painted;
      }
      r, painted := FillFromSite(site.value, fill, pixels, proceed, now, clockText);
    }
  }

  /** The list grew and the object sits right after the old contents. */
  ghost predicate Appended(before: seq<Obj>, after: seq<Obj>, o: Obj)
  {
    |after| > |before| && after[..|before| + 1] == before + [o]
  }

  /** An image object whose corners, rounded down, give a box covering exactly the painted pixels. */
  ghost predicate ImageCovers(o: Obj, painted: map<int, FloodFill.Cell>, w: int, h: int)
  {
    o.shape.Image? &&
    FloodFill.BoxCovers(FloodFill.Box(o.shape.startX.Floor, o.shape.startY.Floor, o.shape.endX.Floor, o.shape.endY.Floor),
                        painted, w, h)
  }

  /** What the fill from a site does to the pixels: pixels of the clicked colour are repainted,
      all within the site's page, the clicked one among them. */
  ghost predicate FillEffect(before: seq<Colour.Rgba>, after: seq<Colour.Rgba>, painted: map<int, FloodFill.Cell>,
                             w: int, s: Site, fill: Colour.Rgba)
    requires 0 <= FloodFill.Index(s.px, s.py, w) < |before|
  {
    && FloodFill.Repainted(before, after, painted, before[FloodFill.Index(s.px, s.py, w)], fill)
    && FloodFill.PaintedWithin(painted, w, if s.px < s.left then s.px else s.left, s.right, s.top, s.bottom)
    && (s.px <= s.right ==> FloodFill.Index(s.px, s.py, w) in painted)
  }

  /** A row on a page lies between the integer rows bounding that page. */
  lemma RowOnPage(a4Width: real, py: int, rel: real, k: int)
    requires a4Width >= 0.0 && rel == py as real - Pages.PAGE_MARGIN && rel >= 0.0
    requires k == Pages.PageIndex(a4Width, rel) && Pages.YInPage(a4Width, rel) <= Pages.A4Height(a4Width)
    ensures Ceil(Pages.PageTop(a4Width, k)) <= py <= Pages.PageBottom(a4Width, k).Floor
  {
    var r := Pages.YInPage(a4Width, rel);
    assert py as real == Pages.PageTop(a4Width, k) + r;
  }

  lemma EmptyMap<K, V>(m: map<K, V>)
    ensures m.Keys == {} <==> |m| == 0
  {
    assert |m| == |m.Keys|;
  }

  /** A pixel inside a `w` by `h` canvas has a row-major index inside it. */
  lemma IndexInRange(px: int, py: int, w: int, h: int)
    requires 0 <= px < w && 0 <= py < h
    ensures 0 <= FloodFill.Index(px, py, w) < w * h
  {
    assert py * w + px < (py + 1) * w;
    MulLess(py + 1, h, w);
  }

  lemma MulLess(a: int, b: int, w: int)
    requires 0 < a <= b && w > 0
    ensures a * w <= b * w
  {
  }
}
