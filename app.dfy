/**
 * The application controller: pointer handlers that drive the engine's gesture fields, the
 * selection edits (toggle, marquee, move, rotate, resize), panning with automatic page
 * appending, and the commands that record history snapshots.
 */
module App {
  import opened Common
  import opened Geometry
  import opened Viewport
  import opened Drawing
  import History
  import Pages

  datatype PointerKind = Mouse | Pen | Touch

  /** A pointer event. `canvasX`/`canvasY` is the position relative to the preview canvas
      (`clientX - rect.left`, `clientY - rect.top`). */
  datatype PointerEvent = PointerEvent(pointerId: int, clientX: real, clientY: real, canvasX: real, canvasY: real,
                                       kind: PointerKind, buttons: int, pressure: real, shiftKey: bool)

  /** The toolbar's current tool; any other name is kept as it is. */
  datatype Tool = PenTool | EraserTool | HandTool | SelectTool | LineTool | CircleTool | RectTool | OtherTool(name: string)

  /** The toolbar's colour and brush size. */
  datatype Brush = Brush(color: string, size: real)

  /** The fields `importFromJson` reads; a missing or zero field is 0 (an empty list for the objects). */
  datatype ImportData = ImportData(drawnObjects: seq<Obj>, canvasWidth: real, canvasHeight: real, pageHeight: real,
                                   nextId: int)

  /** Which branch of `handlePointerDown` ran. */
  datatype DownKind = PinchDown | EraseDown | PanDown | SelectDown | DrawDown

  /** Which handler of `handlePointerMove` ran. */
  datatype MoveKind = PinchMove | PanMove | SelectionMove | DrawMove | NoMove

  const ERASER_COLOR: string := "#FFFFFF"
  const ERASER_SIZE: real := 30.0
  const DEFAULT_PRESSURE: real := 0.5
  /** How close to the canvas bottom (world units) the view must come for a page to be appended. */
  const NEAR_BOTTOM: real := 50.0
  /** Resize factors of this magnitude or less are replaced by 1. */
  const MIN_RESIZE_FACTOR: real := 0.01

  predicate IsShapeTool(tool: Tool)
  {
    tool.LineTool? || tool.CircleTool? || tool.RectTool?
  }

  predicate IsInkTool(tool: Tool)
  {
    tool.PenTool? || tool.EraserTool?
  }

  /** The pressure stored with a sample: 1 while erasing, the device's value when it reports
      one, 0.5 otherwise. */
  function SamplePressure(erasing: bool, reported: real): (p: real)
    ensures p > 0.0
    ensures erasing ==> p == 1.0
    ensures !erasing && reported > 0.0 ==> p == reported
  {
    if erasing then 1.0 else if reported > 0.0 then reported else DEFAULT_PRESSURE
  }

  /** The object `finishDrawing` adds for a tool that is not pen or eraser. */
  function ShapeFor(tool: Tool, start: Point, end: Point, size: real): (s: Shape)
    ensures tool.LineTool? ==> s == Line(start.x, start.y, end.x, end.y, size)
    ensures tool.RectTool? ==> s == Rect(start.x, start.y, end.x, end.y, size)
    ensures tool.CircleTool? ==> s == Circle(start.x, start.y, end.x, end.y, size)
    ensures !IsShapeTool(tool) ==> s.Other?
  {
    match tool
    case LineTool => Line(start.x, start.y, end.x, end.y, size)
    case RectTool => Rect(start.x, start.y, end.x, end.y, size)
    case CircleTool => Circle(start.x, start.y, end.x, end.y, size)
    case PenTool => Other("pen", start.x, start.y, end.x, end.y, size)
    case EraserTool => Other("eraser", start.x, start.y, end.x, end.y, size)
    case HandTool => Other("hand", start.x, start.y, end.x, end.y, size)
    case SelectTool => Other("select", start.x, start.y, end.x, end.y, size)
    case OtherTool(name) => Other(name, start.x, start.y, end.x, end.y, size)
  }

  /* ------------------------------------------------------------ selection edits */

  /** `selectObject`: with `add` the id is toggled, otherwise it becomes the whole selection. */
  function Toggled(sel: set<int>, id: int, add: bool): (r: set<int>)
    ensures add ==> (id in r <==> id !in sel)
    ensures add ==> forall x :: x != id ==> (x in r <==> x in sel)
    ensures !add ==> r == {id}
    ensures r <= sel + {id}
  {
    if !add then {id} else if id in sel then sel - {id} else sel + {id}
  }

  /** Toggling twice gives back the selection. */
  lemma ToggleTwice(sel: set<int>, id: int)
    ensures Toggled(Toggled(sel, id, true), id, true) == sel
  {
  }

  /** The marquee test: the transformed bounds lie fully inside the normalised rectangle. An
      object without bounds (NaN in the source) is never inside. */
  predicate InsideMarquee(b: Extent, m: Marquee)
  {
    b.Extent? && b.minX >= Min(m.x1, m.x2) && b.maxX <= Max(m.x1, m.x2) && b.minY >= Min(m.y1, m.y2) && b.maxY <= Max(m.y1, m.y2)
  }

  /** The ids `updateMarqueeSelection` selects. */
  function MarqueeIds(trig: Trig, objs: seq<Obj>, m: Marquee): (r: set<int>)
    ensures r <= Ids(objs)
  {
    set i | 0 <= i < |objs| && InsideMarquee(TransformedBounds(trig, objs[i]), m) :: objs[i].id
  }

  /** The marquee's corners may be given in any order. */
  lemma MarqueeCornersCommute(trig: Trig, objs: seq<Obj>, m: Marquee)
    ensures MarqueeIds(trig, objs, Marquee(m.x2, m.y2, m.x1, m.y1)) == MarqueeIds(trig, objs, m)
  {
    var m' := Marquee(m.x2, m.y2, m.x1, m.y1);
    assert forall b :: InsideMarquee(b, m') <==> InsideMarquee(b, m);
  }

  /** A bigger marquee selects at least what a smaller one inside it selects. */
  lemma {:induction false} MarqueeMonotone(trig: Trig, objs: seq<Obj>, small: Marquee, big: Marquee)
    requires Min(big.x1, big.x2) <= Min(small.x1, small.x2) && Max(small.x1, small.x2) <= Max(big.x1, big.x2)
    requires Min(big.y1, big.y2) <= Min(small.y1, small.y2) && Max(small.y1, small.y2) <= Max(big.y1, big.y2)
    ensures MarqueeIds(trig, objs, small) <= MarqueeIds(trig, objs, big)
  {
    forall id | id in MarqueeIds(trig, objs, small) ensures id in MarqueeIds(trig, objs, big) {
      var i :| 0 <= i < |objs| && InsideMarquee(TransformedBounds(trig, objs[i]), small) && objs[i].id == id;
      assert InsideMarquee(TransformedBounds(trig, objs[i]), big);
    }
  }

  /** The `forEach` over the objects that rebuilds the selection from the marquee. */
  method MarqueeSelect(trig: Trig, objs: seq<Obj>, m: Marquee) returns (sel: set<int>)
    ensures sel == MarqueeIds(trig, objs, m)
  {
    sel := {};
    var i := 0;
    while i < |objs|
      invariant 0 <= i <= |objs|
      invariant sel == MarqueeIds(trig, objs[..i], m)
    {
      ghost var before := objs[..i];
      assert objs[..i + 1] == before + [objs[i]];
      if InsideMarquee(TransformedBounds(trig, objs[i]), m) {
        sel := sel + {objs[i].id};
      }
      i := i + 1;
      assert MarqueeIds(trig, objs[..i], m) ==
             MarqueeIds(trig, before, m) + (if InsideMarquee(TransformedBounds(trig, objs[i - 1]), m) then {objs[i - 1].id} else {}) by {
        assert forall k :: 0 <= k < |before| ==> objs[..i][k] == before[k];
      }
    }
    assert objs[..i] == objs;
  }

  /** An in-place change of a selected object's transform, each attaching the identity first
      when there is none. Rotate and resize start from the transform captured for the object's
      id; an id with no captured transform (which the drag invariant rules out) only gets the
      identity attached. */
  datatype Edit =
    | EnsureEdit
    | MoveEdit(dx: real, dy: real)
    | RotateEdit(transforms: map<int, Transform>, angle: real)
    | ResizeEdit(transforms: map<int, Transform>, fx: real, fy: real)

  function Apply(e: Edit, o: Obj): (r: Obj)
    ensures r.id == o.id && r.shape == o.shape && r.color == o.color && r.timestamp == o.timestamp
    ensures r.transform.Some?
  {
    var t := TransformOf(o);
    match e
    case EnsureEdit => EnsureTransform(o)
    case MoveEdit(dx, dy) => o.(transform := Some(t.(tx := t.tx + dx, ty := t.ty + dy)))
    case RotateEdit(m, angle) =>
      if o.id in m then o.(transform := Some(t.(rotation := m[o.id].rotation + angle))) else EnsureTransform(o)
    case ResizeEdit(m, fx, fy) =>
      if o.id in m then o.(transform := Some(Rescaled(t, m[o.id], fx, fy))) else EnsureTransform(o)
  }

  /** `t` with the captured scale multiplied by the factors. */
  function Rescaled(t: Transform, init: Transform, fx: real, fy: real): Transform
  {
    Transform(t.tx, t.ty, t.rotation, init.scaleX * fx, init.scaleY * fy)
  }

  /** The list after applying an edit to every object whose id is selected. */
  function Edited(objs: seq<Obj>, ids: set<int>, e: Edit): (r: seq<Obj>)
    ensures |r| == |objs|
  {
    seq(|objs|, i requires 0 <= i < |objs| => if objs[i].id in ids then Apply(e, objs[i]) else objs[i])
  }

  /** Edits keep every object's id, so they keep the set of ids. */
  lemma EditedIds(objs: seq<Obj>, ids: set<int>, e: Edit)
    ensures Ids(Edited(objs, ids, e)) == Ids(objs)
    ensures forall i :: 0 <= i < |objs| ==> Edited(objs, ids, e)[i].id == objs[i].id
  {
    var r := Edited(objs, ids, e);
    forall x | x in Ids(objs) ensures x in Ids(r) {
      var o :| o in objs && o.id == x;
      var i :| 0 <= i < |objs| && objs[i] == o;
      assert r[i].id == x;
    }
    forall x | x in Ids(r) ensures x in Ids(objs) {
      var o :| o in r && o.id == x;
      var i :| 0 <= i < |r| && r[i] == o;
      assert objs[i].id == x;
    }
  }

  /** Two successive edits of the same selection compose object by object. */
  lemma EditedTwice(objs: seq<Obj>, ids: set<int>, e1: Edit, e2: Edit, e3: Edit)
    requires forall i :: 0 <= i < |objs| && objs[i].id in ids ==> Apply(e2, Apply(e1, objs[i])) == Apply(e3, objs[i])
    ensures Edited(Edited(objs, ids, e1), ids, e2) == Edited(objs, ids, e3)
  {
    var a := Edited(Edited(objs, ids, e1), ids, e2);
    var b := Edited(objs, ids, e3);
    forall i | 0 <= i < |objs| ensures a[i] == b[i] {
      assert Edited(objs, ids, e1)[i] == if objs[i].id in ids then Apply(e1, objs[i]) else objs[i];
    }
  }

  /** Two moves of a selection are one move by the sum. */
  lemma MovesAdd(objs: seq<Obj>, ids: set<int>, a: real, b: real, c: real, d: real)
    ensures Edited(Edited(objs, ids, MoveEdit(a, b)), ids, MoveEdit(c, d)) == Edited(objs, ids, MoveEdit(a + c, b + d))
  {
    forall i | 0 <= i < |objs| ensures Apply(MoveEdit(c, d), Apply(MoveEdit(a, b), objs[i])) == Apply(MoveEdit(a + c, b + d), objs[i]) {
      var t := TransformOf(objs[i]);
      assert TransformOf(Apply(MoveEdit(a, b), objs[i])) == t.(tx := t.tx + a, ty := t.ty + b);
    }
    EditedTwice(objs, ids, MoveEdit(a, b), MoveEdit(c, d), MoveEdit(a + c, b + d));
  }

  /** A later rotation from the captured transforms replaces an earlier one. */
  lemma RotationsReplace(objs: seq<Obj>, ids: set<int>, m: map<int, Transform>, a: real, b: real)
    ensures Edited(Edited(objs, ids, RotateEdit(m, a)), ids, RotateEdit(m, b)) == Edited(objs, ids, RotateEdit(m, b))
  {
    forall i | 0 <= i < |objs| ensures Apply(RotateEdit(m, b), Apply(RotateEdit(m, a), objs[i])) == Apply(RotateEdit(m, b), objs[i]) {
      var t := TransformOf(objs[i]);
      if objs[i].id in m {
        assert TransformOf(Apply(RotateEdit(m, a), objs[i])) == t.(rotation := m[objs[i].id].rotation + a);
      }
    }
    EditedTwice(objs, ids, RotateEdit(m, a), RotateEdit(m, b), RotateEdit(m, b));
  }

  /** A later resize from the captured transforms replaces an earlier one. */
  lemma ResizesReplace(objs: seq<Obj>, ids: set<int>, m: map<int, Transform>, fx: real, fy: real, gx: real, gy: real)
    ensures Edited(Edited(objs, ids, ResizeEdit(m, fx, fy)), ids, ResizeEdit(m, gx, gy)) == Edited(objs, ids, ResizeEdit(m, gx, gy))
  {
    forall i | 0 <= i < |objs| ensures Apply(ResizeEdit(m, gx, gy), Apply(ResizeEdit(m, fx, fy), objs[i])) == Apply(ResizeEdit(m, gx, gy), objs[i]) {
      ResizeTwice(objs[i], m, fx, fy, gx, gy);
    }
    EditedTwice(objs, ids, ResizeEdit(m, fx, fy), ResizeEdit(m, gx, gy), ResizeEdit(m, gx, gy));
  }

  lemma ResizeTwice(o: Obj, m: map<int, Transform>, fx: real, fy: real, gx: real, gy: real)
    ensures Apply(ResizeEdit(m, gx, gy), Apply(ResizeEdit(m, fx, fy), o)) == Apply(ResizeEdit(m, gx, gy), o)
  {
    var o1 := Apply(ResizeEdit(m, fx, fy), o);
    if o.id in m {
      assert TransformOf(o1) == Rescaled(TransformOf(o), m[o.id], fx, fy);
    }
  }

  /** The `forEach` that changes the selected objects' transforms in place. */
  method EditSelected(objs: seq<Obj>, ids: set<int>, e: Edit) returns (r: seq<Obj>)
    ensures r == Edited(objs, ids, e)
  {
    r := objs;
    var i := 0;
    while i < |objs|
      invariant 0 <= i <= |objs| && |r| == |objs|
      invariant forall k :: 0 <= k < i ==> r[k] == Edited(objs, ids, e)[k]
      invariant forall k :: i <= k < |objs| ==> r[k] == objs[k]
    {
      if r[i].id in ids {
        r := r[i := Apply(e, r[i])];
      }
      i := i + 1;
    }
  }

  /** The object list after a move drag whose pointer went through `path`, starting from `last`:
      each step moves the selection by the difference from the previous position. */
  function MoveDragged(objs: seq<Obj>, ids: set<int>, last: Point, path: seq<Point>): seq<Obj>
    decreases |path|
  {
    if |path| == 0 then objs
    else MoveDragged(Edited(objs, ids, MoveEdit(path[0].x - last.x, path[0].y - last.y)), ids, path[0], path[1..])
  }

  /** However the pointer wanders, a move drag translates the selection by end minus start. */
  lemma {:induction false} MoveDragTotal(objs: seq<Obj>, ids: set<int>, start: Point, path: seq<Point>)
    requires |path| > 0
    ensures MoveDragged(objs, ids, start, path) ==
            Edited(objs, ids, MoveEdit(path[|path| - 1].x - start.x, path[|path| - 1].y - start.y))
    decreases |path|
  {
    var step := Edited(objs, ids, MoveEdit(path[0].x - start.x, path[0].y - start.y));
    if |path| > 1 {
      var rest := path[1..];
      MoveDragTotal(step, ids, path[0], rest);
      assert rest[|rest| - 1] == path[|path| - 1];
      MovesAdd(objs, ids, path[0].x - start.x, path[0].y - start.y,
               path[|path| - 1].x - path[0].x, path[|path| - 1].y - path[0].y);
    }
  }

  /** The transforms `startTransformation` captures, by id (a later object with the same id
      overwrites an earlier one, as `Map.set` does). */
  function Captured(objs: seq<Obj>): (m: map<int, Transform>)
    ensures m.Keys == Ids(objs)
  {
    if |objs| == 0 then map[]
    else
      var init := objs[..|objs| - 1];
      assert forall o :: o in objs <==> o in init || o == objs[|objs| - 1];
      Captured(init)[objs[|objs| - 1].id := TransformOf(objs[|objs| - 1])]
  }

  /** Each captured transform is the one of the last object with that id. */
  lemma {:induction false} CapturedIsLast(objs: seq<Obj>, i: int)
    requires 0 <= i < |objs| && forall j :: i < j < |objs| ==> objs[j].id != objs[i].id
    ensures objs[i].id in Captured(objs) && Captured(objs)[objs[i].id] == TransformOf(objs[i])
  {
    if i < |objs| - 1 {
      var init := objs[..|objs| - 1];
      assert init[i] == objs[i];
      CapturedIsLast(init, i);
    }
  }

  /** The `forEach` that fills the transforms map. */
  method CaptureTransforms(objs: seq<Obj>) returns (m: map<int, Transform>)
    ensures m == Captured(objs)
  {
    m := map[];
    var i := 0;
    while i < |objs|
      invariant 0 <= i <= |objs|
      invariant m == Captured(objs[..i])
    {
      assert objs[..i + 1][..i] == objs[..i];
      m := m[objs[i].id := TransformOf(objs[i])];
      i := i + 1;
    }
    assert objs[..i] == objs;
  }

  /** The selected objects' ids are exactly the selected ids that are present. */
  lemma PickedIds(objs: seq<Obj>, sel: set<int>)
    ensures Ids(Picked(objs, sel)) == sel * Ids(objs)
  {
  }

  /** The angle the pointer has turned about the centre since the drag started. */
  function RotationAngle(trig: Trig, start: Point, p: Point, cx: real, cy: real): (a: real)
    ensures p == start ==> a == 0.0
  {
    trig.atan2(p.y - cy, p.x - cx) - trig.atan2(start.y - cy, start.x - cx)
  }

  /** One resize factor: the pointer's distance from the centre over the start's (a zero start
      distance counts as 1); a factor that is too small in magnitude becomes 1. */
  function ResizeFactor(p: real, start: real, center: real): (f: real)
    ensures f > MIN_RESIZE_FACTOR || f < -MIN_RESIZE_FACTOR
    ensures start != center && p == start ==> f == 1.0
    ensures start != center && (p - center > MIN_RESIZE_FACTOR * (start - center) > 0.0 ||
                                p - center < MIN_RESIZE_FACTOR * (start - center) < 0.0) ==>
              f * (start - center) == p - center
  {
    var q := (p - center) / OrReal(start - center, 1.0);
    QuotientFacts(p - center, OrReal(start - center, 1.0));
    if q > MIN_RESIZE_FACTOR || q < -MIN_RESIZE_FACTOR then q else 1.0
  }

  lemma QuotientFacts(a: real, b: real)
    requires b != 0.0
    ensures (a / b) * b == a
    ensures a == b ==> a / b == 1.0
    ensures a > MIN_RESIZE_FACTOR * b > 0.0 || a < MIN_RESIZE_FACTOR * b < 0.0 ==> a / b > MIN_RESIZE_FACTOR
  {
    DivMul(a, b);
    if a > MIN_RESIZE_FACTOR * b > 0.0 {
      FactorAbove(a, b);
    }
    if a < MIN_RESIZE_FACTOR * b < 0.0 {
      FactorAboveNeg(a, b);
    }
  }

  lemma FactorAbove(a: real, b: real)
    requires b > 0.0 && a > MIN_RESIZE_FACTOR * b
    ensures a / b > MIN_RESIZE_FACTOR
  {
    DivMul(a, b);
    if a / b <= MIN_RESIZE_FACTOR {
      MulMonotone(a / b, MIN_RESIZE_FACTOR, b);
    }
  }

  lemma FactorAboveNeg(a: real, b: real)
    requires b < 0.0 && a < MIN_RESIZE_FACTOR * b
    ensures a / b > MIN_RESIZE_FACTOR
  {
    DivMul(a, b);
    FactorAbove(-a, -b);
    assert -a / -b == a / b;
  }

  /** The pair of factors a handle applies: an `x` handle keeps the height, a `y` handle the width. */
  function AxisFactors(axis: Axis, fx: real, fy: real): (r: (real, real))
    ensures axis.AxisX? ==> r == (fx, 1.0)
    ensures axis.AxisY? ==> r == (1.0, fy)
    ensures axis.Both? ==> r == (fx, fy)
  {
    match axis
    case Both => (fx, fy)
    case AxisX => (fx, 1.0)
    case AxisY => (1.0, fy)
  }

  /** The scale a pinch asks for: the starting scale times the ratio of the finger distances
      (a zero starting distance counts as 1). */
  function PinchScale(startScale: real, dist: real, startDist: real): (s: real)
    ensures startDist != 0.0 ==> s * startDist == startScale * dist
    ensures dist == startDist && startDist != 0.0 ==> s == startScale
  {
    DivMul(dist, OrReal(startDist, 1.0));
    startScale * (dist / OrReal(startDist, 1.0))
  }

  function Midpoint(a: Point, b: Point): (m: Point)
    ensures m.x - a.x == b.x - m.x && m.y - a.y == b.y - m.y
  {
    Point((a.x + b.x) / 2.0, (a.y + b.y) / 2.0)
  }

  /** The topmost object under a point: the last in list order that the hit test accepts. */
  function TopmostHit(trig: Trig, objs: seq<Obj>, p: Point): (r: Option<nat>)
    ensures r.Some? ==> r.value < |objs| && ObjectHitTest(trig, objs[r.value], p, DefaultTolerance)
    ensures r.Some? ==> forall j :: r.value < j < |objs| ==> !ObjectHitTest(trig, objs[j], p, DefaultTolerance)
    ensures r.None? <==> forall j :: 0 <= j < |objs| ==> !ObjectHitTest(trig, objs[j], p, DefaultTolerance)
  {
    if |objs| == 0 then None
    else if ObjectHitTest(trig, objs[|objs| - 1], p, DefaultTolerance) then Some(|objs| - 1)
    else
      var init := objs[..|objs| - 1];
      assert forall j :: 0 <= j < |init| ==> init[j] == objs[j];
      TopmostHit(trig, init, p)
  }

  /** The edit a rotate or resize drag asks for at `p`: a rotation by the angle the pointer has
      turned about the centre of the captured bounds, or a resize by the factors of its
      distance from that centre, limited to the handle's axis. */
  function TransformEdit(trig: Trig, d: Drag, p: Point): (e: Edit)
    requires d.initial.Some? && d.initial.value.bounds.Extent?
    ensures d.mode.RotateDrag? ==> e.RotateEdit? && e.transforms == d.initial.value.transforms
    ensures !d.mode.RotateDrag? ==> e.ResizeEdit? && e.transforms == d.initial.value.transforms
    ensures e.ResizeEdit? && d.axis.AxisX? ==> e.fy == 1.0
    ensures e.ResizeEdit? && d.axis.AxisY? ==> e.fx == 1.0
    ensures p == d.start ==> (e.RotateEdit? ==> e.angle == 0.0)
  {
    var gb := d.initial.value.bounds;
    var cx, cy := (gb.minX + gb.maxX) / 2.0, (gb.minY + gb.maxY) / 2.0;
    if d.mode.RotateDrag? then RotateEdit(d.initial.value.transforms, RotationAngle(trig, d.start, p, cx, cy))
    else
      var fs := AxisFactors(d.axis, ResizeFactor(p.x, d.start.x, cx), ResizeFactor(p.y, d.start.y, cy));
      ResizeEdit(d.initial.value.transforms, fs.0, fs.1)
  }

  /** Back at the start point of a resize drag whose start is off the centre lines, every
      selected object gets back its captured transform's scale. */
  lemma ResizeAtStart(trig: Trig, d: Drag, objs: seq<Obj>, ids: set<int>, i: int)
    requires d.initial.Some? && d.initial.value.bounds.Extent? && d.mode.ResizeDrag?
    requires var gb := d.initial.value.bounds;
             d.start.x != (gb.minX + gb.maxX) / 2.0 && d.start.y != (gb.minY + gb.maxY) / 2.0
    requires 0 <= i < |objs| && objs[i].id in ids && objs[i].id in d.initial.value.transforms
    ensures var t := TransformOf(Edited(objs, ids, TransformEdit(trig, d, d.start))[i]);
            var init := d.initial.value.transforms[objs[i].id];
            t.scaleX == init.scaleX && t.scaleY == init.scaleY
  {
  }

  /** The drag `startTransformation` starts from a handle: rotate or resize (along the handle's
      axis), with the selected objects' transforms and the union of their bounds captured. */
  function TransformDrag(trig: Trig, handle: HandleHit, coords: Point, objs: seq<Obj>, sel: set<int>): (d: Drag)
    ensures d.start == coords && d.last == coords && d.initial.Some?
    ensures d.mode == if handle.RotateHit? then RotateDrag else ResizeDrag
    ensures d.axis == if handle.ResizeHit? then handle.axis else Both
    ensures d.initial.value.transforms.Keys == sel * Ids(objs)
  {
    var selected := Picked(objs, sel);
    PickedIds(objs, sel);
    Drag(if handle.RotateHit? then RotateDrag else ResizeDrag, coords, coords,
         Some(Initial(Captured(selected), UnionBounds(trig, selected))), if handle.ResizeHit? then handle.axis else Both)
  }

  /** The work of `startTransformation` on the object list: attach the transforms, then capture
      them and the bounds from the selected objects. */
  method BeginTransform(trig: Trig, handle: HandleHit, coords: Point, objs: seq<Obj>, sel: set<int>)
    returns (edited: seq<Obj>, d: Drag)
    ensures edited == Edited(objs, sel, EnsureEdit) && Ids(edited) == Ids(objs)
    ensures d == TransformDrag(trig, handle, coords, edited, sel)
  {
    edited := EditSelected(objs, sel, EnsureEdit);
    EditedIds(objs, sel, EnsureEdit);
    var selected := Picked(edited, sel);
    var transforms := CaptureTransforms(selected);
    var bounds := SelectionBounds(trig, selected);
    d := Drag(if handle.RotateHit? then RotateDrag else ResizeDrag, coords, coords,
              Some(Initial(transforms, bounds)), if handle.ResizeHit? then handle.axis else Both);
  }

  /** What picking at `p` leaves: the topmost object under it toggled into (or made) the
      selection with a move drag, or, with nothing there, an empty selection and a fresh
      marquee drag. */
  ghost predicate Picks(trig: Trig, p: Point, shift: bool, objs: seq<Obj>, sel: set<int>, marquee: Option<Marquee>,
                        sel': set<int>, drag': Option<Drag>, marquee': Option<Marquee>)
  {
    var hit := TopmostHit(trig, objs, p);
    && (hit.Some? ==> sel' == Toggled(sel, objs[hit.value].id, shift) && marquee' == marquee
                      && drag' == Some(Drag(MoveDrag, p, p, None, Both)))
    && (hit.None? ==> sel' == {} && marquee' == Some(Marquee(p.x, p.y, p.x, p.y))
                      && drag' == Some(Drag(MarqueeDrag, p, p, None, Both)))
  }

  /* ------------------------------------------------------------ drag invariant */

  /** What the pointer handlers rely on about a drag: a marquee drag has its rectangle, and a
      rotate or resize drag has captured a transform for every selected id. */
  predicate DragConsistent(d: Option<Drag>, m: Option<Marquee>, sel: set<int>)
  {
    d.Some? ==>
      && (d.value.mode.MarqueeDrag? ==> m.Some?)
      && (d.value.mode.RotateDrag? || d.value.mode.ResizeDrag? ==>
            d.value.initial.Some? && sel <= d.value.initial.value.transforms.Keys)
  }

  /* ------------------------------------------------------------ import */

  /** `Math.max(0, ...ids)`. */
  function MaxId(objs: seq<Obj>): (m: int)
    ensures m >= 0
  {
    if |objs| == 0 then 0
    else
      var rest := MaxId(objs[..|objs| - 1]);
      if objs[|objs| - 1].id > rest then objs[|objs| - 1].id else rest
  }

  /** `MaxId` is the largest id, or 0 when every id is below 0. */
  lemma {:induction false} MaxIdIsMax(objs: seq<Obj>)
    ensures forall i :: 0 <= i < |objs| ==> objs[i].id <= MaxId(objs)
    ensures MaxId(objs) == 0 || exists i :: 0 <= i < |objs| && objs[i].id == MaxId(objs)
  {
    if |objs| > 0 {
      var init := objs[..|objs| - 1];
      MaxIdIsMax(init);
      assert forall i :: 0 <= i < |init| ==> init[i] == objs[i];
    }
  }

  /** `data.nextId`, or one past the largest id when it is missing or zero. */
  function ImportedNextId(data: ImportData): (n: int)
    ensures data.nextId != 0 ==> n == data.nextId
    ensures data.nextId == 0 ==> n >= 1
  {
    OrInt(data.nextId, MaxId(data.drawnObjects) + 1)
  }

  /** A document whose stored canvas width is negative leaves the canvas at its default width:
      the value wraps past 2^31 and the canvas reflection falls back to 300. */
  lemma NegativeImportedWidthIsDefault(data: ImportData, width: nat, height: nat, pageHeight: real,
                                       previewHeight: nat, lastTimestampTime: int)
    requires -2147483648.0 <= data.canvasWidth <= -1.0
    ensures ImportedState(data, width, height, pageHeight, previewHeight, lastTimestampTime).canvasWidth
            == CANVAS_DEFAULT_WIDTH
  {
  }

  /** After an import without a stored counter, the next generated id is above every id, so no
      object uses it. */
  lemma ImportedIdIsFresh(data: ImportData)
    requires data.nextId == 0
    ensures ImportedNextId(data) == MaxId(data.drawnObjects) + 1
    ensures IdsBelow(data.drawnObjects, ImportedNextId(data))
    ensures ImportedNextId(data) !in Ids(data.drawnObjects)
  {
    MaxIdIsMax(data.drawnObjects);
    assert forall o :: o in data.drawnObjects ==> o.id < ImportedNextId(data);
  }

  /** The engine state an import leaves, given the canvas size, page height and preview height
      before it. */
  predicate Imported(data: ImportData, width: nat, height: nat, pageHeight: real, previewHeight: nat, s: EngineState)
  {
    && s.drawnObjects == data.drawnObjects
    && s.canvasWidth == (if data.canvasWidth == 0.0 then width else ToCanvasDim(data.canvasWidth, CANVAS_DEFAULT_WIDTH))
    && s.canvasHeight == (if data.canvasHeight == 0.0 then height else ToCanvasDim(data.canvasHeight, CANVAS_DEFAULT_HEIGHT))
    && s.pageHeight == OrReal(data.pageHeight, OrReal(pageHeight, previewHeight as real))
    && s.nextId == ImportedNextId(data)
    && s.viewOffsetX == 0.0 && s.viewOffsetY == 0.0 && s.viewScale == 1.0
  }

  /** The snapshot an import leaves: the document's fields, with the fallbacks of `Imported`,
      the view reset and the timestamp clock untouched. */
  function ImportedState(data: ImportData, width: nat, height: nat, pageHeight: real, previewHeight: nat,
                         lastTimestampTime: int): (s: EngineState)
    ensures Imported(data, width, height, pageHeight, previewHeight, s)
    ensures s.lastTimestampTime == lastTimestampTime
    ensures s.canvasWidth < 0x8000_0000 || s.canvasWidth == width
    ensures s.canvasHeight < 0x8000_0000 || s.canvasHeight == height
  {
    EngineState(data.drawnObjects, 0.0, 0.0, 1.0,
                if data.canvasWidth == 0.0 then width else ToCanvasDim(data.canvasWidth, CANVAS_DEFAULT_WIDTH),
                if data.canvasHeight == 0.0 then height else ToCanvasDim(data.canvasHeight, CANVAS_DEFAULT_HEIGHT),
                OrReal(data.pageHeight, OrReal(pageHeight, previewHeight as real)),
                ImportedNextId(data), lastTimestampTime)
  }

  /* ------------------------------------------------------------ panning */

  /** The pan offset on one axis after moving by `delta` screen pixels, clamped. */
  function PanOffset(offset: real, delta: real, scale: real, canvasDim: real, viewDim: real): (r: real)
    requires scale != 0.0
    ensures 0.0 <= r <= MaxOffset(canvasDim, viewDim, scale)
    ensures 0.0 <= offset - delta / scale <= MaxOffset(canvasDim, viewDim, scale) ==> r == offset - delta / scale
  {
    ClampOffset(offset - delta / scale, canvasDim, viewDim, scale)
  }

  /** The automatic page rule: the view's bottom is within 50 of the canvas bottom, the cooldown
      has passed, and the canvas has grown by a page since the last automatic page. */
  predicate AutoAddDue(offsetY: real, viewHeight: real, scale: real, canvasHeight: int, pageHeight: real,
                       now: real, lastAutoAddTime: real, lastAutoAddHeight: int)
    requires scale != 0.0
  {
    && offsetY + viewHeight / scale > canvasHeight as real - NEAR_BOTTOM
    && now - lastAutoAddTime > AUTO_ADD_COOLDOWN
    && (canvasHeight - lastAutoAddHeight) as real >= pageHeight
  }

  /** Right after an automatic page, no other is added until the canvas grows again by a page
      (for a positive page height). */
  lemma AutoAddWaitsForGrowth(offsetY: real, viewHeight: real, scale: real, canvasHeight: int, pageHeight: real,
                              now: real, later: real)
    requires scale != 0.0 && pageHeight > 0.0
    ensures !AutoAddDue(offsetY, viewHeight, scale, canvasHeight, pageHeight, later, now, canvasHeight)
  {
  }

  /** Neither is one added within the cooldown. */
  lemma AutoAddWaitsForCooldown(offsetY: real, viewHeight: real, scale: real, canvasHeight: int, pageHeight: real,
                                lastTime: real, lastHeight: int, now: real)
    requires scale != 0.0 && now - lastTime <= AUTO_ADD_COOLDOWN
    ensures !AutoAddDue(offsetY, viewHeight, scale, canvasHeight, pageHeight, now, lastTime, lastHeight)
  {
  }

  /* ------------------------------------------------------------ drawing */

  /** The list after `currentPath.points.push(sample)`: the path with that id gets the sample
      at its end; everything else is unchanged. */
  function WithSample(objs: seq<Obj>, id: int, s: Sample): (r: seq<Obj>)
    ensures |r| == |objs|
    ensures forall i :: 0 <= i < |objs| ==> r[i].id == objs[i].id
    ensures forall i :: 0 <= i < |objs| && objs[i].id == id && objs[i].shape.Path? ==>
              r[i] == objs[i].(shape := objs[i].shape.(points := objs[i].shape.points + [s]))
    ensures forall i :: 0 <= i < |objs| && !(objs[i].id == id && objs[i].shape.Path?) ==> r[i] == objs[i]
  {
    seq(|objs|, i requires 0 <= i < |objs| =>
      if objs[i].id == id && objs[i].shape.Path? then objs[i].(shape := objs[i].shape.(points := objs[i].shape.points + [s]))
      else objs[i])
  }

  /** Adding a sample keeps the set of ids. */
  lemma WithSampleIds(objs: seq<Obj>, id: int, s: Sample)
    ensures Ids(WithSample(objs, id, s)) == Ids(objs)
  {
    var r := WithSample(objs, id, s);
    forall x | x in Ids(objs) ensures x in Ids(r) {
      var o :| o in objs && o.id == x;
      var i :| 0 <= i < |objs| && objs[i] == o;
      assert r[i].id == x;
    }
    forall x | x in Ids(r) ensures x in Ids(objs) {
      var o :| o in r && o.id == x;
      var i :| 0 <= i < |r| && r[i] == o;
      assert objs[i].id == x;
    }
  }

  /** The history after `handlePointerUp`: one snapshot when a drawing ends that had a path
      or used a shape tool, and one more when a selection drag ends; both show the final state. */
  function Ended<S>(st: History.Stacks<S>, s: S, drawing: bool, recorded: bool, dragging: bool): (r: History.Stacks<S>)
    requires |st.history| <= HISTORY_LIMIT
    ensures |r.redo| == 0 || r == st
    ensures !(drawing && recorded) && !dragging ==> r == st
    ensures (drawing && recorded) || dragging ==> |r.history| > 0 && r.history[|r.history| - 1] == s
  {
    PushedIf(PushedIf(st, s, drawing && recorded), s, dragging)
  }

  /** The history after a push that happens only when `b` holds. */
  function PushedIf<S>(st: History.Stacks<S>, s: S, b: bool): (r: History.Stacks<S>)
    requires |st.history| <= HISTORY_LIMIT
    ensures !b ==> r == st
    ensures b ==> r == History.PushStep(st, s)
  {
    if b then History.PushStep(st, s) else st
  }

  /* ------------------------------------------------------------ the application */

  class NotesApp {
    const engine: DrawingEngine
    const history: History.HistoryManager<EngineState>

    /** The engine and the history are valid, the pointer map has one entry per id, and every
        selected id is present. */
    ghost predicate Settled()
      reads this, engine, history
    {
      engine.Valid() && history.Valid() && DistinctPointers(engine.pointers)
      && engine.selectedIds <= Ids(engine.drawnObjects)
    }

    /** Between pointer events the current drag is consistent as well. */
    ghost predicate Valid()
      reads this, engine, history
    {
      Settled() && DragConsistent(engine.selectionDrag, engine.marqueeRect, engine.selectedIds)
    }

    /** The engine over a window of width `innerWidth`, and the history over the storage slot. */
    constructor (innerWidth: real, previewW: nat, previewH: nat, storage: History.Stored<EngineState>)
      requires innerWidth >= 0.0
      ensures Valid() && fresh(engine) && fresh(engine.idGenerator) && fresh(history)
      ensures engine.drawnObjects == [] && engine.selectedIds == {} && history.history == [] && history.stored == storage
    {
      engine := new DrawingEngine(innerWidth, previewW, previewH);
      history := new History.HistoryManager(storage);
    }

    /* ---------------------------------------------------------- pinch */

    /** `startPinchGesture`: remember the finger distance, scale and centre; leave any pan,
        drawing, drag and marquee. */
    method StartPinchGesture(trig: Trig)
      requires Valid() && |engine.pointers| == 2
      modifies engine`pinchStartDist, engine`pinchStartScale, engine`pinchCenter, engine`isPinching, engine`isPanning,
               engine`isDrawing, engine`selectionDrag, engine`marqueeRect
      ensures Valid()
      ensures var p0, p1 := engine.pointers[0].pos, engine.pointers[1].pos;
              && engine.pinchStartDist == trig.hypot(p1.x - p0.x, p1.y - p0.y) && engine.pinchCenter == Midpoint(p0, p1)
      ensures engine.pinchStartScale == engine.viewScale
      ensures engine.isPinching && !engine.isPanning && !engine.isDrawing
      ensures engine.selectionDrag.None? && engine.marqueeRect.None?
    {
      var p0, p1 := engine.pointers[0].pos, engine.pointers[1].pos;
      engine.pinchStartDist := trig.hypot(p1.x - p0.x, p1.y - p0.y);
      engine.pinchStartScale := engine.viewScale;
      engine.pinchCenter := Midpoint(p0, p1);
      engine.isPinching := true;
      engine.isPanning := false;
      engine.isDrawing := false;
      engine.selectionDrag := None;
      engine.marqueeRect := None;
    }

    /** `updatePinchZoom`: zoom to the pinch scale about the pinch centre. */
    method UpdatePinchZoom(trig: Trig, zoomLocked: bool)
      requires Valid() && |engine.pointers| >= 2
      modifies engine`viewScale, engine`viewOffsetX, engine`viewOffsetY
      ensures Valid()
      ensures zoomLocked ==> engine.viewScale == old(engine.viewScale) && engine.viewOffsetX == old(engine.viewOffsetX) && engine.viewOffsetY == old(engine.viewOffsetY)
      ensures var p0, p1 := engine.pointers[0].pos, engine.pointers[1].pos;
              var s := PinchScale(engine.pinchStartScale, trig.hypot(p1.x - p0.x, p1.y - p0.y), engine.pinchStartDist);
              !zoomLocked ==> engine.viewScale == ZoomScale(s)
      ensures !zoomLocked ==>
                && ScreenToWorld(engine.pinchCenter.x, engine.viewScale, engine.viewOffsetX)
                   == ScreenToWorld(engine.pinchCenter.x, old(engine.viewScale), old(engine.viewOffsetX))
                && ScreenToWorld(engine.pinchCenter.y, engine.viewScale, engine.viewOffsetY)
                   == ScreenToWorld(engine.pinchCenter.y, old(engine.viewScale), old(engine.viewOffsetY))
    {
      var p0, p1 := engine.pointers[0].pos, engine.pointers[1].pos;
      var d := trig.hypot(p1.x - p0.x, p1.y - p0.y);
      var s := PinchScale(engine.pinchStartScale, d, engine.pinchStartDist);
      engine.SetZoom(s, engine.pinchCenter.x, engine.pinchCenter.y, zoomLocked);
    }

    /* ---------------------------------------------------------- panning */

    /** `startPanning`. */
    method StartPanning(e: PointerEvent)
      requires Valid()
      modifies engine`isPanning, engine`panStart
      ensures Valid()
      ensures engine.isPanning && engine.panStart == Point(e.clientX, e.clientY)
    {
      engine.isPanning := true;
      engine.panStart := Point(e.clientX, e.clientY);
    }

    /** `addPage`: one more page, then a snapshot. */
    method AddPage()
      requires Valid()
      modifies engine`canvasHeight, history
      ensures Valid()
      ensures engine.canvasHeight == ToCanvasDim(old(engine.canvasHeight) as real + Pages.PageSlot(engine.a4Width), CANVAS_DEFAULT_HEIGHT)
      ensures history.Current() == History.PushStep(old(history.Current()), engine.GetState())
    {
      engine.AddPage();
      history.PushHistory(engine.GetState());
    }

    /** `updatePanning`: move the view against the pointer, clamp it to the canvas, and append a
        page when the automatic page rule holds (measured with the clamped offset and the
        canvas height before appending). */
    method UpdatePanning(e: PointerEvent, now: real)
      requires Valid()
      modifies engine`viewOffsetX, engine`viewOffsetY, engine`canvasHeight, engine`lastAutoAddHeight,
               engine`lastAutoAddTime, engine`panStart, history
      ensures Valid()
      ensures engine.viewOffsetX == PanOffset(old(engine.viewOffsetX), e.clientX - old(engine.panStart.x), engine.viewScale,
                                              engine.canvasWidth as real, engine.previewWidth as real)
      ensures engine.viewOffsetY == PanOffset(old(engine.viewOffsetY), e.clientY - old(engine.panStart.y), engine.viewScale,
                                              old(engine.canvasHeight) as real, engine.previewHeight as real)
      ensures engine.panStart == Point(e.clientX, e.clientY)
      ensures var due := AutoAddDue(engine.viewOffsetY, engine.previewHeight as real, engine.viewScale, old(engine.canvasHeight),
                                    engine.pageHeight, now, old(engine.lastAutoAddTime), old(engine.lastAutoAddHeight));
              && (due ==> engine.canvasHeight == ToCanvasDim(old(engine.canvasHeight) as real + Pages.PageSlot(engine.a4Width), CANVAS_DEFAULT_HEIGHT)
                          && engine.lastAutoAddHeight == engine.canvasHeight && engine.lastAutoAddTime == now
                          && history.Current() == History.PushStep(old(history.Current()), engine.GetState()))
              && (!due ==> engine.canvasHeight == old(engine.canvasHeight) && engine.lastAutoAddHeight == old(engine.lastAutoAddHeight)
                           && engine.lastAutoAddTime == old(engine.lastAutoAddTime) && history.Current() == old(history.Current()))
    {
      var scale := engine.viewScale;
      engine.viewOffsetX := PanOffset(engine.viewOffsetX, e.clientX - engine.panStart.x, scale,
                                      engine.canvasWidth as real, engine.previewWidth as real);
      engine.viewOffsetY := PanOffset(engine.viewOffsetY, e.clientY - engine.panStart.y, scale,
                                      engine.canvasHeight as real, engine.previewHeight as real);
      if AutoAddDue(engine.viewOffsetY, engine.previewHeight as real, scale, engine.canvasHeight, engine.pageHeight,
                    now, engine.lastAutoAddTime, engine.lastAutoAddHeight) {
        AddPage();
        engine.lastAutoAddHeight := engine.canvasHeight;
        engine.lastAutoAddTime := now;
      }
      engine.panStart := Point(e.clientX, e.clientY);
    }

    /* ---------------------------------------------------------- drawing */

    /** `addObject` called from a handler: the invariant survives because the new object (and
        any clock stamp) only adds ids. */
    method AddTracked(o: Obj, now: int, clockText: string) returns (added: Obj)
      requires Valid()
      modifies engine`drawnObjects, engine`lastTimestampTime, engine.idGenerator
      ensures Valid()
      ensures added == EnsureTransform(o.(id := old(engine.idGenerator.nextId), timestamp := now))
      ensures Appended(old(engine.drawnObjects), engine.drawnObjects, added)
    {
      ghost var before := engine.drawnObjects;
      added := engine.AddObject(o, now, clockText);
      assert engine.drawnObjects[..|before| + 1] == before + [added];
      forall x | x in Ids(before) ensures x in Ids(engine.drawnObjects) {
        var p :| p in before && p.id == x;
        var i :| 0 <= i < |before| && before[i] == p;
        assert engine.drawnObjects[i] == p;
      }
    }

    /** `startDrawing`: remember where the stroke starts; pen and eraser start a path object
        with one sample right away (the eraser paints white, 30 wide, at pressure 1). */
    method StartDrawing(coords: Point, e: PointerEvent, tool: Tool, brush: Brush, now: int, clockText: string)
      requires Valid()
      modifies engine`isDrawing, engine`shapeStart, engine`currentPath, engine`drawnObjects, engine`lastTimestampTime,
               engine.idGenerator
      ensures Valid()
      ensures engine.isDrawing && engine.shapeStart == coords
      ensures !IsInkTool(tool) ==> unchanged(engine`drawnObjects, engine`currentPath, engine`lastTimestampTime, engine.idGenerator)
      ensures IsInkTool(tool) ==>
                var erasing := tool.EraserTool?;
                var path := Path([Sample(coords.x, coords.y, SamplePressure(erasing, e.pressure))],
                                 if erasing then ERASER_SIZE else brush.size);
                var added := Obj(old(engine.idGenerator.nextId), now, if erasing then ERASER_COLOR else brush.color,
                                 Some(IdentityTransform), path);
                engine.currentPath == Some(added.id) && Appended(old(engine.drawnObjects), engine.drawnObjects, added)
    {
      engine.isDrawing := true;
      engine.shapeStart := coords;
      if IsInkTool(tool) {
        var erasing := tool.EraserTool?;
        var color := if erasing then ERASER_COLOR else brush.color;
        var size := if erasing then ERASER_SIZE else brush.size;
        var pressure := SamplePressure(erasing, e.pressure);
        var o := Obj(0, 0, color, None, Path([Sample(coords.x, coords.y, pressure)], size));
        var added := AddTracked(o, now, clockText);
        engine.currentPath := Some(added.id);
      }
    }

    /** `startErasing` (the pen's eraser button): a white path, 30 wide, with one sample at
        pressure 1. */
    method StartErasing(coords: Point, now: int, clockText: string)
      requires Valid()
      modifies engine`isDrawing, engine`isErasing, engine`currentPath, engine`drawnObjects, engine`lastTimestampTime,
               engine.idGenerator
      ensures Valid()
      ensures engine.isDrawing && engine.isErasing
      ensures var added := Obj(old(engine.idGenerator.nextId), now, ERASER_COLOR, Some(IdentityTransform),
                               Path([Sample(coords.x, coords.y, 1.0)], ERASER_SIZE));
              engine.currentPath == Some(added.id) && Appended(old(engine.drawnObjects), engine.drawnObjects, added)
    {
      engine.isDrawing := true;
      engine.isErasing := true;
      var o := Obj(0, 0, ERASER_COLOR, None, Path([Sample(coords.x, coords.y, 1.0)], ERASER_SIZE));
      var added := AddTracked(o, now, clockText);
      engine.currentPath := Some(added.id);
    }

    /** `updateDrawing`: while drawing with pen or eraser (or erasing), append a sample to the
        current path; the shape tools only redraw their preview. */
    method UpdateDrawing(coords: Point, e: PointerEvent, tool: Tool)
      requires Valid()
      modifies engine`drawnObjects
      ensures Valid()
      ensures (IsInkTool(tool) || engine.isErasing) && engine.currentPath.Some? ==>
                engine.drawnObjects == WithSample(old(engine.drawnObjects), engine.currentPath.value,
                                                  Sample(coords.x, coords.y, SamplePressure(engine.isErasing || tool.EraserTool?, e.pressure)))
      ensures !((IsInkTool(tool) || engine.isErasing) && engine.currentPath.Some?) ==> engine.drawnObjects == old(engine.drawnObjects)
    {
      if (IsInkTool(tool) || engine.isErasing) && engine.currentPath.Some? {
        var s := Sample(coords.x, coords.y, SamplePressure(engine.isErasing || tool.EraserTool?, e.pressure));
        WithSampleIds(engine.drawnObjects, engine.currentPath.value, s);
        engine.drawnObjects := WithSample(engine.drawnObjects, engine.currentPath.value, s);
      }
    }

    /** `finishDrawing`: a shape tool (any tool but pen and eraser, when not erasing) adds its
        shape from the start point to here; a snapshot follows when a path was being drawn or
        the tool is line, circle or rect. */
    method FinishDrawing(coords: Point, tool: Tool, brush: Brush, now: int, clockText: string)
      requires Valid()
      modifies engine`drawnObjects, engine`lastTimestampTime, engine.idGenerator, history
      ensures Valid()
      ensures !engine.isErasing && !IsInkTool(tool) ==>
                Appended(old(engine.drawnObjects), engine.drawnObjects,
                         Obj(old(engine.idGenerator.nextId), now, brush.color, Some(IdentityTransform),
                             ShapeFor(tool, engine.shapeStart, coords, brush.size)))
      ensures engine.isErasing || IsInkTool(tool) ==> unchanged(engine`drawnObjects, engine`lastTimestampTime, engine.idGenerator)
      ensures history.Current() ==
                PushedIf(old(history.Current()), engine.GetState(), engine.currentPath.Some? || IsShapeTool(tool))
    {
      if !engine.isErasing && !IsInkTool(tool) {
        var o := Obj(0, 0, brush.color, None, ShapeFor(tool, engine.shapeStart, coords, brush.size));
        var added := AddTracked(o, now, clockText);
      }
      if engine.currentPath.Some? || IsShapeTool(tool) {
        history.PushHistory(engine.GetState());
      }
    }

    /* ---------------------------------------------------------- selection */

    /** `selectObject` (called only by the select tool, never during a rotate or resize drag). */
    method SelectObject(id: int, add: bool)
      requires Valid() && id in Ids(engine.drawnObjects)
      requires engine.selectionDrag.None? || engine.selectionDrag.value.mode.MoveDrag? || engine.selectionDrag.value.mode.MarqueeDrag?
      modifies engine`selectedIds
      ensures Valid()
      ensures engine.selectedIds == Toggled(old(engine.selectedIds), id, add)
    {
      engine.selectedIds := Toggled(engine.selectedIds, id, add);
    }

    /** `startMarqueeSelection`: a zero-size rectangle at the point and a marquee drag. */
    method StartMarqueeSelection(coords: Point)
      requires Valid()
      modifies engine`marqueeRect, engine`selectionDrag
      ensures Valid()
      ensures engine.marqueeRect == Some(Marquee(coords.x, coords.y, coords.x, coords.y))
      ensures engine.selectionDrag == Some(Drag(MarqueeDrag, coords, coords, None, Both))
    {
      engine.marqueeRect := Some(Marquee(coords.x, coords.y, coords.x, coords.y));
      engine.selectionDrag := Some(Drag(MarqueeDrag, coords, coords, None, Both));
    }

    /** `startTransformation`: attach transforms to the selected objects, capture them by id with
        the union of their transformed bounds, and start a rotate or resize drag. */
    method StartTransformation(trig: Trig, handle: HandleHit, coords: Point)
      requires Valid()
      modifies engine`drawnObjects, engine`selectionDrag
      ensures Valid()
      ensures engine.drawnObjects == Edited(old(engine.drawnObjects), engine.selectedIds, EnsureEdit)
      ensures engine.selectionDrag == Some(TransformDrag(trig, handle, coords, engine.drawnObjects, engine.selectedIds))
    {
      var objs, drag := BeginTransform(trig, handle, coords, engine.drawnObjects, engine.selectedIds);
      engine.drawnObjects := objs;
      engine.selectionDrag := Some(drag);
    }

    /** `handleSelectTool`: a selection handle under the pointer starts a transformation;
        otherwise the pointer picks (see `SelectAt`). */
    method HandleSelectTool(trig: Trig, coords: Point, shift: bool)
      requires Valid()
      modifies engine`drawnObjects, engine`selectionDrag, engine`selectedIds, engine`marqueeRect
      ensures Valid()
      ensures var screen := engine.WorldToScreenPoint(coords);
              var handle := old(engine.SelectionHandleAt(trig, screen.x, screen.y));
              && (handle.Some? ==>
                    && engine.drawnObjects == Edited(old(engine.drawnObjects), engine.selectedIds, EnsureEdit)
                    && engine.selectedIds == old(engine.selectedIds) && engine.marqueeRect == old(engine.marqueeRect)
                    && engine.selectionDrag == Some(TransformDrag(trig, handle.value, coords, engine.drawnObjects, engine.selectedIds)))
              && (handle.None? ==> engine.drawnObjects == old(engine.drawnObjects)
                                   && Picks(trig, coords, shift, old(engine.drawnObjects), old(engine.selectedIds), old(engine.marqueeRect),
                                            engine.selectedIds, engine.selectionDrag, engine.marqueeRect))
    {
      var screen := engine.WorldToScreenPoint(coords);
      var handle := engine.HitTestSelectionHandles(trig, screen.x, screen.y);
      if handle.Some? {
        StartTransformation(trig, handle.value, coords);
      } else {
        SelectAt(trig, coords, shift);
      }
    }

    /** The select tool away from the handles: the topmost object under the pointer is selected
        (toggled with shift) and a move drag starts; with nothing there, the selection is
        cleared and a marquee starts. */
    method SelectAt(trig: Trig, coords: Point, shift: bool)
      requires Valid()
      modifies engine`selectionDrag, engine`selectedIds, engine`marqueeRect
      ensures Valid()
      ensures Picks(trig, coords, shift, engine.drawnObjects, old(engine.selectedIds), old(engine.marqueeRect),
                    engine.selectedIds, engine.selectionDrag, engine.marqueeRect)
    {
      var hit := TopmostHit(trig, engine.drawnObjects, coords);
      if hit.Some? {
        assert engine.drawnObjects[hit.value] in engine.drawnObjects;
        engine.selectionDrag := Some(Drag(MoveDrag, coords, coords, None, Both));
        SelectObject(engine.drawnObjects[hit.value].id, shift);
      } else {
        engine.ClearSelection();
        StartMarqueeSelection(coords);
      }
    }

    /** `updateMarqueeSelection`: move the free corner and select exactly the objects inside. */
    method UpdateMarqueeSelection(trig: Trig, coords: Point)
      requires Valid() && engine.selectionDrag.Some? && engine.selectionDrag.value.mode.MarqueeDrag?
      modifies engine`marqueeRect, engine`selectedIds
      ensures Valid()
      ensures engine.marqueeRect == Some(old(engine.marqueeRect.value).(x2 := coords.x, y2 := coords.y))
      ensures engine.selectedIds == MarqueeIds(trig, engine.drawnObjects, engine.marqueeRect.value)
    {
      engine.marqueeRect := Some(engine.marqueeRect.value.(x2 := coords.x, y2 := coords.y));
      var sel := MarqueeSelect(trig, engine.drawnObjects, engine.marqueeRect.value);
      engine.selectedIds := sel;
    }

    /** `updateObjectMove`: move the selected objects by the step since the last position. */
    method UpdateObjectMove(coords: Point)
      requires Valid() && engine.selectionDrag.Some?
      modifies engine`drawnObjects, engine`selectionDrag
      ensures Valid()
      ensures var last := old(engine.selectionDrag.value.last);
              engine.drawnObjects == Edited(old(engine.drawnObjects), engine.selectedIds, MoveEdit(coords.x - last.x, coords.y - last.y))
      ensures engine.selectionDrag == Some(old(engine.selectionDrag.value).(last := coords))
    {
      var d := engine.selectionDrag.value;
      var edit := MoveEdit(coords.x - d.last.x, coords.y - d.last.y);
      var objs := EditSelected(engine.drawnObjects, engine.selectedIds, edit);
      EditedIds(engine.drawnObjects, engine.selectedIds, edit);
      engine.drawnObjects := objs;
      engine.selectionDrag := Some(d.(last := coords));
    }

    /** `updateTransformation`: nothing for an empty selection; otherwise rotate by the angle the
        pointer has turned about the centre of the captured bounds, or resize by the factors of
        its distance from that centre, always starting from the captured transforms. */
    method UpdateTransformation(trig: Trig, coords: Point)
      requires Valid() && engine.selectionDrag.Some?
      requires engine.selectionDrag.value.mode.RotateDrag? || engine.selectionDrag.value.mode.ResizeDrag?
      modifies engine`drawnObjects
      ensures Valid()
      ensures var d := engine.selectionDrag.value;
              if |Picked(old(engine.drawnObjects), engine.selectedIds)| == 0 || d.initial.value.bounds.NoExtent? then
                engine.drawnObjects == old(engine.drawnObjects)
              else engine.drawnObjects == Edited(old(engine.drawnObjects), engine.selectedIds, TransformEdit(trig, d, coords))
    {
      var d := engine.selectionDrag.value;
      if |Picked(engine.drawnObjects, engine.selectedIds)| == 0 || d.initial.value.bounds.NoExtent? {
        return;
      }
      var edit := TransformEdit(trig, d, coords);
      var objs := EditSelected(engine.drawnObjects, engine.selectedIds, edit);
      EditedIds(engine.drawnObjects, engine.selectedIds, edit);
      engine.drawnObjects := objs;
    }

    /** `updateSelection`: dispatch on the drag mode. */
    method UpdateSelection(trig: Trig, coords: Point)
      requires Valid() && engine.selectionDrag.Some?
      modifies engine`drawnObjects, engine`selectionDrag, engine`marqueeRect, engine`selectedIds
      ensures Valid()
      ensures engine.selectionDrag.Some? && engine.selectionDrag.value.mode == old(engine.selectionDrag.value.mode)
      ensures old(engine.selectionDrag.value.mode).MarqueeDrag? ==>
                && engine.drawnObjects == old(engine.drawnObjects) && engine.selectionDrag == old(engine.selectionDrag)
                && engine.marqueeRect == Some(old(engine.marqueeRect.value).(x2 := coords.x, y2 := coords.y))
                && engine.selectedIds == MarqueeIds(trig, engine.drawnObjects, engine.marqueeRect.value)
      ensures old(engine.selectionDrag.value.mode).MoveDrag? ==>
                && engine.selectedIds == old(engine.selectedIds) && engine.marqueeRect == old(engine.marqueeRect)
                && engine.selectionDrag == Some(old(engine.selectionDrag.value).(last := coords))
                && var last := old(engine.selectionDrag.value.last);
                   engine.drawnObjects == Edited(old(engine.drawnObjects), engine.selectedIds, MoveEdit(coords.x - last.x, coords.y - last.y))
      ensures old(engine.selectionDrag.value.mode).RotateDrag? || old(engine.selectionDrag.value.mode).ResizeDrag? ==>
                && engine.selectedIds == old(engine.selectedIds) && engine.marqueeRect == old(engine.marqueeRect)
                && engine.selectionDrag == old(engine.selectionDrag)
    {
      var mode := engine.selectionDrag.value.mode;
      if mode.MarqueeDrag? {
        UpdateMarqueeSelection(trig, coords);
      } else if mode.MoveDrag? {
        UpdateObjectMove(coords);
      } else {
        UpdateTransformation(trig, coords);
      }
    }

    /** `finishSelection`: a marquee disappears; a snapshot is recorded. A marquee drag without
        its rectangle is left for `handlePointerUp` to end. */
    method FinishSelection()
      requires Valid() && engine.selectionDrag.Some?
      modifies engine`marqueeRect, history
      ensures Settled()
      ensures old(engine.selectionDrag.value.mode).MarqueeDrag? ==> engine.marqueeRect.None?
      ensures !old(engine.selectionDrag.value.mode).MarqueeDrag? ==> engine.marqueeRect == old(engine.marqueeRect)
      ensures history.Current() == History.PushStep(old(history.Current()), engine.GetState())
    {
      if engine.selectionDrag.value.mode.MarqueeDrag? {
        engine.marqueeRect := None;
      }
      history.PushHistory(engine.GetState());
    }

    /* ---------------------------------------------------------- pointer events */

    /** `handlePointerDown`: track the pointer, then, in this order of priority: a second pointer
        starts a pinch, the pen's eraser button starts erasing, touch pans, and otherwise the
        tool decides (hand pans, select selects, anything else draws). */
    method HandlePointerDown(trig: Trig, e: PointerEvent, tool: Tool, brush: Brush, now: int, clockText: string)
      returns (k: DownKind)
      requires Valid()
      modifies engine`pointers, engine`pinchStartDist, engine`pinchStartScale, engine`pinchCenter, engine`isPinching,
               engine`isPanning, engine`isDrawing, engine`isErasing, engine`selectionDrag, engine`marqueeRect,
               engine`currentPath, engine`drawnObjects, engine`lastTimestampTime, engine`panStart, engine`selectedIds,
               engine`shapeStart, engine.idGenerator
      ensures Valid()
      ensures engine.pointers == SetPointer(old(engine.pointers), e.pointerId, Point(e.clientX, e.clientY))
      ensures k == PinchDown <==> |engine.pointers| == 2
      ensures k == EraseDown <==> |engine.pointers| != 2 && e.kind.Pen? && e.buttons == 2
      ensures k == PanDown <==> |engine.pointers| != 2 && !(e.kind.Pen? && e.buttons == 2) && (e.kind.Touch? || tool.HandTool?)
      ensures k == SelectDown <==> |engine.pointers| != 2 && !(e.kind.Pen? && e.buttons == 2) && !e.kind.Touch? && tool.SelectTool?
      ensures k == PinchDown ==> engine.isPinching && engine.selectionDrag.None?
      ensures k == EraseDown ==> engine.isDrawing && engine.isErasing && engine.currentPath.Some?
      ensures k == PanDown ==> engine.isPanning && engine.panStart == Point(e.clientX, e.clientY)
      ensures k == SelectDown ==> engine.selectionDrag.Some?
      ensures k == DrawDown ==> engine.isDrawing && engine.shapeStart == old(engine.CanvasCoords(e.canvasX, e.canvasY))
    {
      var coords := engine.CanvasCoords(e.canvasX, e.canvasY);
      SetPointerDistinct(engine.pointers, e.pointerId, Point(e.clientX, e.clientY));
      engine.pointers := SetPointer(engine.pointers, e.pointerId, Point(e.clientX, e.clientY));
      if |engine.pointers| == 2 {
        StartPinchGesture(trig);
        return PinchDown;
      }
      if e.kind.Pen? && e.buttons == 2 {
        StartErasing(coords, now, clockText);
        return EraseDown;
      }
      if e.kind.Touch? || tool.HandTool? {
        StartPanning(e);
        return PanDown;
      }
      if tool.SelectTool? {
        HandleSelectTool(trig, coords, e.shiftKey);
        return SelectDown;
      }
      StartDrawing(coords, e, tool, brush, now, clockText);
      return DrawDown;
    }

    /** `handlePointerMove`, in this order of priority: a tracked pointer of a pinch updates its
        position (and the zoom while two pointers are down), then panning, then a selection
        drag, then drawing. */
    method HandlePointerMove(trig: Trig, e: PointerEvent, tool: Tool, zoomLocked: bool, now: real) returns (k: MoveKind)
      requires Valid()
      modifies engine`pointers, engine`viewScale, engine`viewOffsetX, engine`viewOffsetY, engine`canvasHeight,
               engine`lastAutoAddHeight, engine`lastAutoAddTime, engine`panStart, engine`drawnObjects,
               engine`selectionDrag, engine`marqueeRect, engine`selectedIds, history
      ensures Valid()
      ensures var pinch := old(engine.isPinching) && e.pointerId in PointerIds(old(engine.pointers));
              && (k == PinchMove <==> pinch)
              && (k == PanMove <==> !pinch && old(engine.isPanning))
              && (k == SelectionMove <==> !pinch && !old(engine.isPanning) && old(engine.selectionDrag).Some?)
              && (k == DrawMove <==> !pinch && !old(engine.isPanning) && old(engine.selectionDrag).None? && old(engine.isDrawing))
      ensures k == PinchMove ==> engine.pointers == SetPointer(old(engine.pointers), e.pointerId, Point(e.clientX, e.clientY))
                                 && engine.drawnObjects == old(engine.drawnObjects) && engine.selectedIds == old(engine.selectedIds)
      ensures k != PinchMove ==> engine.pointers == old(engine.pointers)
      ensures k == SelectionMove || k == DrawMove ==>
                engine.viewScale == old(engine.viewScale) && engine.viewOffsetX == old(engine.viewOffsetX)
                && engine.viewOffsetY == old(engine.viewOffsetY) && engine.canvasHeight == old(engine.canvasHeight)
      ensures k != PanMove ==> history.Current() == old(history.Current())
      ensures k == NoMove ==> engine.drawnObjects == old(engine.drawnObjects) && engine.selectedIds == old(engine.selectedIds)
                              && engine.viewScale == old(engine.viewScale) && engine.viewOffsetX == old(engine.viewOffsetX)
                              && engine.viewOffsetY == old(engine.viewOffsetY)
    {
      if engine.isPinching && e.pointerId in PointerIds(engine.pointers) {
        SetPointerDistinct(engine.pointers, e.pointerId, Point(e.clientX, e.clientY));
        engine.pointers := SetPointer(engine.pointers, e.pointerId, Point(e.clientX, e.clientY));
        if |engine.pointers| == 2 {
          UpdatePinchZoom(trig, zoomLocked);
        }
        return PinchMove;
      }
      if engine.isPanning {
        UpdatePanning(e, now);
        return PanMove;
      }
      var coords := engine.CanvasCoords(e.canvasX, e.canvasY);
      if engine.selectionDrag.Some? {
        UpdateSelection(trig, coords);
        return SelectionMove;
      }
      if engine.isDrawing {
        UpdateDrawing(coords, e, tool);
        return DrawMove;
      }
      return NoMove;
    }

    /** `handlePointerUp`: forget the pointer, end a pinch once fewer than two remain, then end
        the gesture. */
    method HandlePointerUp(e: PointerEvent, tool: Tool, brush: Brush, now: int, clockText: string)
      requires Valid()
      modifies engine`pointers, engine`isPinching, engine`drawnObjects, engine`lastTimestampTime, engine`marqueeRect,
               engine`isPanning, engine`isDrawing, engine`isErasing, engine`currentPath, engine`selectionDrag,
               engine.idGenerator, history
      ensures Valid()
      ensures engine.pointers == DeletePointer(old(engine.pointers), e.pointerId)
      ensures PointerIds(engine.pointers) == PointerIds(old(engine.pointers)) - {e.pointerId}
      ensures engine.isPinching == (old(engine.isPinching) && |engine.pointers| >= 2)
      ensures !engine.isPanning && !engine.isDrawing && !engine.isErasing
      ensures engine.currentPath.None? && engine.selectionDrag.None?
      ensures history.Current() == Ended(old(history.Current()), engine.GetState(), old(engine.isDrawing),
                                         old(engine.currentPath).Some? || IsShapeTool(tool), old(engine.selectionDrag).Some?)
      ensures !old(engine.isDrawing) ==> engine.drawnObjects == old(engine.drawnObjects)
    {
      ReleasePointer(e.pointerId);
      EndGesture(e, tool, brush, now, clockText);
    }

    /** The rest of `handlePointerUp`: finish a drawing and a selection drag (each may record a
        snapshot), and reset the gesture. */
    method EndGesture(e: PointerEvent, tool: Tool, brush: Brush, now: int, clockText: string)
      requires Valid()
      modifies engine`drawnObjects, engine`lastTimestampTime, engine`marqueeRect, engine`isPanning, engine`isDrawing,
               engine`isErasing, engine`currentPath, engine`selectionDrag, engine.idGenerator, history
      ensures Valid()
      ensures !engine.isPanning && !engine.isDrawing && !engine.isErasing
      ensures engine.currentPath.None? && engine.selectionDrag.None?
      ensures history.Current() == Ended(old(history.Current()), engine.GetState(), old(engine.isDrawing),
                                         old(engine.currentPath).Some? || IsShapeTool(tool), old(engine.selectionDrag).Some?)
      ensures !old(engine.isDrawing) ==> engine.drawnObjects == old(engine.drawnObjects)
    {
      FinishStroke(e, tool, brush, now, clockText);
      FinishDrag();
    }

    /** The drawing half of `handlePointerUp`: a drawing in progress is finished. */
    method FinishStroke(e: PointerEvent, tool: Tool, brush: Brush, now: int, clockText: string)
      requires Valid()
      modifies engine`drawnObjects, engine`lastTimestampTime, engine.idGenerator, history
      ensures Valid()
      ensures history.Current() == PushedIf(old(history.Current()), engine.GetState(),
                                            engine.isDrawing && (engine.currentPath.Some? || IsShapeTool(tool)))
      ensures !engine.isDrawing ==> engine.drawnObjects == old(engine.drawnObjects)
    {
      if engine.isDrawing {
        var coords := engine.CanvasCoords(e.canvasX, e.canvasY);
        FinishDrawing(coords, tool, brush, now, clockText);
      }
    }

    /** The selection half of `handlePointerUp`: a selection drag is finished, and every gesture
        flag is reset. */
    method FinishDrag()
      requires Valid()
      modifies engine`marqueeRect, engine`isPanning, engine`isDrawing, engine`isErasing, engine`currentPath,
               engine`selectionDrag, history
      ensures Valid()
      ensures !engine.isPanning && !engine.isDrawing && !engine.isErasing
      ensures engine.currentPath.None? && engine.selectionDrag.None?
      ensures history.Current() == PushedIf(old(history.Current()), engine.GetState(), old(engine.selectionDrag).Some?)
    {
      if engine.selectionDrag.Some? {
        FinishSelection();
      }
      engine.isPanning, engine.isDrawing, engine.isErasing, engine.currentPath, engine.selectionDrag := false, false, false, None, None;
    }

    /** The pointer bookkeeping of `handlePointerUp`. */
    method ReleasePointer(id: int)
      requires Valid()
      modifies engine`pointers, engine`isPinching
      ensures Valid()
      ensures engine.pointers == DeletePointer(old(engine.pointers), id)
      ensures PointerIds(engine.pointers) == PointerIds(old(engine.pointers)) - {id}
      ensures engine.isPinching == (old(engine.isPinching) && |engine.pointers| >= 2)
    {
      DeletePointerFacts(engine.pointers, id);
      engine.pointers := DeletePointer(engine.pointers, id);
      if engine.isPinching && |engine.pointers| < 2 {
        engine.isPinching := false;
      }
    }

    /* ---------------------------------------------------------- commands */

    /** `undo`: step back through the history and restore the snapshot, if there is one. */
    method Undo() returns (r: Option<EngineState>)
      requires Valid()
      modifies history, engine`drawnObjects, engine`viewOffsetX, engine`viewOffsetY, engine`viewScale, engine`canvasWidth,
               engine`canvasHeight, engine`pageHeight, engine`lastTimestampTime, engine`selectedIds, engine.idGenerator
      ensures Valid()
      ensures (r, history.Current()) == History.UndoStep(old(history.Current()))
      ensures r.Some? ==> engine.GetState() == old(engine.Restored(r.value, engine.idGenerator.nextId)) && engine.selectedIds == {}
      ensures r.None? ==> engine.GetState() == old(engine.GetState()) && engine.selectedIds == old(engine.selectedIds)
    {
      r := history.Undo();
      if r.Some? {
        engine.SetState(r.value);
      }
    }

    /** `redo`: step forward through the history and restore the snapshot, if there is one. */
    method Redo() returns (r: Option<EngineState>)
      requires Valid()
      modifies history, engine`drawnObjects, engine`viewOffsetX, engine`viewOffsetY, engine`viewScale, engine`canvasWidth,
               engine`canvasHeight, engine`pageHeight, engine`lastTimestampTime, engine`selectedIds, engine.idGenerator
      ensures Valid()
      ensures (r, history.Current()) == History.RedoStep(old(history.Current()))
      ensures r.Some? ==> engine.GetState() == old(engine.Restored(r.value, engine.idGenerator.nextId)) && engine.selectedIds == {}
      ensures r.None? ==> engine.GetState() == old(engine.GetState()) && engine.selectedIds == old(engine.selectedIds)
    {
      r := history.Redo();
      if r.Some? {
        engine.SetState(r.value);
      }
    }

    /** `deleteSelected`: remove the selected objects and record a snapshot, when anything was
        selected. */
    method DeleteSelected() returns (removed: bool)
      requires Valid()
      modifies engine`drawnObjects, engine`selectedIds, history
      ensures Valid()
      ensures removed <==> old(engine.selectedIds) != {}
      ensures removed ==> engine.drawnObjects == Keep(old(engine.drawnObjects), old(engine.selectedIds)) && engine.selectedIds == {}
                          && history.Current() == History.PushStep(old(history.Current()), engine.GetState())
      ensures !removed ==> engine.drawnObjects == old(engine.drawnObjects) && history.Current() == old(history.Current())
    {
      removed := engine.RemoveSelectedObjects();
      if removed {
        history.PushHistory(engine.GetState());
      }
    }

    /** `clearAll`: clear the engine and record a snapshot. */
    method ClearAll()
      requires Valid()
      modifies engine`drawnObjects, engine`selectedIds, engine`viewOffsetX, engine`viewOffsetY, engine`viewScale,
               engine`lastTimestampTime, engine`canvasWidth, engine`canvasHeight, history
      ensures Valid()
      ensures engine.drawnObjects == [] && engine.selectedIds == {}
      ensures engine.View() == old(engine.View()).(offsetX := 0.0, offsetY := 0.0, scale := 1.0,
                                                  canvasWidth := ToCanvasDim(engine.a4Width, CANVAS_DEFAULT_WIDTH),
                                                  canvasHeight := ToCanvasDim(Pages.A4Height(engine.a4Width) * 2.0, CANVAS_DEFAULT_HEIGHT))
      ensures history.Current() == History.PushStep(old(history.Current()), engine.GetState())
    {
      engine.Clear();
      history.PushHistory(engine.GetState());
    }

    /** `importFromJson` on parsed data: load it into the engine and record a snapshot. */
    method ImportFromJson(data: ImportData)
      requires Valid()
      modifies engine`drawnObjects, engine`canvasWidth, engine`canvasHeight, engine`pageHeight, engine`viewOffsetX,
               engine`viewOffsetY, engine`viewScale, engine`selectedIds, engine.idGenerator, history
      ensures Valid()
      ensures Imported(data, old(engine.canvasWidth), old(engine.canvasHeight), old(engine.pageHeight), engine.previewHeight,
                       engine.GetState()) && engine.selectedIds == {}
      ensures history.Current() == History.PushStep(old(history.Current()), engine.GetState())
    {
      LoadDocument(data);
      history.PushHistory(engine.GetState());
    }

    /** The engine side of `importFromJson`: take the objects, the canvas size and page height
        (each falling back to the current value) and the id counter (falling back to one past
        the largest id); reset the view and clear the selection. */
    method LoadDocument(data: ImportData)
      requires Valid()
      modifies engine`drawnObjects, engine`canvasWidth, engine`canvasHeight, engine`pageHeight, engine`viewOffsetX,
               engine`viewOffsetY, engine`viewScale, engine`selectedIds, engine.idGenerator
      ensures Valid()
      ensures engine.GetState() == ImportedState(data, old(engine.canvasWidth), old(engine.canvasHeight), old(engine.pageHeight),
                                                 engine.previewHeight, engine.lastTimestampTime)
      ensures engine.selectedIds == {}
    {
      var s := ImportedState(data, engine.canvasWidth, engine.canvasHeight, engine.pageHeight, engine.previewHeight,
                             engine.lastTimestampTime);
      engine.idGenerator.SetNext(s.nextId);
      engine.drawnObjects, engine.canvasWidth, engine.canvasHeight, engine.pageHeight := s.drawnObjects, s.canvasWidth, s.canvasHeight, s.pageHeight;
      engine.viewOffsetX, engine.viewOffsetY, engine.viewScale, engine.selectedIds := 0.0, 0.0, 1.0, {};
    }

    /** `loadAutosave`: restore the stored snapshot when there is one, then record the initial
        snapshot of whatever the engine now shows. */
    method LoadAutosave() returns (r: Option<EngineState>)
      requires Valid()
      modifies history, engine`drawnObjects, engine`viewOffsetX, engine`viewOffsetY, engine`viewScale, engine`canvasWidth,
               engine`canvasHeight, engine`pageHeight, engine`lastTimestampTime, engine`selectedIds, engine.idGenerator
      ensures Valid()
      ensures r.Some? <==> history.stored.Saved?
      ensures r.Some? ==> r.value == history.stored.snapshot
                          && engine.GetState() == old(engine.Restored(r.value, engine.idGenerator.nextId))
      ensures r.None? ==> engine.GetState() == old(engine.GetState())
      ensures history.Current() == History.PushStep(old(history.Current()), engine.GetState())
    {
      r := history.LoadAutosave();
      if r.Some? {
        engine.SetState(r.value);
      }
      history.PushHistory(engine.GetState());
    }
  }
}
