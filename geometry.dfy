/**
 * Geometry helpers: per-variant bounds, transformed bounds, point-to-segment distance and
 * hit-testing of drawable objects.
 *
 * Numbers are reals. `Math.cos`, `Math.sin`, `Math.atan2` and `Math.hypot` are not computed:
 * they arrive as a `Trig` record, and each lemma assumes only the facts about them it needs.
 */
module Geometry {
  import opened Common

  datatype Trig = Trig(cos: real -> real, sin: real -> real, atan2: (real, real) -> real, hypot: (real, real) -> real)

  /** cos 0 = 1 and sin 0 = 0. */
  ghost predicate AtZero(trig: Trig)
  {
    trig.cos(0.0) == 1.0 && trig.sin(0.0) == 0.0
  }

  /** cos is even, sin is odd and cos² + sin² = 1: what undoing a rotation needs. */
  ghost predicate RotationLaws(trig: Trig)
  {
    forall a: real ::
      && trig.cos(-a) == trig.cos(a)
      && trig.sin(-a) == -trig.sin(a)
      && trig.cos(a) * trig.cos(a) + trig.sin(a) * trig.sin(a) == 1.0
  }

  /** hypot(x, y) is the non-negative square root of x² + y². */
  ghost predicate HypotIsNorm(trig: Trig)
  {
    forall x: real, y: real :: trig.hypot(x, y) >= 0.0 && trig.hypot(x, y) * trig.hypot(x, y) == x * x + y * y
  }

  datatype Point = Point(x: real, y: real)

  /** A pen sample; `pressure` is 0.5 when the device reports none. */
  datatype Sample = Sample(x: real, y: real, pressure: real)

  /** Per-object transform, applied about the centre of the object's own bounds. */
  datatype Transform = Transform(tx: real, ty: real, rotation: real, scaleX: real, scaleY: real)

  const IdentityTransform: Transform := Transform(0.0, 0.0, 0.0, 1.0, 1.0)

  /** One variant per object type; each carries only the fields that type has. */
  datatype Shape =
    | Path(points: seq<Sample>, size: real)
    | Line(startX: real, startY: real, endX: real, endY: real, size: real)
    | Rect(startX: real, startY: real, endX: real, endY: real, size: real)
    | Circle(startX: real, startY: real, endX: real, endY: real, size: real)
      /** A raster produced by flood fill or AI conversion (it has a `dataUrl`). */
    | Image(startX: real, startY: real, endX: real, endY: real)
    | Latex(source: string, startX: real, startY: real, endX: real, endY: real)
    | Timestamp(text: string, x: real, y: real, fontSize: real)
    | Speech(text: string, x: real, y: real, fontSize: real)
      /** An object whose `type` is none of the above (a shape tool the engine does not know). */
    | Other(kind: string, startX: real, startY: real, endX: real, endY: real, size: real)

  /** A drawable object. A missing transform (`None`) reads as the identity. */
  datatype Obj = Obj(id: int, timestamp: int, color: string, transform: Option<Transform>, shape: Shape)

  /** Is the object one of the stroke types that scribble-delete considers? */
  predicate IsStroke(o: Obj)
  {
    o.shape.Path? || o.shape.Line? || o.shape.Rect? || o.shape.Circle?
  }

  /** An axis-aligned box, or `NoExtent` for a path without points (whose box in the source is
      +Infinity..-Infinity, so that every comparison against it fails). */
  datatype Extent = NoExtent | Extent(minX: real, minY: real, maxX: real, maxY: real)

  predicate InExtent(e: Extent, x: real, y: real)
  {
    e.Extent? && e.minX <= x <= e.maxX && e.minY <= y <= e.maxY
  }

  /** One step of the min/max accumulation. */
  function Include(e: Extent, x: real, y: real): (r: Extent)
    ensures r.Extent? && InExtent(r, x, y)
    ensures forall px, py :: InExtent(e, px, py) ==> InExtent(r, px, py)
  {
    match e
    case NoExtent => Extent(x, y, x, y)
    case Extent(x0, y0, x1, y1) => Extent(Min(x0, x), Min(y0, y), Max(x1, x), Max(y1, y))
  }

  /** Smallest box of a union; `NoExtent` is neutral. */
  function Union(a: Extent, b: Extent): (r: Extent)
  {
    match (a, b)
    case (NoExtent, _) => b
    case (_, NoExtent) => a
    case (Extent(a0, a1, a2, a3), Extent(b0, b1, b2, b3)) => Extent(Min(a0, b0), Min(a1, b1), Max(a2, b2), Max(a3, b3))
  }

  /** The box accumulated over a list of samples, as the source's loop computes it. */
  function PointsExtent(pts: seq<Sample>): Extent
  {
    if |pts| == 0 then NoExtent else Include(PointsExtent(pts[..|pts| - 1]), pts[|pts| - 1].x, pts[|pts| - 1].y)
  }

  /** The path box contains every sample and each of its four sides touches a sample. */
  lemma {:induction false} PointsExtentTight(pts: seq<Sample>)
    ensures PointsExtent(pts).NoExtent? <==> |pts| == 0
    ensures forall i :: 0 <= i < |pts| ==> InExtent(PointsExtent(pts), pts[i].x, pts[i].y)
    ensures |pts| > 0 ==> var e := PointsExtent(pts);
      && (exists i :: 0 <= i < |pts| && pts[i].x == e.minX)
      && (exists i :: 0 <= i < |pts| && pts[i].x == e.maxX)
      && (exists i :: 0 <= i < |pts| && pts[i].y == e.minY)
      && (exists i :: 0 <= i < |pts| && pts[i].y == e.maxY)
  {
    if |pts| > 0 {
      var init := pts[..|pts| - 1];
      PointsExtentTight(init);
      var last := |pts| - 1;
      forall i | 0 <= i < |pts|
        ensures InExtent(PointsExtent(pts), pts[i].x, pts[i].y)
      {
        if i < last { assert pts[i] == init[i]; }
      }
      if |init| > 0 {
        var e0 := PointsExtent(init);
        var e := PointsExtent(pts);
        if e.minX != pts[last].x {
          var j :| 0 <= j < |init| && init[j].x == e0.minX;
          assert pts[j] == init[j];
        }
        if e.maxX != pts[last].x {
          var j :| 0 <= j < |init| && init[j].x == e0.maxX;
          assert pts[j] == init[j];
        }
        if e.minY != pts[last].y {
          var j :| 0 <= j < |init| && init[j].y == e0.minY;
          assert pts[j] == init[j];
        }
        if e.maxY != pts[last].y {
          var j :| 0 <= j < |init| && init[j].y == e0.maxY;
          assert pts[j] == init[j];
        }
      }
    }
  }

  /** The `forEach` min/max loop of the path case. */
  method PathBounds(pts: seq<Sample>) returns (e: Extent)
    ensures e == PointsExtent(pts)
    ensures |pts| > 0 ==> e.Extent? && e.minX <= e.maxX && e.minY <= e.maxY
    ensures forall i :: 0 <= i < |pts| ==> InExtent(e, pts[i].x, pts[i].y)
  {
    e := NoExtent;
    var k := 0;
    while k < |pts|
      invariant 0 <= k <= |pts|
      invariant e == PointsExtent(pts[..k])
    {
      assert pts[..k + 1][..k] == pts[..k];
      e := Include(e, pts[k].x, pts[k].y);
      k := k + 1;
    }
    assert pts[..k] == pts;
    PointsExtentTight(pts);
  }

  /** `obj.text ? obj.text.length : fallback`. */
  function TextLength(text: string, fallback: nat): nat
  {
    if |text| > 0 then |text| else fallback
  }

  /** Untransformed bounds of an object, by type. */
  function ObjectBounds(trig: Trig, o: Obj): (e: Extent)
  {
    match o.shape
    case Timestamp(text, x, y, fs) =>
      var fontSize := OrReal(fs, 12.0);
      var width := TextLength(text, 10) as real * fontSize * 0.6;
      Extent(x, y, x + width, y + fontSize)
    case Speech(text, x, y, fs) =>
      var fontSize := OrReal(fs, 14.0);
      var lineHeight := fontSize + 4.0;
      var charWidth := fontSize * 0.6;
      var charsPerLine := (400.0 / charWidth).Floor;
      var textLength := TextLength(text, 50);
      var lines := if charsPerLine == 0 then 0 else Ceil(textLength as real / charsPerLine as real);
      var width := Min(textLength as real * charWidth, 400.0);
      Extent(x, y, x + width, y + lines as real * lineHeight)
    case Path(pts, _) => PointsExtent(pts)
    case Line(x0, y0, x1, y1, _) => Extent(Min(x0, x1), Min(y0, y1), Max(x0, x1), Max(y0, y1))
    case Rect(x0, y0, x1, y1, _) => Extent(Min(x0, x1), Min(y0, y1), Max(x0, x1), Max(y0, y1))
    case Circle(x0, y0, x1, y1, _) =>
      var r := trig.hypot(x1 - x0, y1 - y0);
      Extent(x0 - r, y0 - r, x0 + r, y0 + r)
    case Image(x0, y0, x1, y1) => Extent(x0, y0, x1, y1)
    case Latex(_, x0, y0, x1, y1) => Extent(x0, y0, x1, y1)
    case Other(_, _, _, _, _, _) => Extent(0.0, 0.0, 0.0, 0.0)
  }

  /** What the per-variant bounds promise: a path box holds every sample, a line or rect box is
      ordered and holds both endpoints, a circle box is centred on the start point, and an
      unrecognised type gets the zero box. */
  lemma ObjectBoundsShape(trig: Trig, o: Obj)
    requires HypotIsNorm(trig)
    ensures o.shape.Path? ==> forall i :: 0 <= i < |o.shape.points| ==>
              InExtent(ObjectBounds(trig, o), o.shape.points[i].x, o.shape.points[i].y)
    ensures o.shape.Path? ==> (ObjectBounds(trig, o).NoExtent? <==> |o.shape.points| == 0)
    ensures (o.shape.Line? || o.shape.Rect?) ==> var e := ObjectBounds(trig, o);
              && e.Extent? && e.minX <= e.maxX && e.minY <= e.maxY
              && InExtent(e, o.shape.startX, o.shape.startY) && InExtent(e, o.shape.endX, o.shape.endY)
    ensures o.shape.Circle? ==> var e := ObjectBounds(trig, o);
              && e.Extent? && e.minX <= e.maxX && e.minY <= e.maxY
              && e.minX + e.maxX == 2.0 * o.shape.startX && e.minY + e.maxY == 2.0 * o.shape.startY
    ensures o.shape.Other? ==> ObjectBounds(trig, o) == Extent(0.0, 0.0, 0.0, 0.0)
  {
    if o.shape.Path? { PointsExtentTight(o.shape.points); }
    if o.shape.Circle? {
      var s := o.shape;
      assert trig.hypot(s.endX - s.startX, s.endY - s.startY) >= 0.0;
    }
  }

  /** Centre of the bounds; the source's NaN centre of an empty path is `None`. */
  function ObjectCenter(trig: Trig, o: Obj): (c: Option<Point>)
    ensures c.Some? <==> ObjectBounds(trig, o).Extent?
  {
    match ObjectBounds(trig, o)
    case NoExtent => None
    case Extent(x0, y0, x1, y1) => Some(Point((x0 + x1) / 2.0, (y0 + y1) / 2.0))
  }

  /** `ensureTransform`: attach the identity transform when none is present. */
  function EnsureTransform(o: Obj): (r: Obj)
    ensures r.transform.Some?
    ensures o.transform.Some? ==> r == o
    ensures o.transform.None? ==> r == o.(transform := Some(IdentityTransform))
  {
    if o.transform.None? then o.(transform := Some(IdentityTransform)) else o
  }

  /** The transform every reader uses. */
  function TransformOf(o: Obj): (t: Transform)
    ensures t == EnsureTransform(o).transform.value
  {
    match o.transform
    case None => IdentityTransform
    case Some(t) => t
  }

  /** Local (untransformed) point to world point: scale about the centre, rotate, translate. */
  function ForwardPoint(trig: Trig, t: Transform, c: Point, p: Point): Point
  {
    var x := (p.x - c.x) * t.scaleX;
    var y := (p.y - c.y) * t.scaleY;
    var cs := trig.cos(t.rotation);
    var sn := trig.sin(t.rotation);
    Point(x * cs - y * sn + c.x + t.tx, x * sn + y * cs + c.y + t.ty)
  }

  /** World point to local point, as the hit test computes it (scales must be non-zero). */
  function LocalPoint(trig: Trig, t: Transform, c: Point, p: Point): Point
    requires t.scaleX != 0.0 && t.scaleY != 0.0
  {
    var x := p.x - (c.x + t.tx);
    var y := p.y - (c.y + t.ty);
    var cs := trig.cos(-t.rotation);
    var sn := trig.sin(-t.rotation);
    Point((x * cs - y * sn) / t.scaleX + c.x, (x * sn + y * cs) / t.scaleY + c.y)
  }

  /** The hit test's inverse mapping undoes the forward mapping of the transformed bounds. */
  lemma LocalUndoesForward(trig: Trig, t: Transform, c: Point, p: Point)
    requires RotationLaws(trig)
    requires t.scaleX != 0.0 && t.scaleY != 0.0
    ensures LocalPoint(trig, t, c, ForwardPoint(trig, t, c, p)) == p
  {
    var x := (p.x - c.x) * t.scaleX;
    var y := (p.y - c.y) * t.scaleY;
    var cs := trig.cos(t.rotation);
    var sn := trig.sin(t.rotation);
    assert trig.cos(-t.rotation) == cs && trig.sin(-t.rotation) == -sn && cs * cs + sn * sn == 1.0;
    var q := ForwardPoint(trig, t, c, p);
    var X := q.x - (c.x + t.tx);
    var Y := q.y - (c.y + t.ty);
    assert X == x * cs - y * sn;
    assert Y == x * sn + y * cs;
    calc {
      X * cs - Y * (-sn);
      (x * cs - y * sn) * cs + (x * sn + y * cs) * sn;
      x * (cs * cs + sn * sn);
      x;
    }
    calc {
      X * (-sn) + Y * cs;
      -(x * cs - y * sn) * sn + (x * sn + y * cs) * cs;
      y * (cs * cs + sn * sn);
      y;
    }
    assert x / t.scaleX == p.x - c.x;
    assert y / t.scaleY == p.y - c.y;
  }

  /** Smallest box holding four points. */
  function Envelope4(a: Point, b: Point, c: Point, d: Point): (e: Extent)
    ensures e.Extent? && e.minX <= e.maxX && e.minY <= e.maxY
    ensures InExtent(e, a.x, a.y) && InExtent(e, b.x, b.y) && InExtent(e, c.x, c.y) && InExtent(e, d.x, d.y)
  {
    Include(Include(Include(Include(NoExtent, a.x, a.y), b.x, b.y), c.x, c.y), d.x, d.y)
  }

  /** `getTransformedBounds`: the axis-aligned envelope of the four transformed corners. */
  function TransformedBounds(trig: Trig, o: Obj): (e: Extent)
    ensures e.NoExtent? <==> ObjectBounds(trig, o).NoExtent?
  {
    match ObjectBounds(trig, o)
    case NoExtent => NoExtent
    case Extent(x0, y0, x1, y1) =>
      var c := Point((x0 + x1) / 2.0, (y0 + y1) / 2.0);
      var t := TransformOf(o);
      Envelope4(ForwardPoint(trig, t, c, Point(x0, y0)), ForwardPoint(trig, t, c, Point(x1, y0)),
                ForwardPoint(trig, t, c, Point(x1, y1)), ForwardPoint(trig, t, c, Point(x0, y1)))
  }

  /** The transformed box holds the image of every corner of the untransformed box. */
  lemma TransformedBoundsHoldCorners(trig: Trig, o: Obj)
    requires ObjectBounds(trig, o).Extent?
    ensures var b := ObjectBounds(trig, o);
            var c := Point((b.minX + b.maxX) / 2.0, (b.minY + b.maxY) / 2.0);
            var e := TransformedBounds(trig, o);
            forall p :: p in [Point(b.minX, b.minY), Point(b.maxX, b.minY), Point(b.maxX, b.maxY), Point(b.minX, b.maxY)] ==>
              InExtent(e, ForwardPoint(trig, TransformOf(o), c, p).x, ForwardPoint(trig, TransformOf(o), c, p).y)
  {
  }

  /** Under a pure translation the transformed box is the untransformed box, normalised and shifted. */
  lemma TranslatedBounds(trig: Trig, o: Obj)
    requires AtZero(trig)
    requires TransformOf(o).rotation == 0.0 && TransformOf(o).scaleX == 1.0 && TransformOf(o).scaleY == 1.0
    requires ObjectBounds(trig, o).Extent?
    ensures var b := ObjectBounds(trig, o);
            var t := TransformOf(o);
            TransformedBounds(trig, o) ==
              Extent(Min(b.minX, b.maxX) + t.tx, Min(b.minY, b.maxY) + t.ty, Max(b.minX, b.maxX) + t.tx, Max(b.minY, b.maxY) + t.ty)
  {
  }

  /** With no transform at all, an ordered box (every type but image and latex, whose corners
      are stored as given) comes back unchanged. */
  lemma IdentityBounds(trig: Trig, o: Obj)
    requires AtZero(trig)
    requires o.transform.None? || o.transform == Some(IdentityTransform)
    requires ObjectBounds(trig, o).Extent?
    requires ObjectBounds(trig, o).minX <= ObjectBounds(trig, o).maxX
    requires ObjectBounds(trig, o).minY <= ObjectBounds(trig, o).maxY
    ensures TransformedBounds(trig, o) == ObjectBounds(trig, o)
  {
    TranslatedBounds(trig, o);
  }

  /* -------------------------------------------------------------- segment distance */

  function SegDot(px: real, py: real, x1: real, y1: real, x2: real, y2: real): real
  {
    (px - x1) * (x2 - x1) + (py - y1) * (y2 - y1)
  }

  /** `C * C + D * D`, written through `Mul` so that sign facts about each square survive the
      solver's rewriting of squares. */
  function SegLenSq(x1: real, y1: real, x2: real, y2: real): real
  {
    Mul(x2 - x1, x2 - x1) + Mul(y2 - y1, y2 - y1)
  }

  /** The point of segment (x1,y1)-(x2,y2) the distance is measured to. `t` starts at -1 and
      is only replaced by the projection parameter when the segment has non-zero length. */
  function SegmentFoot(px: real, py: real, x1: real, y1: real, x2: real, y2: real): Point
  {
    var dot := SegDot(px, py, x1, y1, x2, y2);
    var len := SegLenSq(x1, y1, x2, y2);
    var t := if len != 0.0 then dot / len else -1.0;
    if t < 0.0 then Point(x1, y1)
    else if t > 1.0 then Point(x2, y2)
    else Point(x1 + t * (x2 - x1), y1 + t * (y2 - y1))
  }

  function PointToSegmentDistance(trig: Trig, px: real, py: real, x1: real, y1: real, x2: real, y2: real): real
  {
    var f := SegmentFoot(px, py, x1, y1, x2, y2);
    trig.hypot(px - f.x, py - f.y)
  }

  function SqDist(px: real, py: real, q: Point): real
  {
    (px - q.x) * (px - q.x) + (py - q.y) * (py - q.y)
  }

  /** A degenerate segment measures to its first point; otherwise the foot is the segment point
      at the projection parameter clamped into [0, 1]. */
  lemma SegmentFootClamped(px: real, py: real, x1: real, y1: real, x2: real, y2: real)
    ensures var len := SegLenSq(x1, y1, x2, y2);
            var f := SegmentFoot(px, py, x1, y1, x2, y2);
            && (len == 0.0 ==> f == Point(x1, y1))
            && (len != 0.0 ==> var t := Clamp(SegDot(px, py, x1, y1, x2, y2) / len, 0.0, 1.0);
                                 f == Point(x1 + t * (x2 - x1), y1 + t * (y2 - y1)))
  {
  }

  function Mul(a: real, b: real): real
  {
    a * b
  }

  lemma MulPositive(a: real, b: real)
    requires a > 0.0 && b > 0.0
    ensures Mul(a, b) > 0.0
  {
  }

  lemma MulNegated(a: real, b: real)
    ensures Mul(-a, -b) == Mul(a, b)
  {
  }

  lemma {:induction false} SquarePositive(c: real)
    requires c < 0.0 || c > 0.0
    ensures Mul(c, c) > 0.0
  {
    if c < 0.0 {
      MulPositive(-c, -c);
      MulNegated(c, c);
    } else {
      MulPositive(c, c);
    }
  }

  lemma {:induction false} SquareNonNegative(c: real)
    ensures Mul(c, c) >= 0.0
  {
    if c < 0.0 || c > 0.0 { SquarePositive(c); }
  }

  /** A segment between two distinct points has positive squared length. */
  lemma {:induction false} PositiveLength(x1: real, y1: real, x2: real, y2: real)
    requires x1 != x2 || y1 != y2
    ensures SegLenSq(x1, y1, x2, y2) > 0.0
  {
    SquareNonNegative(x2 - x1);
    SquareNonNegative(y2 - y1);
    if x1 != x2 { SquarePositive(x2 - x1); } else { SquarePositive(y2 - y1); }
  }

  /** Squared distance from (x1 + A, y1 + B) to the point at parameter u, as a quadratic in u. */
  lemma {:induction false} Expand(A: real, B: real, C: real, D: real, u: real)
    ensures (A - u * C) * (A - u * C) + (B - u * D) * (B - u * D)
         == A * A + B * B - 2.0 * u * (A * C + B * D) + u * u * (C * C + D * D)
  {
    assert (A - u * C) * (A - u * C) == A * A - 2.0 * u * (A * C) + u * u * (C * C);
    assert (B - u * D) * (B - u * D) == B * B - 2.0 * u * (B * D) + u * u * (D * D);
  }

  /** The part of the squared distance that depends on the segment parameter u. */
  function Quad(u: real, dot: real, len: real): real
  {
    u * u * len - 2.0 * u * dot
  }

  /** The quadratic Quad(·, dot, len) is smallest at the clamped vertex u. */
  lemma {:induction false} QuadraticMinimum(dot: real, len: real, u: real, s: real)
    requires len > 0.0 && 0.0 <= s <= 1.0
    requires (u == 0.0 && dot < 0.0) || (u == 1.0 && dot > len) || (dot == u * len && 0.0 <= u <= 1.0)
    ensures Quad(u, dot, len) <= Quad(s, dot, len)
  {
    var gap := (s * s * len - 2.0 * s * dot) - (u * u * len - 2.0 * u * dot);
    assert gap == (s - u) * ((s + u) * len - 2.0 * dot);
    if u == 0.0 && dot < 0.0 {
      assert gap == s * (s * len - 2.0 * dot);
      assert s * len >= 0.0;
    } else if u == 1.0 && dot > len {
      assert (s + 1.0) * len <= 2.0 * len;
      NonPositiveProduct(s - 1.0, (s + 1.0) * len - 2.0 * dot);
    } else {
      assert (s + u) * len - 2.0 * dot == (s - u) * len;
      assert gap == (s - u) * (s - u) * len;
      assert (s - u) * (s - u) >= 0.0;
    }
  }

  lemma NonPositiveProduct(a: real, b: real)
    requires a <= 0.0 && b <= 0.0
    ensures a * b >= 0.0
  {
    assert (-a) * (-b) >= 0.0;
  }

  /** Where the projection parameter dot/len falls relative to [0, 1]. */
  lemma {:induction false} ProjectionParameter(dot: real, len: real)
    requires len > 0.0
    ensures dot == (dot / len) * len
    ensures dot / len < 0.0 ==> dot < 0.0
    ensures dot / len > 1.0 ==> dot > len
  {
    var t := dot / len;
    if t < 0.0 { assert t * len < 0.0; }
    if t > 1.0 { assert (t - 1.0) * len > 0.0; }
  }

  /** Squared distance to the segment point at parameter u. */
  lemma {:induction false} SqDistAt(px: real, py: real, x1: real, y1: real, x2: real, y2: real, u: real)
    ensures SqDist(px, py, Point(x1 + u * (x2 - x1), y1 + u * (y2 - y1)))
              == SqDist(px, py, Point(x1, y1)) + Quad(u, SegDot(px, py, x1, y1, x2, y2), SegLenSq(x1, y1, x2, y2))
  {
    var A, B, C, D := px - x1, py - y1, x2 - x1, y2 - y1;
    assert px - (x1 + u * C) == A - u * C;
    assert py - (y1 + u * D) == B - u * D;
    Expand(A, B, C, D, u);
  }

  /** Away from the degenerate case the foot is the segment point at the parameter dot/len
      clamped into [0, 1], and that parameter is where the squared distance is smallest. */
  lemma {:induction false} FootParameter(px: real, py: real, x1: real, y1: real, x2: real, y2: real) returns (u: real)
    requires x1 != x2 || y1 != y2
    ensures 0.0 <= u <= 1.0
    ensures SegmentFoot(px, py, x1, y1, x2, y2) == Point(x1 + u * (x2 - x1), y1 + u * (y2 - y1))
    ensures var dot, len := SegDot(px, py, x1, y1, x2, y2), SegLenSq(x1, y1, x2, y2);
            len > 0.0 && ((u == 0.0 && dot < 0.0) || (u == 1.0 && dot > len) || (dot == u * len && 0.0 <= u <= 1.0))
  {
    var dot, len := SegDot(px, py, x1, y1, x2, y2), SegLenSq(x1, y1, x2, y2);
    PositiveLength(x1, y1, x2, y2);
    ProjectionParameter(dot, len);
    var foot := SegmentFoot(px, py, x1, y1, x2, y2);
    var t := dot / len;
    if t < 0.0 {
      u := 0.0;
      assert foot == Point(x1, y1);
    } else if t > 1.0 {
      u := 1.0;
      assert foot == Point(x2, y2);
    } else {
      u := t;
    }
  }

  /** A degenerate segment is the single point (x1, y1), and that is its foot. */
  lemma {:induction false} DegenerateFoot(px: real, py: real, x1: real, y1: real, s: real)
    ensures SegmentFoot(px, py, x1, y1, x1, y1) == Point(x1, y1) == Point(x1 + s * (x1 - x1), y1 + s * (y1 - y1))
  {
    assert SegLenSq(x1, y1, x1, y1) == 0.0;
  }

  /** On a proper segment no point is nearer to (px, py) than the foot. */
  lemma {:induction false} ProperFootClosest(px: real, py: real, x1: real, y1: real, x2: real, y2: real, s: real)
    requires x1 != x2 || y1 != y2
    requires 0.0 <= s <= 1.0
    ensures SqDist(px, py, SegmentFoot(px, py, x1, y1, x2, y2)) <= SqDist(px, py, Point(x1 + s * (x2 - x1), y1 + s * (y2 - y1)))
  {
    var u := FootParameter(px, py, x1, y1, x2, y2);
    var dot, len := SegDot(px, py, x1, y1, x2, y2), SegLenSq(x1, y1, x2, y2);
    SqDistAt(px, py, x1, y1, x2, y2, u);
    SqDistAt(px, py, x1, y1, x2, y2, s);
    QuadraticMinimum(dot, len, u, s);
  }

  /** The foot is the closest point of the segment: no point of it is nearer to (px, py). */
  lemma {:induction false} SegmentFootClosest(px: real, py: real, x1: real, y1: real, x2: real, y2: real, s: real)
    requires 0.0 <= s <= 1.0
    ensures SqDist(px, py, SegmentFoot(px, py, x1, y1, x2, y2)) <= SqDist(px, py, Point(x1 + s * (x2 - x1), y1 + s * (y2 - y1)))
  {
    if x1 == x2 && y1 == y2 {
      DegenerateFoot(px, py, x1, y1, s);
    } else {
      ProperFootClosest(px, py, x1, y1, x2, y2, s);
    }
  }

  /* -------------------------------------------------------------- hit testing */

  /** The shape test applied to a point already mapped into the object's local space. */
  function LocalHit(trig: Trig, o: Obj, local: Point, tolerance: real): bool
  {
    match o.shape
    case Path(pts, size) =>
      exists i :: 1 <= i < |pts| &&
        PointToSegmentDistance(trig, local.x, local.y, pts[i - 1].x, pts[i - 1].y, pts[i].x, pts[i].y) <= Max(tolerance, size / 2.0)
    case Timestamp(_, _, _, _) => InExtent(ObjectBounds(trig, o), local.x, local.y)
    case Speech(_, _, _, _) => InExtent(ObjectBounds(trig, o), local.x, local.y)
    case Line(x0, y0, x1, y1, size) =>
      PointToSegmentDistance(trig, local.x, local.y, x0, y0, x1, y1) <= Max(tolerance, size / 2.0)
    case Rect(x0, y0, x1, y1, _) =>
      Min(x0, x1) - tolerance <= local.x <= Max(x0, x1) + tolerance &&
      Min(y0, y1) - tolerance <= local.y <= Max(y0, y1) + tolerance
    case Latex(_, x0, y0, x1, y1) =>
      Min(x0, x1) - tolerance <= local.x <= Max(x0, x1) + tolerance &&
      Min(y0, y1) - tolerance <= local.y <= Max(y0, y1) + tolerance
    case Circle(x0, y0, x1, y1, size) =>
      var r0 := trig.hypot(x1 - x0, y1 - y0);
      var d := trig.hypot(local.x - x0, local.y - y0);
      (if d >= r0 then d - r0 else r0 - d) <= Max(tolerance, size / 2.0)
    case Image(_, _, _, _) => false
    case Other(_, _, _, _, _, _) => false
  }

  /** `objectHitTest`. A zero scale makes the source divide by zero; every comparison it then
      makes against the resulting Infinity or NaN is false, so the result is false. */
  function ObjectHitTest(trig: Trig, o: Obj, p: Point, tolerance: real): bool
  {
    var t := TransformOf(o);
    match ObjectCenter(trig, o)
    case None => false
    case Some(c) =>
      if t.scaleX == 0.0 || t.scaleY == 0.0 then false
      else LocalHit(trig, o, LocalPoint(trig, t, c, p), tolerance)
  }

  const DefaultTolerance: real := 6.0

  /** Hit-testing is invariant under the object's transform: a world point obtained by
      transforming a local point hits exactly when that local point hits the bare shape. */
  lemma HitTestUnderTransform(trig: Trig, o: Obj, local: Point, tolerance: real)
    requires RotationLaws(trig)
    requires ObjectBounds(trig, o).Extent?
    requires TransformOf(o).scaleX != 0.0 && TransformOf(o).scaleY != 0.0
    ensures var c := ObjectCenter(trig, o).value;
            ObjectHitTest(trig, o, ForwardPoint(trig, TransformOf(o), c, local), tolerance) == LocalHit(trig, o, local, tolerance)
  {
    var c := ObjectCenter(trig, o).value;
    LocalUndoesForward(trig, TransformOf(o), c, local);
  }

  /** A path's hit test is true exactly when some segment of it lies within the stroke
      tolerance of the mapped point; a path with fewer than two samples is never hit. */
  lemma PathHitNeedsSegment(trig: Trig, o: Obj, p: Point, tolerance: real)
    requires o.shape.Path? && |o.shape.points| < 2
    ensures !ObjectHitTest(trig, o, p, tolerance)
  {
  }
}
