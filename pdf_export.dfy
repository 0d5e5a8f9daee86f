/**
 * The page placement of the PDF exporter: the canvas is cut into slices one A4 page high,
 * every object whose box meets a slice is drawn on that page after moving it up by the
 * slice's offset. The exporter switches on the object's `type` string; objects of the types
 * the app draws fall into its cases as `TypeName` says.
 */
module PdfExport {
  import opened Common
  import opened Geometry
  import Pages

  /** The `type` string of an object of each variant. */
  function TypeName(s: Shape): (t: string)
    ensures s.Other? ==> t == s.kind
  {
    match s
    case Path(_, _) => "path"
    case Line(_, _, _, _, _) => "line"
    case Rect(_, _, _, _, _) => "rect"
    case Circle(_, _, _, _, _) => "circle"
    case Image(_, _, _, _) => "image"
    case Latex(_, _, _, _, _) => "latex"
    case Timestamp(_, _, _, _) => "timestamp"
    case Speech(_, _, _, _) => "speech"
    case Other(kind, _, _, _, _, _) => kind
  }

  /** The box the source gives every object whose `type` has no case of its own: `(x || 0,
      y || 0)` with the default size 10, since no object carries `width` or `height`. */
  function DefaultBox(x: real, y: real): Extent
  {
    Extent(x, y, x + 10.0, y + 10.0)
  }

  /** The box of a segment-like object, from the min and max of its two endpoints. */
  function EndpointBox(x0: real, y0: real, x1: real, y1: real): Extent
  {
    Extent(Min(x0, x1), Min(y0, y1), Max(x0, x1), Max(y0, y1))
  }

  /** The box of a circle centred on its start point through its end point. */
  function CircleBox(trig: Trig, x0: real, y0: real, x1: real, y1: real): Extent
  {
    var r := trig.hypot(x1 - x0, y1 - y0);
    Extent(x0 - r, y0 - r, x0 + r, y0 + r)
  }

  /** The box of an object of an unknown type, by the `type` string it carries. `None` is the
      TypeError of a `freehand` object without `points`; `NoExtent` is the NaN box of a `text`
      or `latex` object without `x` and `y`. */
  function KindBounds(trig: Trig, kind: string, x0: real, y0: real, x1: real, y1: real): Option<Extent>
  {
    if kind == "freehand" then None
    else if kind == "line" || kind == "rect" then Some(EndpointBox(x0, y0, x1, y1))
    else if kind == "circle" then Some(CircleBox(trig, x0, y0, x1, y1))
    else if kind == "text" || kind == "latex" then Some(NoExtent)
    else Some(DefaultBox(0.0, 0.0))
  }

  /** `getObjectBounds` as written. The source's `freehand` case is never reached by a pen
      stroke, whose type is `path`, so a path gets the default box at the origin; a latex
      object has no `x` or `y`, so its box is NaN (`NoExtent`). `None`: the source throws. */
  function GetObjectBounds(trig: Trig, o: Obj): (b: Option<Extent>)
    ensures b.None? <==> o.shape.Other? && o.shape.kind == "freehand"
    ensures o.shape.Path? || o.shape.Image? ==> b == Some(Extent(0.0, 0.0, 10.0, 10.0))
    ensures o.shape.Latex? ==> b == Some(NoExtent)
  {
    match o.shape
    case Path(_, _) => Some(DefaultBox(0.0, 0.0))
    case Line(x0, y0, x1, y1, _) => Some(EndpointBox(x0, y0, x1, y1))
    case Rect(x0, y0, x1, y1, _) => Some(EndpointBox(x0, y0, x1, y1))
    case Circle(x0, y0, x1, y1, _) => Some(CircleBox(trig, x0, y0, x1, y1))
    case Image(_, _, _, _) => Some(DefaultBox(0.0, 0.0))
    case Latex(_, _, _, _, _) => Some(NoExtent)
    case Timestamp(_, x, y, _) => Some(DefaultBox(x, y))
    case Speech(_, x, y, _) => Some(DefaultBox(x, y))
    case Other(kind, x0, y0, x1, y1, _) => KindBounds(trig, kind, x0, y0, x1, y1)
  }

  /** The line and rect boxes are ordered and hold both endpoints, each side on one of them. */
  lemma EndpointBoxes(trig: Trig, o: Obj)
    requires o.shape.Line? || o.shape.Rect?
    ensures var b := GetObjectBounds(trig, o).value; var s := o.shape;
      && b.Extent? && b.minX <= b.maxX && b.minY <= b.maxY
      && InExtent(b, s.startX, s.startY) && InExtent(b, s.endX, s.endY)
      && (b.minX == s.startX || b.minX == s.endX) && (b.maxX == s.startX || b.maxX == s.endX)
      && (b.minY == s.startY || b.minY == s.endY) && (b.maxY == s.startY || b.maxY == s.endY)
  {
  }

  /** The circle box is centred on the start point, its half-side the distance to the end. */
  lemma CircleBoxIsRadius(trig: Trig, o: Obj)
    requires HypotIsNorm(trig) && o.shape.Circle?
    ensures var b := GetObjectBounds(trig, o).value; var s := o.shape;
      var r := (b.maxX - b.minX) / 2.0;
      && b.Extent? && r >= 0.0
      && b.minX + r == s.startX && b.minY + r == s.startY && b.maxY - b.minY == b.maxX - b.minX
      && r * r == (s.endX - s.startX) * (s.endX - s.startX) + (s.endY - s.startY) * (s.endY - s.startY)
  {
    var s := o.shape;
    var d := trig.hypot(s.endX - s.startX, s.endY - s.startY);
    assert d >= 0.0 && d * d == (s.endX - s.startX) * (s.endX - s.startX) + (s.endY - s.startY) * (s.endY - s.startY);
  }

  /** `isObjectOnPage`: the box meets the rows `[pageOffsetY, pageOffsetY + pageHeight]`. A NaN
      box meets nothing; `None`: the bounds step throws. */
  function IsObjectOnPage(trig: Trig, o: Obj, pageOffsetY: real, pageHeight: real): (r: Option<bool>)
    ensures r.None? <==> GetObjectBounds(trig, o).None?
    ensures r == Some(true) <==>
              exists minX, minY, maxX, maxY :: GetObjectBounds(trig, o) == Some(Extent(minX, minY, maxX, maxY))
                                              && maxY >= pageOffsetY && minY <= pageOffsetY + pageHeight
  {
    match GetObjectBounds(trig, o)
    case None => None
    case Some(b) => Some(Meets(b, pageOffsetY, pageHeight))
  }

  /** The comparison `bounds.maxY >= top && bounds.minY <= top + height`. */
  predicate Meets(b: Extent, top: real, height: real)
  {
    b.Extent? && b.maxY >= top && b.minY <= top + height
  }

  /** As written, a pen stroke meets only the slices that reach the rows 0 to 10, whatever its
      samples are: on pages one page high beyond 10, only the first. */
  lemma PathOnFirstPageOnly(trig: Trig, o: Obj, pageIndex: nat, pageHeight: real)
    requires o.shape.Path? && pageHeight > 10.0
    ensures IsObjectOnPage(trig, o, PageOffset(pageIndex, pageHeight), pageHeight) == Some(pageIndex == 0)
  {
    if pageIndex > 0 {
      MulMonotone(1.0, pageIndex as real, pageHeight);
    }
  }

  /** A stroke drawn in the middle of the second page of a 1000-wide window is not exported on
      the second page. */
  lemma PathLostOnSecondPage(trig: Trig)
    ensures var o := Obj(1, 0, "#000000", None, Path([Sample(100.0, 2000.0, 0.5), Sample(200.0, 2100.0, 0.5)], 2.0));
      var h := 1000.0 * 1.4142;
      && 0 <= 1 < ExportPageCount(2843, h)
      && PageOffset(1, h) <= 2000.0 && 2100.0 <= PageOffset(1, h) + h
      && IsObjectOnPage(trig, o, PageOffset(1, h), h) == Some(false)
  {
    var h := 1000.0 * 1.4142;
    assert 2.0 * h < 2843.0 <= 3.0 * h;
  }

  /** A latex object is exported on no page at all, as written. */
  lemma LatexOnNoPage(trig: Trig, o: Obj, pageOffsetY: real, pageHeight: real)
    requires o.shape.Latex?
    ensures IsObjectOnPage(trig, o, pageOffsetY, pageHeight) == Some(false)
  {
  }

  /** `adjustObjectForPage` as written: a line, rect or circle has `startY` and `endY` moved up
      by the offset; a `text` or `latex` object has only its `y` moved, which for a latex
      object (positioned by `startY`/`endY`) changes nothing the model carries; every other
      object, a pen stroke included, is copied unchanged. */
  function AdjustObjectForPage(o: Obj, pageOffsetY: real): (r: Obj)
    ensures r.id == o.id && r.timestamp == o.timestamp && r.color == o.color && r.transform == o.transform
    ensures TypeName(r.shape) == TypeName(o.shape)
    ensures !(TypeName(o.shape) in {"line", "rect", "circle"}) ==> r == o
  {
    var d := pageOffsetY;
    match o.shape
    case Line(x0, y0, x1, y1, size) => o.(shape := Line(x0, y0 - d, x1, y1 - d, size))
    case Rect(x0, y0, x1, y1, size) => o.(shape := Rect(x0, y0 - d, x1, y1 - d, size))
    case Circle(x0, y0, x1, y1, size) => o.(shape := Circle(x0, y0 - d, x1, y1 - d, size))
    case Other(kind, x0, y0, x1, y1, size) =>
      if kind in {"line", "rect", "circle"} then o.(shape := Other(kind, x0, y0 - d, x1, y1 - d, size)) else o
    case _ => o
  }

  /** Adjusting never moves anything horizontally, and it is undone by adjusting back. */
  lemma AdjustRoundTrip(o: Obj, pageOffsetY: real)
    ensures AdjustObjectForPage(AdjustObjectForPage(o, pageOffsetY), -pageOffsetY) == o
    ensures var r := AdjustObjectForPage(o, pageOffsetY).shape;
      (r.Line? || r.Rect? || r.Circle? || r.Other?) ==> r.startX == o.shape.startX && r.endX == o.shape.endX
  {
  }

  /** The box moved up by `d` rows. */
  function RaiseBy(e: Extent, d: real): (r: Extent)
    ensures forall x, y :: InExtent(r, x, y) <==> InExtent(e, x, y + d)
  {
    match e
    case NoExtent => NoExtent
    case Extent(x0, y0, x1, y1) => Extent(x0, y0 - d, x1, y1 - d)
  }

  /** For the types it moves, adjusting moves the box with the object. */
  lemma AdjustRaisesBox(trig: Trig, o: Obj, pageOffsetY: real)
    requires TypeName(o.shape) in {"line", "rect", "circle"}
    ensures GetObjectBounds(trig, AdjustObjectForPage(o, pageOffsetY)) == Some(RaiseBy(GetObjectBounds(trig, o).value, pageOffsetY))
  {
    var d := pageOffsetY;
    match o.shape
    case Circle(_, y0, _, y1, _) => assert (y1 - d) - (y0 - d) == y1 - y0;
    case Other(kind, _, y0, _, y1, _) =>
      if kind == "circle" {
        assert (y1 - d) - (y0 - d) == y1 - y0;
      } else {
        assert kind == "line" || kind == "rect";
      }
    case _ =>
  }

  /** So an object of those types is on the page exactly when its adjusted copy meets the rows
      from 0 to the page height. */
  lemma AdjustMovesBox(trig: Trig, o: Obj, pageOffsetY: real, pageHeight: real)
    requires TypeName(o.shape) in {"line", "rect", "circle"}
    ensures IsObjectOnPage(trig, o, pageOffsetY, pageHeight) == IsObjectOnPage(trig, AdjustObjectForPage(o, pageOffsetY), 0.0, pageHeight)
  {
    AdjustRaisesBox(trig, o, pageOffsetY);
  }

  /* ------------------------------------------------------------ corrected placement */

  /** The box the exporter evidently means to use: a pen stroke (`path`, the type the app gives
      it) takes the `freehand` case, the box of its samples, and a latex object takes its
      `startX`..`endY` rectangle; every other type as written. */
  function ExportBounds(trig: Trig, o: Obj): (b: Option<Extent>)
    ensures b.None? <==> GetObjectBounds(trig, o).None?
    ensures !(o.shape.Path? || o.shape.Latex?) ==> b == GetObjectBounds(trig, o)
  {
    match o.shape
    case Path(pts, _) => Some(PointsExtent(pts))
    case Latex(_, x0, y0, x1, y1) => Some(Extent(x0, y0, x1, y1))
    case _ => GetObjectBounds(trig, o)
  }

  /** `isObjectOnPage` over the corrected box. */
  function OnExportPage(trig: Trig, o: Obj, pageOffsetY: real, pageHeight: real): (r: Option<bool>)
    ensures r.None? <==> ExportBounds(trig, o).None?
    ensures r == Some(true) <==> ExportBounds(trig, o).Some? && Meets(ExportBounds(trig, o).value, pageOffsetY, pageHeight)
  {
    match ExportBounds(trig, o)
    case None => None
    case Some(b) => Some(Meets(b, pageOffsetY, pageHeight))
  }

  /** The samples moved up by `d` rows, as the `freehand` case of `adjustObjectForPage` does. */
  function RaisePoints(pts: seq<Sample>, d: real): (r: seq<Sample>)
    ensures |r| == |pts|
    ensures forall i :: 0 <= i < |pts| ==> r[i] == pts[i].(y := pts[i].y - d)
  {
    seq(|pts|, i requires 0 <= i < |pts| => pts[i].(y := pts[i].y - d))
  }

  /** `adjustObjectForPage` with the corrections of `ExportBounds`: a pen stroke has its samples
      moved up and a latex object its `startY` and `endY`; every other type as written. */
  function MoveToPage(o: Obj, pageOffsetY: real): (r: Obj)
    ensures r.id == o.id && r.timestamp == o.timestamp && r.color == o.color && r.transform == o.transform
    ensures TypeName(r.shape) == TypeName(o.shape)
    ensures !(o.shape.Path? || o.shape.Latex?) ==> r == AdjustObjectForPage(o, pageOffsetY)
  {
    match o.shape
    case Path(pts, size) => o.(shape := Path(RaisePoints(pts, pageOffsetY), size))
    case Latex(src, x0, y0, x1, y1) => o.(shape := Latex(src, x0, y0 - pageOffsetY, x1, y1 - pageOffsetY))
    case _ => AdjustObjectForPage(o, pageOffsetY)
  }

  /** Raising every sample raises the box of the samples. */
  lemma {:induction false} PointsExtentRaised(pts: seq<Sample>, d: real)
    ensures PointsExtent(RaisePoints(pts, d)) == RaiseBy(PointsExtent(pts), d)
  {
    if |pts| > 0 {
      var n := |pts| - 1;
      assert RaisePoints(pts, d)[..n] == RaisePoints(pts[..n], d);
      PointsExtentRaised(pts[..n], d);
    }
  }

  /** With the correction, a pen stroke is on a page iff one of its samples is at or below the
      page top and one is at or above the page bottom; in particular a stroke with a sample
      inside the page is exported on it. */
  lemma CorrectedPathOnPage(trig: Trig, o: Obj, pageOffsetY: real, pageHeight: real)
    requires o.shape.Path?
    ensures var pts := o.shape.points;
      OnExportPage(trig, o, pageOffsetY, pageHeight) == Some(true) <==>
        (exists i :: 0 <= i < |pts| && pts[i].y >= pageOffsetY) &&
        (exists j :: 0 <= j < |pts| && pts[j].y <= pageOffsetY + pageHeight)
  {
    var pts := o.shape.points;
    PointsExtentTight(pts);
    var e := PointsExtent(pts);
    if (exists i :: 0 <= i < |pts| && pts[i].y >= pageOffsetY) && (exists j :: 0 <= j < |pts| && pts[j].y <= pageOffsetY + pageHeight) {
      var i :| 0 <= i < |pts| && pts[i].y >= pageOffsetY;
      assert InExtent(e, pts[i].x, pts[i].y);
    }
  }

  /** The stroke of `PathLostOnSecondPage` is exported on the second page once corrected. */
  lemma CorrectedPathKeptOnSecondPage(trig: Trig)
    ensures var o := Obj(1, 0, "#000000", None, Path([Sample(100.0, 2000.0, 0.5), Sample(200.0, 2100.0, 0.5)], 2.0));
      var h := 1000.0 * 1.4142;
      OnExportPage(trig, o, PageOffset(1, h), h) == Some(true)
  {
  }

  /** With the correction, a latex object is on a page iff its rectangle's rows meet the page. */
  lemma CorrectedLatexOnPage(trig: Trig, o: Obj, pageOffsetY: real, pageHeight: real)
    requires o.shape.Latex?
    ensures OnExportPage(trig, o, pageOffsetY, pageHeight) == Some(true) <==>
              o.shape.endY >= pageOffsetY && o.shape.startY <= pageOffsetY + pageHeight
  {
  }

  /** With the correction, every type that is moved takes its box with it, pen strokes and latex
      objects included: an object is on the page iff its moved copy meets the rows from 0 to
      the page height. */
  lemma MoveToPageMovesBox(trig: Trig, o: Obj, pageOffsetY: real, pageHeight: real)
    requires o.shape.Path? || o.shape.Latex? || TypeName(o.shape) in {"line", "rect", "circle"}
    ensures ExportBounds(trig, MoveToPage(o, pageOffsetY)) == Some(RaiseBy(ExportBounds(trig, o).value, pageOffsetY))
    ensures OnExportPage(trig, o, pageOffsetY, pageHeight) == OnExportPage(trig, MoveToPage(o, pageOffsetY), 0.0, pageHeight)
  {
    if o.shape.Path? {
      PointsExtentRaised(o.shape.points, pageOffsetY);
    } else if !o.shape.Latex? {
      AdjustRaisesBox(trig, o, pageOffsetY);
    }
  }

  /* ------------------------------------------------------------ pages */

  /** `Math.ceil(canvas.height / A4_HEIGHT)`. */
  function ExportPageCount(canvasHeight: nat, a4Height: real): nat
    requires a4Height > 0.0
  {
    QuotientLower(canvasHeight as real, a4Height, 0.0);
    Ceil(canvasHeight as real / a4Height)
  }

  /** The count is the fewest slices one page high that reach the canvas bottom. */
  lemma ExportPageCountBounds(canvasHeight: nat, a4Height: real)
    requires a4Height > 0.0
    ensures var n := ExportPageCount(canvasHeight, a4Height);
      (n as real - 1.0) * a4Height < canvasHeight as real <= n as real * a4Height
    ensures canvasHeight > 0 ==> ExportPageCount(canvasHeight, a4Height) >= 1
  {
    var q := canvasHeight as real / a4Height;
    DivMul(canvasHeight as real, a4Height);
    var n := ExportPageCount(canvasHeight, a4Height);
    MulMonotone(q, n as real, a4Height);
    MulStrictMonotone(n as real - 1.0, q, a4Height);
  }

  /** `pageIndex * A4_HEIGHT`. */
  function PageOffset(pageIndex: nat, a4Height: real): real
  {
    pageIndex as real * a4Height
  }

  /** The slices follow one another without a gap and the last one ends at or below the canvas
      bottom: every row of the canvas is in the slice of some exported page. */
  lemma {:induction false} SlicesCoverCanvas(canvasHeight: nat, a4Height: real, y: real)
    requires a4Height > 0.0 && canvasHeight > 0 && 0.0 <= y <= canvasHeight as real
    ensures var n := ExportPageCount(canvasHeight, a4Height);
      exists i :: 0 <= i < n && PageOffset(i, a4Height) <= y <= PageOffset(i, a4Height) + a4Height
  {
    var n := ExportPageCount(canvasHeight, a4Height);
    ExportPageCountBounds(canvasHeight, a4Height);
    var i := SliceOf(y, a4Height);
    if i >= n {
      var j: nat := n - 1;
      MulMonotone(j as real, i as real, a4Height);
      assert (j as real + 1.0) * a4Height == j as real * a4Height + a4Height;
      assert PageOffset(j, a4Height) <= y <= PageOffset(j, a4Height) + a4Height;
    }
  }

  /** The slice a non-negative row falls into. */
  lemma SliceOf(y: real, a4Height: real) returns (i: nat)
    requires a4Height > 0.0 && y >= 0.0
    ensures PageOffset(i, a4Height) <= y < PageOffset(i, a4Height) + a4Height
  {
    var q := y / a4Height;
    QuotientLower(y, a4Height, 0.0);
    i := q.Floor;
    QuotientBounds(y, a4Height, i as real);
  }

  /** Whatever lies on the canvas and has a box under the placement is exported on at least
      one page. As written a latex object has no box (`LatexOnNoPage`) and a pen stroke has
      the box at the origin, so this says less of the source than of the corrected loop. */
  lemma ObjectOnSomePage(p: Placement, trig: Trig, o: Obj, canvasHeight: nat, a4Height: real)
    requires a4Height > 0.0 && canvasHeight > 0
    requires PlacedBounds(p, trig, o).Some?
    requires var b := PlacedBounds(p, trig, o).value; b.Extent? && b.minY <= b.maxY && 0.0 <= b.minY <= canvasHeight as real
    ensures exists i :: 0 <= i < ExportPageCount(canvasHeight, a4Height)
                        && OnPage(p, trig, o, PageOffset(i, a4Height), a4Height) == Some(true)
  {
    var b := PlacedBounds(p, trig, o).value;
    SlicesCoverCanvas(canvasHeight, a4Height, b.minY);
    var i :| 0 <= i < ExportPageCount(canvasHeight, a4Height) && PageOffset(i, a4Height) <= b.minY <= PageOffset(i, a4Height) + a4Height;
    assert Meets(b, PageOffset(i, a4Height), a4Height);
  }

  /** The slices ignore the page layout of the drawing surface: slice `i` starts `i + 1` margins
      (5 rows each) above the top of page `i` as the engine lays pages out. */
  lemma SliceAbovePage(a4Width: real, pageIndex: nat)
    requires a4Width >= 0.0
    ensures PageOffset(pageIndex, Pages.A4Height(a4Width))
            == Pages.PageTop(a4Width, pageIndex) - (pageIndex as real + 1.0) * Pages.PAGE_SPACING
  {
  }

  /* ------------------------------------------------------------ the export loop */

  /** The placement the page loop uses: `AsWritten` is `isObjectOnPage` and
      `adjustObjectForPage` as the source has them; `Corrected` is `OnExportPage` and
      `MoveToPage`, the placement of the corrected box. */
  datatype Placement = AsWritten | Corrected

  /** The box the placement tests against a page. */
  function PlacedBounds(p: Placement, trig: Trig, o: Obj): (b: Option<Extent>)
    ensures b.None? <==> GetObjectBounds(trig, o).None?
    ensures p == AsWritten ==> b == GetObjectBounds(trig, o)
    ensures !(o.shape.Path? || o.shape.Latex?) ==> b == GetObjectBounds(trig, o)
  {
    match p
    case AsWritten => GetObjectBounds(trig, o)
    case Corrected => ExportBounds(trig, o)
  }

  /** The page test of the loop (pdf-export.js:126): the placed box meets the page's rows;
      `None` when the bounds step throws, for either placement alike. */
  function OnPage(p: Placement, trig: Trig, o: Obj, pageOffsetY: real, pageHeight: real): (r: Option<bool>)
    ensures r.None? <==> GetObjectBounds(trig, o).None?
    ensures r == Some(true) <==> PlacedBounds(p, trig, o).Some? && Meets(PlacedBounds(p, trig, o).value, pageOffsetY, pageHeight)
  {
    match p
    case AsWritten => IsObjectOnPage(trig, o, pageOffsetY, pageHeight)
    case Corrected => OnExportPage(trig, o, pageOffsetY, pageHeight)
  }

  /** The copy the loop draws (pdf-export.js:128). */
  function Moved(p: Placement, o: Obj, pageOffsetY: real): (r: Obj)
    ensures r.id == o.id && TypeName(r.shape) == TypeName(o.shape)
    ensures !(o.shape.Path? || o.shape.Latex?) ==> r == AdjustObjectForPage(o, pageOffsetY)
  {
    match p
    case AsWritten => AdjustObjectForPage(o, pageOffsetY)
    case Corrected => MoveToPage(o, pageOffsetY)
  }

  /** What page `pageOffsetY` receives from `objs` under the placement: the moved copies of
      the objects on it, in drawing order. */
  function PageContents(p: Placement, trig: Trig, objs: seq<Obj>, pageOffsetY: real, pageHeight: real): (page: seq<Obj>)
    requires forall o :: o in objs ==> GetObjectBounds(trig, o).Some?
    ensures |page| <= |objs|
    ensures forall r :: r in page ==>
              exists o :: o in objs && OnPage(p, trig, o, pageOffsetY, pageHeight) == Some(true) && r == Moved(p, o, pageOffsetY)
  {
    if |objs| == 0 then []
    else
      var o := objs[|objs| - 1];
      var rest := PageContents(p, trig, objs[..|objs| - 1], pageOffsetY, pageHeight);
      if OnPage(p, trig, o, pageOffsetY, pageHeight) == Some(true)
      then rest + [Moved(p, o, pageOffsetY)]
      else rest
  }

  /** The contents of one more object: the page so far, and its moved copy when it is on the
      page. */
  lemma PageContentsStep(p: Placement, trig: Trig, objs: seq<Obj>, k: nat, pageOffsetY: real, pageHeight: real)
    requires k < |objs| && forall o :: o in objs[..k + 1] ==> GetObjectBounds(trig, o).Some?
    ensures forall o :: o in objs[..k] ==> GetObjectBounds(trig, o).Some?
    ensures PageContents(p, trig, objs[..k + 1], pageOffsetY, pageHeight)
            == PageContents(p, trig, objs[..k], pageOffsetY, pageHeight)
               + (if OnPage(p, trig, objs[k], pageOffsetY, pageHeight) == Some(true) then [Moved(p, objs[k], pageOffsetY)] else [])
  {
    assert objs[..k + 1][..k] == objs[..k];
    assert forall o :: o in objs[..k] ==> o in objs[..k + 1];
  }

  /** Every object on the page is drawn on it, moved; with the contract of `PageContents`,
      nothing else is. */
  lemma {:induction false} PageContentsComplete(p: Placement, trig: Trig, objs: seq<Obj>, pageOffsetY: real, pageHeight: real, o: Obj)
    requires forall q :: q in objs ==> GetObjectBounds(trig, q).Some?
    requires o in objs && OnPage(p, trig, o, pageOffsetY, pageHeight) == Some(true)
    ensures Moved(p, o, pageOffsetY) in PageContents(p, trig, objs, pageOffsetY, pageHeight)
  {
    var last := objs[|objs| - 1];
    var init := objs[..|objs| - 1];
    if o != last {
      assert o in init by {
        var j :| 0 <= j < |objs| && objs[j] == o;
        assert j < |objs| - 1 && init[j] == o;
      }
      PageContentsComplete(p, trig, init, pageOffsetY, pageHeight, o);
    }
  }

  /** An object whose `type` is `latex` has the NaN box as written, whatever variant carries it. */
  lemma LatexTypeHasNoBox(trig: Trig, o: Obj)
    requires TypeName(o.shape) == "latex"
    ensures GetObjectBounds(trig, o) == Some(NoExtent)
  {
    match o.shape
    case Other(kind, _, _, _, _, _) =>
    case Latex(_, _, _, _, _) =>
  }

  /** As written, no page receives a latex object. */
  lemma AsWrittenDropsLatex(trig: Trig, objs: seq<Obj>, pageOffsetY: real, pageHeight: real)
    requires forall o :: o in objs ==> GetObjectBounds(trig, o).Some?
    ensures forall r :: r in PageContents(AsWritten, trig, objs, pageOffsetY, pageHeight) ==> TypeName(r.shape) != "latex"
  {
    forall r | r in PageContents(AsWritten, trig, objs, pageOffsetY, pageHeight)
      ensures TypeName(r.shape) != "latex"
    {
      var o :| o in objs && OnPage(AsWritten, trig, o, pageOffsetY, pageHeight) == Some(true) && r == Moved(AsWritten, o, pageOffsetY);
      if TypeName(o.shape) == "latex" {
        LatexTypeHasNoBox(trig, o);
      }
    }
  }

  /** As written, no page after the first receives a pen stroke (pages one page high beyond
      10 rows). */
  lemma AsWrittenDropsLaterStrokes(trig: Trig, objs: seq<Obj>, pageIndex: nat, pageHeight: real)
    requires forall o :: o in objs ==> GetObjectBounds(trig, o).Some?
    requires pageIndex > 0 && pageHeight > 10.0
    ensures forall r :: r in PageContents(AsWritten, trig, objs, PageOffset(pageIndex, pageHeight), pageHeight) ==> !r.shape.Path?
  {
    var off := PageOffset(pageIndex, pageHeight);
    forall r | r in PageContents(AsWritten, trig, objs, off, pageHeight)
      ensures !r.shape.Path?
    {
      var o :| o in objs && OnPage(AsWritten, trig, o, off, pageHeight) == Some(true) && r == Moved(AsWritten, o, off);
      if o.shape.Path? {
        PathOnFirstPageOnly(trig, o, pageIndex, pageHeight);
      }
    }
  }

  /** The two placements give every page the same contents when there is no pen stroke and no
      latex object: the correction changes nothing else. */
  lemma {:induction false} PlacementsAgree(trig: Trig, objs: seq<Obj>, pageOffsetY: real, pageHeight: real)
    requires forall o :: o in objs ==> GetObjectBounds(trig, o).Some? && !o.shape.Path? && !o.shape.Latex?
    ensures PageContents(AsWritten, trig, objs, pageOffsetY, pageHeight) == PageContents(Corrected, trig, objs, pageOffsetY, pageHeight)
  {
    if |objs| > 0 {
      var o := objs[|objs| - 1];
      assert o in objs;
      PlacementsAgree(trig, objs[..|objs| - 1], pageOffsetY, pageHeight);
    }
  }

  /** Does any object make the bounds step throw? */
  predicate AnyThrows(trig: Trig, objs: seq<Obj>)
  {
    exists o :: o in objs && GetObjectBounds(trig, o).None?
  }

  /** The page loop of `exportToPDF` under the placement (`AsWritten` is the source's): for
      each of the pages, the objects drawn on it (already moved); `None` when the bounds step
      throws, which aborts the export. */
  method ExportPages(p: Placement, trig: Trig, objs: seq<Obj>, canvasHeight: nat, a4Height: real) returns (pages: Option<seq<seq<Obj>>>)
    requires a4Height > 0.0
    ensures pages.None? <==> ExportPageCount(canvasHeight, a4Height) > 0 && AnyThrows(trig, objs)
    ensures pages.Some? ==> |pages.value| == ExportPageCount(canvasHeight, a4Height)
    ensures pages.Some? ==> forall i :: 0 <= i < |pages.value| ==>
              pages.value[i] == PageContents(p, trig, objs, PageOffset(i, a4Height), a4Height)
  {
    var numPages := ExportPageCount(canvasHeight, a4Height);
    var done: seq<seq<Obj>> := [];
    var pageIndex := 0;
    while pageIndex < numPages
      invariant 0 <= pageIndex <= numPages && |done| == pageIndex
      invariant pageIndex > 0 ==> !AnyThrows(trig, objs)
      invariant forall i :: 0 <= i < pageIndex ==> done[i] == PageContents(p, trig, objs, PageOffset(i, a4Height), a4Height)
    {
      var page := DrawPage(p, trig, objs, PageOffset(pageIndex, a4Height), a4Height);
      if page.None? {
        return None;
      }
      done := done + [page.value];
      pageIndex := pageIndex + 1;
    }
    return Some(done);
  }

  /** The object loop for one page: the moved copies of the objects on it, or `None` as soon
      as one of them makes the bounds step throw. */
  method DrawPage(p: Placement, trig: Trig, objs: seq<Obj>, pageOffsetY: real, pageHeight: real) returns (page: Option<seq<Obj>>)
    ensures page.None? <==> AnyThrows(trig, objs)
    ensures page.Some? ==> page.value == PageContents(p, trig, objs, pageOffsetY, pageHeight)
  {
    var drawn: seq<Obj> := [];
    var k := 0;
    while k < |objs|
      invariant 0 <= k <= |objs|
      invariant forall o :: o in objs[..k] ==> GetObjectBounds(trig, o).Some?
      invariant drawn == PageContents(p, trig, objs[..k], pageOffsetY, pageHeight)
    {
      var onPage := OnPage(p, trig, objs[k], pageOffsetY, pageHeight);
      if onPage.None? {
        return None;
      }
      PageContentsStep(p, trig, objs, k, pageOffsetY, pageHeight);
      if onPage.value {
        drawn := drawn + [Moved(p, objs[k], pageOffsetY)];
      }
      k := k + 1;
    }
    assert objs[..k] == objs;
    return Some(drawn);
  }
}
