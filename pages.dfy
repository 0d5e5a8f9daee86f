/**
 * Page layout of the drawing surface: pages are A4 portrait rectangles stacked vertically,
 * each `PAGE_MARGIN` from the left edge, separated by `PAGE_SPACING`, the first one starting
 * `PAGE_MARGIN` from the top. The page width is the browser window width.
 */
module Pages {
  import opened Common
  import opened Geometry

  const PAGE_MARGIN: real := 5.0
  const PAGE_SPACING: real := 5.0
  /** A4 height over A4 width (√2, as written in the source). */
  const A4_RATIO: real := 1.4142

  function A4Height(a4Width: real): real
  {
    a4Width * A4_RATIO
  }

  /** Height of one page plus the gap below it. */
  function PageSlot(a4Width: real): (s: real)
    requires a4Width >= 0.0
    ensures s > A4Height(a4Width) >= 0.0
  {
    A4Height(a4Width) + PAGE_SPACING
  }

  function PageRight(a4Width: real): real
  {
    PAGE_MARGIN + a4Width
  }

  /** Index of the page slot a y offset (measured from the first page top) falls into. */
  function PageIndex(a4Width: real, rel: real): (k: int)
    requires a4Width >= 0.0 && rel >= 0.0
    ensures k >= 0
  {
    (rel / PageSlot(a4Width)).Floor
  }

  /** `relativeY % slot`. */
  function YInPage(a4Width: real, rel: real): (r: real)
    requires a4Width >= 0.0 && rel >= 0.0
    ensures 0.0 <= r < PageSlot(a4Width)
    ensures rel == PageIndex(a4Width, rel) as real * PageSlot(a4Width) + r
  {
    RemNonNeg(rel, PageSlot(a4Width))
  }

  function PageTop(a4Width: real, k: int): real
    requires a4Width >= 0.0
  {
    PAGE_MARGIN + k as real * PageSlot(a4Width)
  }

  function PageBottom(a4Width: real, k: int): real
    requires a4Width >= 0.0
  {
    PageTop(a4Width, k) + A4Height(a4Width)
  }

  /** The row `y` is on a page: not above the first one and not in a gap between two. */
  predicate OnPageRow(a4Width: real, y: real)
    requires a4Width >= 0.0
  {
    y - PAGE_MARGIN >= 0.0 && YInPage(a4Width, y - PAGE_MARGIN) <= A4Height(a4Width)
  }

  /** `isWithinPageBounds`: inside the page columns and on a page rather than in a gap. */
  function IsWithinPageBounds(a4Width: real, x: real, y: real): bool
    requires a4Width >= 0.0
  {
    if x < PAGE_MARGIN || x > PageRight(a4Width) then false
    else OnPageRow(a4Width, y)
  }

  /** `constrainToPageBounds`: clamp x into the page columns; above the first page snap to its
      top; in a gap snap to the nearer of the page bottom above and the page top below. */
  function ConstrainToPageBounds(a4Width: real, x: real, y: real): Point
    requires a4Width >= 0.0
  {
    var cx := Max(PAGE_MARGIN, Min(PageRight(a4Width), x));
    var rel := y - PAGE_MARGIN;
    if rel < 0.0 then Point(cx, PAGE_MARGIN)
    else
      var k := PageIndex(a4Width, rel);
      if YInPage(a4Width, rel) > A4Height(a4Width) then
        var bottom := PageBottom(a4Width, k);
        var nextTop := PageTop(a4Width, k + 1);
        Point(cx, if y - bottom < nextTop - y then bottom else nextTop)
      else Point(cx, y)
  }

  /** A y offset `k` slots plus `r` below the first page top lies in slot `k`, `r` into it. */
  lemma {:induction false} SlotPosition(a4Width: real, k: int, r: real)
    requires a4Width >= 0.0 && k >= 0 && 0.0 <= r < PageSlot(a4Width)
    ensures PageIndex(a4Width, k as real * PageSlot(a4Width) + r) == k
    ensures YInPage(a4Width, k as real * PageSlot(a4Width) + r) == r
  {
    var S := PageSlot(a4Width);
    var rel := k as real * S + r;
    DivideSum(k as real, r, S);
    FractionBelowOne(r, S);
    var f := r / S;
    assert rel / S == k as real + f;
    FloorOfFraction(k, f);
    assert PageIndex(a4Width, rel) == k;
    assert rel == k as real * PageSlot(a4Width) + r;
  }

  lemma FloorOfFraction(k: int, f: real)
    requires 0.0 <= f < 1.0
    ensures (k as real + f).Floor == k
  {
  }

  lemma DivideSum(k: real, r: real, S: real)
    requires S > 0.0
    ensures (k * S + r) / S == k + r / S
  {
  }

  lemma FractionBelowOne(r: real, S: real)
    requires S > 0.0 && 0.0 <= r < S
    ensures 0.0 <= r / S < 1.0
  {
    DivMul(r, S);
    if r / S >= 1.0 {
      QuotientLower(r, S, 1.0);
    }
  }

  /** Every page top and page bottom is within the page bounds (for x in the page columns). */
  lemma {:induction false} PageEdgesWithin(a4Width: real, x: real, k: int)
    requires a4Width >= 0.0 && k >= 0 && PAGE_MARGIN <= x <= PageRight(a4Width)
    ensures IsWithinPageBounds(a4Width, x, PageTop(a4Width, k))
    ensures IsWithinPageBounds(a4Width, x, PageBottom(a4Width, k))
  {
    SlotPosition(a4Width, k, 0.0);
    SlotPosition(a4Width, k, A4Height(a4Width));
    assert PageTop(a4Width, k) - PAGE_MARGIN == k as real * PageSlot(a4Width) + 0.0;
    assert PageBottom(a4Width, k) - PAGE_MARGIN == k as real * PageSlot(a4Width) + A4Height(a4Width);
  }

  /** The constrained point always satisfies the page-bounds test. */
  lemma ConstrainedIsWithin(a4Width: real, x: real, y: real)
    requires a4Width >= 0.0
    ensures var p := ConstrainToPageBounds(a4Width, x, y);
            IsWithinPageBounds(a4Width, p.x, p.y)
  {
    var cx := Max(PAGE_MARGIN, Min(PageRight(a4Width), x));
    var rel := y - PAGE_MARGIN;
    if rel < 0.0 {
      PageEdgesWithin(a4Width, cx, 0);
    } else {
      var k := PageIndex(a4Width, rel);
      PageEdgesWithin(a4Width, cx, k);
      PageEdgesWithin(a4Width, cx, k + 1);
    }
  }

  /** A point already within the page bounds is left where it is. */
  lemma WithinIsFixed(a4Width: real, x: real, y: real)
    requires a4Width >= 0.0
    requires IsWithinPageBounds(a4Width, x, y)
    ensures ConstrainToPageBounds(a4Width, x, y) == Point(x, y)
  {
  }

  /** Constraining is idempotent. */
  lemma ConstrainIdempotent(a4Width: real, x: real, y: real)
    requires a4Width >= 0.0
    ensures var p := ConstrainToPageBounds(a4Width, x, y);
            ConstrainToPageBounds(a4Width, p.x, p.y) == p
  {
    var p := ConstrainToPageBounds(a4Width, x, y);
    ConstrainedIsWithin(a4Width, x, y);
    WithinIsFixed(a4Width, p.x, p.y);
  }

  /** In a gap the point moves to the nearer edge; both candidate edges bracket it. */
  lemma GapSnapsToNearerEdge(a4Width: real, x: real, y: real)
    requires a4Width >= 0.0
    requires y - PAGE_MARGIN >= 0.0 && YInPage(a4Width, y - PAGE_MARGIN) > A4Height(a4Width)
    ensures var k := PageIndex(a4Width, y - PAGE_MARGIN);
            var bottom, nextTop := PageBottom(a4Width, k), PageTop(a4Width, k + 1);
            var p := ConstrainToPageBounds(a4Width, x, y);
            && bottom < y < nextTop
            && (p.y == bottom || p.y == nextTop)
            && (p.y == bottom ==> y - bottom < nextTop - y)
            && (p.y == nextTop ==> nextTop - y <= y - bottom)
  {
    var rel := y - PAGE_MARGIN;
    var k := PageIndex(a4Width, rel);
    assert rel == k as real * PageSlot(a4Width) + YInPage(a4Width, rel);
    assert (k + 1) as real * PageSlot(a4Width) == k as real * PageSlot(a4Width) + PageSlot(a4Width);
  }
}
