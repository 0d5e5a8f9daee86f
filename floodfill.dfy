/**
 * The scanline core of `floodFillAt`: starting from a seed pixel, repaint the connected run of
 * pixels that have the seed's colour, row by row, confined to the columns and rows of one page,
 * and track the bounding box of what was painted. Past a pixel-count threshold the user is asked
 * once whether to go on; declining abandons the fill.
 *
 * Pixels are one `Rgba` per element of a row-major array of `w * h`; a flat index outside it
 * reads as "not visited" and "no match", as the typed arrays of the source do.
 */
module FloodFill {
  import opened Common
  import opened Colour

  datatype Cell = Cell(x: int, y: int)
  datatype Box = Box(minX: int, minY: int, maxX: int, maxY: int)
  datatype FillOutcome = Declined | Finished(box: Box)

  /** Flat pixel index of column `x`, row `y` (a column past the row end wraps into the next row). */
  function Index(x: int, y: int, w: int): int
  {
    y * w + x
  }

  /** `colorMatch`: an index inside the image whose pixel has the target colour. */
  predicate Matches(pix: seq<Rgba>, i: int, target: Rgba)
  {
    0 <= i < |pix| && pix[i] == target
  }

  /** `visited[i]` is truthy. */
  predicate Visited(vis: seq<bool>, i: int)
  {
    0 <= i < |vis| && vis[i]
  }

  /** The painted map (flat index to the column and row it was painted at) agrees with the
      visited flags; painted pixels had the target colour and now hold the fill, inside the
      page limits; every other pixel is untouched. */
  ghost predicate Painting(pix: seq<Rgba>, vis: seq<bool>, orig: seq<Rgba>, target: Rgba, fill: Rgba,
                           painted: map<int, Cell>, w: int, loX: int, right: int, top: int, bottom: int)
  {
    && |pix| == |orig| && |vis| == |orig|
    && (forall i :: 0 <= i < |vis| ==> (vis[i] <==> i in painted))
    && (forall i :: i in painted ==>
          && 0 <= i < |orig| && orig[i] == target && pix[i] == fill
          && Index(painted[i].x, painted[i].y, w) == i
          && loX <= painted[i].x <= right && top <= painted[i].y <= bottom)
    && (forall i :: 0 <= i < |orig| && i !in painted ==> pix[i] == orig[i])
  }

  /** The box starts as `(w, h, 0, 0)` and only grows: it contains every painted cell and each
      side is either still at its start value or touches a painted cell. */
  ghost predicate BoxCovers(box: Box, painted: map<int, Cell>, w: int, h: int)
  {
    && box.minX <= w && box.minY <= h && box.maxX >= 0 && box.maxY >= 0
    && (forall i :: i in painted ==>
          box.minX <= painted[i].x <= box.maxX && box.minY <= painted[i].y <= box.maxY)
    && (box.minX == w || exists i :: i in painted && painted[i].x == box.minX)
    && (box.minY == h || exists i :: i in painted && painted[i].y == box.minY)
    && (box.maxX == 0 || exists i :: i in painted && painted[i].x == box.maxX)
    && (box.maxY == 0 || exists i :: i in painted && painted[i].y == box.maxY)
  }

  /** The confirmation prompt: once asked (and answered yes) the count had reached the threshold;
      while not asked it has not, unless nothing was painted yet. */
  predicate AskState(asked: bool, changed: int, threshold: Option<int>, proceed: bool)
  {
    && (asked ==> proceed && threshold.Some? && changed >= threshold.value)
    && (!asked ==> threshold.None? || changed < threshold.value || changed == 0)
  }

  /** The four `expand bounds` updates. */
  function Grow(b: Box, x: int, y: int): (g: Box)
    ensures g.minX <= b.minX && g.minX <= x && (g.minX == b.minX || g.minX == x)
    ensures g.minY <= b.minY && g.minY <= y && (g.minY == b.minY || g.minY == y)
    ensures g.maxX >= b.maxX && g.maxX >= x && (g.maxX == b.maxX || g.maxX == x)
    ensures g.maxY >= b.maxY && g.maxY >= y && (g.maxY == b.maxY || g.maxY == y)
  {
    Box(if x < b.minX then x else b.minX, if y < b.minY then y else b.minY,
        if x > b.maxX then x else b.maxX, if y > b.maxY then y else b.maxY)
  }

  lemma GrowCovers(box: Box, painted: map<int, Cell>, w: int, h: int, i: int, c: Cell)
    requires BoxCovers(box, painted, w, h) && i !in painted
    ensures BoxCovers(Grow(box, c.x, c.y), painted[i := c], w, h)
  {
    var g := Grow(box, c.x, c.y);
    var p := painted[i := c];
    if g.minX != w && g.minX != c.x {
      var j :| j in painted && painted[j].x == box.minX;
      assert j in p && p[j].x == g.minX;
    }
    if g.minY != h && g.minY != c.y {
      var j :| j in painted && painted[j].y == box.minY;
      assert j in p && p[j].y == g.minY;
    }
    if g.maxX != 0 && g.maxX != c.x {
      var j :| j in painted && painted[j].x == box.maxX;
      assert j in p && p[j].x == g.maxX;
    }
    if g.maxY != 0 && g.maxY != c.y {
      var j :| j in painted && painted[j].y == box.maxY;
      assert j in p && p[j].y == g.maxY;
    }
    assert i in p && p[i] == c;
  }

  /** The final `minX > maxX || minY > maxY` test is exactly "nothing was painted". */
  lemma BoxEmptyIffNothingPainted(box: Box, painted: map<int, Cell>, w: int, h: int)
    requires w > 0 && BoxCovers(box, painted, w, h)
    ensures (box.minX > box.maxX || box.minY > box.maxY) <==> painted.Keys == {}
  {
    if exists i :: i in painted {
      var i :| i in painted;
      assert box.minX <= painted[i].x <= box.maxX;
    } else {
      assert painted.Keys == {};
    }
  }

  /** Painting one more pixel keeps the painting invariant. */
  lemma PaintStep(pix: seq<Rgba>, vis: seq<bool>, orig: seq<Rgba>, target: Rgba, fill: Rgba,
                  painted: map<int, Cell>, w: int, loX: int, right: int, top: int, bottom: int,
                  i: int, c: Cell)
    requires Painting(pix, vis, orig, target, fill, painted, w, loX, right, top, bottom)
    requires !Visited(vis, i) && Matches(pix, i, target) && Index(c.x, c.y, w) == i
    requires loX <= c.x <= right && top <= c.y <= bottom
    ensures i !in painted
    ensures Painting(pix[i := fill], vis[i := true], orig, target, fill, painted[i := c],
                     w, loX, right, top, bottom)
  {
  }

  /** The work list of a fill in progress: each entry is inside the tracked column and row
      limits, and is either visited or still has the target colour. */
  ghost predicate StackOk(stack: seq<Cell>, pix: seq<Rgba>, vis: seq<bool>, w: int, target: Rgba,
                          loX: int, hiX: int, top: int, bottom: int)
  {
    forall k :: 0 <= k < |stack| ==>
      && loX <= stack[k].x <= hiX && top <= stack[k].y <= bottom
      && (Visited(vis, Index(stack[k].x, stack[k].y, w)) || Matches(pix, Index(stack[k].x, stack[k].y, w), target))
  }

  lemma StackSurvivesPainting(stack: seq<Cell>, pix0: seq<Rgba>, vis0: seq<bool>,
                              pix1: seq<Rgba>, vis1: seq<bool>, orig: seq<Rgba>, target: Rgba, fill: Rgba,
                              painted0: map<int, Cell>, painted1: map<int, Cell>,
                              w: int, loX: int, hiX: int, right: int, top: int, bottom: int)
    requires Painting(pix0, vis0, orig, target, fill, painted0, w, loX, right, top, bottom)
    requires Painting(pix1, vis1, orig, target, fill, painted1, w, loX, right, top, bottom)
    requires painted0.Keys <= painted1.Keys
    requires StackOk(stack, pix0, vis0, w, target, loX, hiX, top, bottom)
    ensures StackOk(stack, pix1, vis1, w, target, loX, hiX, top, bottom)
  {
    forall k | 0 <= k < |stack|
      ensures Visited(vis1, Index(stack[k].x, stack[k].y, w)) || Matches(pix1, Index(stack[k].x, stack[k].y, w), target)
    {
      var j := Index(stack[k].x, stack[k].y, w);
      if Visited(vis0, j) {
        assert j in painted0;
      } else if j !in painted1 {
        assert j !in painted0;
      }
    }
  }

  // Termination: every pop either paints a pixel, or finds its pixel visited, or lies right
  // of the page (`x > right`) and pushes at most two entries per column to its left. The
  // measure is the set of unpainted indices, then the sum over the work list of
  // B^(columns right of the page), with B larger than twice the widest span.

  ghost function Unpainted(n: int, painted: map<int, Cell>): set<int>
  {
    set i | 0 <= i < n && i !in painted
  }

  lemma UnpaintedShrinks(n: int, painted0: map<int, Cell>, painted1: map<int, Cell>, i: int)
    requires painted0.Keys <= painted1.Keys && 0 <= i < n && i in painted1 && i !in painted0
    ensures Unpainted(n, painted1) < Unpainted(n, painted0)
  {
    assert i in Unpainted(n, painted0) && i !in Unpainted(n, painted1);
  }

  function Pow(b: nat, k: nat): (p: nat)
    ensures b >= 1 ==> p >= 1
  {
    if k == 0 then 1 else b * Pow(b, k - 1)
  }

  lemma {:induction false} PowMonotone(b: nat, k: nat, j: nat)
    requires b >= 1 && k <= j
    ensures Pow(b, k) <= Pow(b, j)
    decreases j
  {
    if k < j {
      PowMonotone(b, k, j - 1);
      NatMulMonotone(1, b, Pow(b, j - 1));
    }
  }

  lemma NatMulMonotone(x: nat, y: nat, c: nat)
    requires x <= y
    ensures x * c <= y * c
  {
  }

  ghost function Weight(c: Cell, right: int, b: nat): nat
  {
    Pow(b, if c.x > right then c.x - right else 0)
  }

  ghost function Potential(s: seq<Cell>, right: int, b: nat): nat
  {
    if |s| == 0 then 0 else Potential(s[..|s| - 1], right, b) + Weight(s[|s| - 1], right, b)
  }

  lemma {:induction false} PotentialAppend(s: seq<Cell>, t: seq<Cell>, right: int, b: nat, bound: nat)
    requires forall k :: 0 <= k < |t| ==> Weight(t[k], right, b) <= bound
    ensures Potential(s + t, right, b) <= Potential(s, right, b) + |t| * bound
  {
    if |t| == 0 {
      assert s + t == s;
    } else {
      var t' := t[..|t| - 1];
      assert (s + t)[..|s + t| - 1] == s + t';
      assert (s + t)[|s + t| - 1] == t[|t| - 1];
      PotentialAppend(s, t', right, b, bound);
      assert |t'| * bound + bound == |t| * bound;
    }
  }

  /** The pushes of a span left of an off-page pop weigh less than the pop itself. */
  lemma {:induction false} OffPageSpanLighter(s: seq<Cell>, t: seq<Cell>, p: Cell, right: int, d: nat)
    requires p.x > right && |t| <= 2 * d
    requires forall k :: 0 <= k < |t| ==> t[k].x < p.x
    ensures Potential(s + t, right, 2 * d + 1) < Potential(s, right, 2 * d + 1) + Weight(p, right, 2 * d + 1)
  {
    var b := 2 * d + 1;
    var e := p.x - right - 1;
    var bound := Pow(b, e);
    forall k | 0 <= k < |t|
      ensures Weight(t[k], right, b) <= bound
    {
      PowMonotone(b, if t[k].x > right then t[k].x - right else 0, e);
    }
    PotentialAppend(s, t, right, b, bound);
    assert Weight(p, right, b) == b * bound;
    FewerThanBase(|t|, d, bound);
  }

  lemma FewerThanBase(n: nat, d: nat, p: nat)
    requires n <= 2 * d && p >= 1
    ensures n * p < (2 * d + 1) * p
  {
    NatMulMonotone(n, 2 * d, p);
    assert (2 * d + 1) * p == 2 * d * p + p;
  }

  /** Move left from `x0` while the pixel is unvisited, matches and is not left of `left`;
      the result is the column after the last one passed. */
  method LeftWalk(pixels: array<Rgba>, visited: array<bool>, w: int, x0: int, y0: int,
                  left: int, target: Rgba) returns (xL: int)
    ensures (if x0 + 1 < left then x0 + 1 else left) <= xL <= x0 + 1
    ensures forall x :: xL <= x <= x0 ==>
              !Visited(visited[..], Index(x, y0, w)) && Matches(pixels[..], Index(x, y0, w), target)
    ensures xL - 1 >= left ==>
              Visited(visited[..], Index(xL - 1, y0, w)) || !Matches(pixels[..], Index(xL - 1, y0, w), target)
  {
    xL := x0;
    while xL >= left && !(0 <= Index(xL, y0, w) < visited.Length && visited[Index(xL, y0, w)])
          && 0 <= Index(xL, y0, w) < pixels.Length && pixels[Index(xL, y0, w)] == target
      invariant (if x0 < left - 1 then x0 else left - 1) <= xL <= x0
      invariant forall x :: xL < x <= x0 ==>
                  !Visited(visited[..], Index(x, y0, w)) && Matches(pixels[..], Index(x, y0, w), target)
      decreases xL - left
    {
      xL := xL - 1;
    }
    xL := xL + 1;
  }

  /** Paint rightwards from `x0` while the pixel is unvisited, matches and is not right of
      `right`, growing the box and asking for confirmation the first time the count reaches the
      threshold; `declined` reports that the user cancelled. */
  method PaintRun(pixels: array<Rgba>, visited: array<bool>, w: int, h: int, x0: int, y0: int, right: int,
                  target: Rgba, fill: Rgba, threshold: Option<int>, proceed: bool,
                  ghost orig: seq<Rgba>, ghost loX: int, ghost top: int, ghost bottom: int,
                  box0: Box, changed0: int, asked0: bool, ghost painted0: map<int, Cell>)
    returns (xR: int, declined: bool, box: Box, changed: int, asked: bool, ghost painted: map<int, Cell>)
    requires Painting(pixels[..], visited[..], orig, target, fill, painted0, w, loX, right, top, bottom)
    requires loX <= x0 && top <= y0 <= bottom
    requires BoxCovers(box0, painted0, w, h)
    requires changed0 == |painted0| && AskState(asked0, changed0, threshold, proceed)
    modifies pixels, visited
    ensures Painting(pixels[..], visited[..], orig, target, fill, painted, w, loX, right, top, bottom)
    ensures painted0.Keys <= painted.Keys
    ensures BoxCovers(box, painted, w, h)
    ensures changed == |painted|
    ensures !declined ==> AskState(asked, changed, threshold, proceed)
    ensures declined ==> threshold.Some? && !proceed && changed >= threshold.value && changed >= 1
    ensures x0 <= xR && (x0 <= right ==> xR <= right + 1)
    ensures x0 > right ==> xR == x0 && !declined && painted == painted0 && box == box0
                           && changed == changed0 && asked == asked0
    ensures x0 <= right && Index(x0, y0, w) !in painted0 && Matches(orig, Index(x0, y0, w), target)
            ==> Index(x0, y0, w) in painted
  {
    xR, declined, box, changed, asked, painted := x0, false, box0, changed0, asked0, painted0;
    while !declined && xR <= right && !(0 <= Index(xR, y0, w) < visited.Length && visited[Index(xR, y0, w)])
          && 0 <= Index(xR, y0, w) < pixels.Length && pixels[Index(xR, y0, w)] == target
      invariant Painting(pixels[..], visited[..], orig, target, fill, painted, w, loX, right, top, bottom)
      invariant painted0.Keys <= painted.Keys
      invariant BoxCovers(box, painted, w, h)
      invariant changed == |painted|
      invariant !declined ==> AskState(asked, changed, threshold, proceed)
      invariant declined ==> threshold.Some? && !proceed && changed >= threshold.value && changed >= 1
      invariant x0 <= xR && (x0 <= right ==> xR <= right + 1) && (x0 > right ==> xR == x0)
      invariant xR == x0 ==> !declined && painted == painted0 && box == box0 && changed == changed0 && asked == asked0
      invariant xR > x0 ==> Index(x0, y0, w) in painted
      decreases right - xR
    {
      var i := Index(xR, y0, w);
      var c := Cell(xR, y0);
      PaintStep(pixels[..], visited[..], orig, target, fill, painted, w, loX, right, top, bottom, i, c);
      GrowCovers(box, painted, w, h, i, c);
      CountUp(painted, i, c);
      Put(pixels, visited, i, fill);
      painted := painted[i := c];
      changed := changed + 1;
      box := Grow(box, xR, y0);
      xR := xR + 1;
      if !asked && threshold.Some? && changed >= threshold.value {
        if proceed {
          asked := true;
        } else {
          declined := true;
        }
      }
    }
  }

  /** Writes the fill colour and the visited mark of one pixel. */
  method Put(pixels: array<Rgba>, visited: array<bool>, i: int, fill: Rgba)
    requires 0 <= i < pixels.Length && 0 <= i < visited.Length
    modifies pixels, visited
    ensures pixels[..] == old(pixels[..])[i := fill] && visited[..] == old(visited[..])[i := true]
  {
    pixels[i] := fill;
    visited[i] := true;
  }

  lemma CountUp(painted: map<int, Cell>, i: int, c: Cell)
    requires i !in painted
    ensures |painted[i := c]| == |painted| + 1
  {
  }

  /** A cell the span scan pushes: in a column of `[xL, xR)`, on the row above (not above `top`)
      or below (not below `bottom`), unvisited and with the target colour. */
  predicate Pushable(pix: seq<Rgba>, vis: seq<bool>, w: int, c: Cell, xL: int, xR: int, y0: int,
                     top: int, bottom: int, target: Rgba)
  {
    && xL <= c.x < xR
    && ((c.y == y0 - 1 && c.y >= top) || (c.y == y0 + 1 && c.y <= bottom))
    && !Visited(vis, Index(c.x, c.y, w)) && Matches(pix, Index(c.x, c.y, w), target)
  }

  /** The pushes for one column `xi` of the span: the cell above, then the cell below. */
  method PushColumn(pixels: array<Rgba>, visited: array<bool>, w: int, xi: int, y0: int,
                    top: int, bottom: int, target: Rgba) returns (added: seq<Cell>)
    ensures |added| <= 2
    ensures forall k :: 0 <= k < |added| ==>
              Pushable(pixels[..], visited[..], w, added[k], xi, xi + 1, y0, top, bottom, target)
    ensures forall c: Cell :: Pushable(pixels[..], visited[..], w, c, xi, xi + 1, y0, top, bottom, target)
              ==> c in added
  {
    added := [];
    var above := y0 - 1;
    var below := y0 + 1;
    if above >= top {
      var ia := Index(xi, above, w);
      if !(0 <= ia < visited.Length && visited[ia]) && 0 <= ia < pixels.Length && pixels[ia] == target {
        added := added + [Cell(xi, above)];
      }
    }
    if below <= bottom {
      var ib := Index(xi, below, w);
      if !(0 <= ib < visited.Length && visited[ib]) && 0 <= ib < pixels.Length && pixels[ib] == target {
        added := added + [Cell(xi, below)];
      }
    }
  }

  /** The span scan: push every pushable cell above and below the run `[xL, xR)`, and nothing else. */
  method PushSpans(pixels: array<Rgba>, visited: array<bool>, w: int, xL: int, xR: int, y0: int,
                   top: int, bottom: int, target: Rgba, stack: seq<Cell>) returns (out: seq<Cell>)
    ensures |stack| <= |out| <= |stack| + 2 * (if xR > xL then xR - xL else 0)
    ensures out[..|stack|] == stack
    ensures forall k :: |stack| <= k < |out| ==>
              Pushable(pixels[..], visited[..], w, out[k], xL, xR, y0, top, bottom, target)
    ensures forall c: Cell :: Pushable(pixels[..], visited[..], w, c, xL, xR, y0, top, bottom, target)
              ==> c in out[|stack|..]
  {
    ghost var pix, vis := pixels[..], visited[..];
    out := stack;
    var xi := xL;
    while xi < xR
      invariant xi == xL || xL < xi <= xR
      invariant |stack| <= |out| <= |stack| + 2 * (xi - xL)
      invariant out[..|stack|] == stack
      invariant forall k :: |stack| <= k < |out| ==> Pushable(pix, vis, w, out[k], xL, xi, y0, top, bottom, target)
      invariant forall c: Cell :: Pushable(pix, vis, w, c, xL, xi, y0, top, bottom, target) ==> c in out[|stack|..]
    {
      ghost var out0 := out;
      var added := PushColumn(pixels, visited, w, xi, y0, top, bottom, target);
      out := out + added;
      assert out[|stack|..] == out0[|stack|..] + added;
      forall k | |stack| <= k < |out|
        ensures Pushable(pix, vis, w, out[k], xL, xi + 1, y0, top, bottom, target)
      {
        if k >= |out0| {
          assert out[k] == added[k - |out0|];
        }
      }
      forall c: Cell | Pushable(pix, vis, w, c, xL, xi + 1, y0, top, bottom, target)
        ensures c in out[|stack|..]
      {
        if c.x < xi {
          assert Pushable(pix, vis, w, c, xL, xi, y0, top, bottom, target);
        } else {
          assert Pushable(pix, vis, w, c, xi, xi + 1, y0, top, bottom, target);
        }
      }
      xi := xi + 1;
    }
  }

  /** The scanline loop of `floodFillAt` from seed `(px, py)` whose colour is `target`, painting
      `fill`, with the page's column limits `[left, right]` and row limits `[top, bottom]`.
      `threshold` is the painted-pixel count at which the user is asked to confirm (none: never
      asked) and `proceed` the answer given.

      Painted pixels had the target colour and now hold the fill; all others are unchanged;
      painted columns lie in `[min(px, left), right]` (the rightward run starts at the seed
      itself) and rows in `[top, bottom]`; a seed not right of the page is painted; on
      completion the box covers exactly what was painted. */
  method ScanlineFill(pixels: array<Rgba>, w: int, h: int, px: int, py: int,
                      left: int, right: int, top: int, bottom: int,
                      target: Rgba, fill: Rgba, threshold: Option<int>, proceed: bool)
    returns (outcome: FillOutcome, ghost painted: map<int, Cell>)
    requires w > 0 && h > 0 && pixels.Length == w * h
    requires 0 <= px < w && 0 <= py < h && left >= 0 && top <= py <= bottom
    requires 0 <= Index(px, py, w) < pixels.Length && pixels[Index(px, py, w)] == target
    modifies pixels
    ensures Repainted(old(pixels[..]), pixels[..], painted, target, fill)
    ensures PaintedWithin(painted, w, if px < left then px else left, right, top, bottom)
    ensures px <= right ==> Index(px, py, w) in painted
    ensures outcome.Declined? ==> threshold.Some? && !proceed && |painted| >= threshold.value && |painted| >= 1
    ensures outcome.Finished? ==> threshold.None? || proceed || |painted| < threshold.value || |painted| == 0
    ensures outcome.Finished? ==> BoxCovers(outcome.box, painted, w, h)
  {
    var s := Setup(w, h, px, py, left, right, top, bottom, target, fill, threshold, proceed);
    ghost var orig := pixels[..];
    var visited := new bool[w * h](_ => false);
    var stack := [Cell(px, py)];
    var box := Box(w, h, 0, 0);
    var changed := 0;
    var asked := false;
    painted := map[];
    InitialFill(s, orig, visited[..]);
    while |stack| > 0
      invariant visited.Length == w * h
      invariant FillInv(s, orig, pixels[..], visited[..], stack, box, changed, asked, painted)
      decreases Unpainted(|orig|, painted), Potential(stack, right, Base(s))
    {
      var declined;
      stack, declined, box, changed, asked, painted :=
        FillStep(pixels, visited, s, orig, stack, box, changed, asked, painted);
      if declined {
        outcome := Declined;
        FinalFacts(s, orig, pixels[..], visited[..], painted);
        return;
      }
    }
    outcome := Finished(box);
    FinalFacts(s, orig, pixels[..], visited[..], painted);
  }

  /** The fixed inputs of one fill. */
  datatype Setup = Setup(w: int, h: int, px: int, py: int, left: int, right: int, top: int, bottom: int,
                         target: Rgba, fill: Rgba, threshold: Option<int>, proceed: bool)

  /** The lowest and highest columns a work-list entry can have, and the base of the measure. */
  function LoX(s: Setup): int { if s.px < s.left then s.px else s.left }
  function HiX(s: Setup): int { if s.px > s.right then s.px else s.right }
  function Span(s: Setup): nat { if HiX(s) >= LoX(s) then HiX(s) - LoX(s) else 0 }
  function Base(s: Setup): nat { 2 * Span(s) + 1 }

  /** The loop invariant of the scanline fill. */
  ghost predicate FillInv(s: Setup, orig: seq<Rgba>, pix: seq<Rgba>, vis: seq<bool>, stack: seq<Cell>,
                          box: Box, changed: int, asked: bool, painted: map<int, Cell>)
  {
    && s.w > 0 && s.h > 0 && |orig| == s.w * s.h && s.left >= 0 && s.right <= HiX(s)
    && Matches(orig, Index(s.px, s.py, s.w), s.target)
    && Painting(pix, vis, orig, s.target, s.fill, painted, s.w, LoX(s), s.right, s.top, s.bottom)
    && BoxCovers(box, painted, s.w, s.h)
    && changed == |painted| && AskState(asked, changed, s.threshold, s.proceed)
    && StackOk(stack, pix, vis, s.w, s.target, LoX(s), HiX(s), s.top, s.bottom)
    && (s.px <= s.right ==>
          Index(s.px, s.py, s.w) in painted || (stack == [Cell(s.px, s.py)] && painted == map[]))
  }

  /** One iteration of the scanline loop: pop an entry; skip it if visited, otherwise fill its run. */
  method FillStep(pixels: array<Rgba>, visited: array<bool>, s: Setup, ghost orig: seq<Rgba>,
                  stack0: seq<Cell>, box0: Box, changed0: int, asked0: bool, ghost painted0: map<int, Cell>)
    returns (stack: seq<Cell>, declined: bool, box: Box, changed: int, asked: bool, ghost painted: map<int, Cell>)
    requires |stack0| > 0
    requires FillInv(s, orig, pixels[..], visited[..], stack0, box0, changed0, asked0, painted0)
    modifies pixels, visited
    ensures declined ==>
              && Painting(pixels[..], visited[..], orig, s.target, s.fill, painted, s.w, LoX(s), s.right, s.top, s.bottom)
              && (s.px <= s.right ==> Index(s.px, s.py, s.w) in painted)
              && s.threshold.Some? && !s.proceed && |painted| >= s.threshold.value && |painted| >= 1
    ensures !declined ==> FillInv(s, orig, pixels[..], visited[..], stack, box, changed, asked, painted)
    ensures !declined ==> Decreased(|orig|, painted0, painted, stack0, stack, s.right, Base(s))
  {
    var b := Base(s);
    PopOk(stack0, pixels[..], visited[..], s.w, s.target, LoX(s), HiX(s), s.top, s.bottom, s.right, b);
    var p := stack0[|stack0| - 1];
    stack := stack0[..|stack0| - 1];
    var i0 := Index(p.x, p.y, s.w);
    if 0 <= i0 < visited.Length && visited[i0] {
      declined, box, changed, asked, painted := false, box0, changed0, asked0, painted0;
      SkipDecreases(|orig|, painted0, stack0, stack, p, s.right, b);
      return;
    }
    var popped := stack;
    stack, declined, box, changed, asked, painted :=
      FillRun(pixels, visited, s.w, s.h, p, s.left, s.right, s.top, s.bottom, s.target, s.fill,
              s.threshold, s.proceed, orig, LoX(s), HiX(s), Span(s), b, popped, box0, changed0, asked0, painted0);
    SeedStaysPainted(s, stack0, p, painted0, painted, orig);
    if !declined {
      KeepInv(s, orig, pixels[..], visited[..], stack, box, changed, asked, painted);
      RunDecreases(|orig|, painted0, painted, stack0, popped, stack, p, s.right, b);
    }
  }

  /** The termination measure of the scanline loop went down: fewer unpainted pixels, or as many
      and a lighter work list. */
  ghost predicate Decreased(n: int, painted0: map<int, Cell>, painted: map<int, Cell>,
                            stack0: seq<Cell>, stack: seq<Cell>, right: int, b: nat)
  {
    || Unpainted(n, painted) < Unpainted(n, painted0)
    || (Unpainted(n, painted) == Unpainted(n, painted0) && Potential(stack, right, b) < Potential(stack0, right, b))
  }

  lemma SkipDecreases(n: int, painted: map<int, Cell>, stack0: seq<Cell>, stack: seq<Cell>, p: Cell, right: int, b: nat)
    requires b >= 1 && |stack0| > 0 && stack == stack0[..|stack0| - 1] && p == stack0[|stack0| - 1]
    ensures Decreased(n, painted, painted, stack0, stack, right, b)
  {
    assert Potential(stack0, right, b) == Potential(stack, right, b) + Weight(p, right, b);
  }

  lemma RunDecreases(n: int, painted0: map<int, Cell>, painted: map<int, Cell>, stack0: seq<Cell>,
                     popped: seq<Cell>, stack: seq<Cell>, p: Cell, right: int, b: nat)
    requires |stack0| > 0 && popped == stack0[..|stack0| - 1] && p == stack0[|stack0| - 1]
    requires || Unpainted(n, painted) < Unpainted(n, painted0)
             || (Unpainted(n, painted) == Unpainted(n, painted0)
                 && Potential(stack, right, b) < Potential(popped, right, b) + Weight(p, right, b))
    ensures Decreased(n, painted0, painted, stack0, stack, right, b)
  {
    assert Potential(stack0, right, b) == Potential(popped, right, b) + Weight(p, right, b);
  }

  /** The loop invariant reassembled from the facts a filled run leaves behind. */
  lemma KeepInv(s: Setup, orig: seq<Rgba>, pix: seq<Rgba>, vis: seq<bool>, stack: seq<Cell>,
                box: Box, changed: int, asked: bool, painted: map<int, Cell>)
    requires s.w > 0 && s.h > 0 && |orig| == s.w * s.h && s.left >= 0 && s.right <= HiX(s)
    requires Matches(orig, Index(s.px, s.py, s.w), s.target)
    requires Painting(pix, vis, orig, s.target, s.fill, painted, s.w, LoX(s), s.right, s.top, s.bottom)
    requires BoxCovers(box, painted, s.w, s.h)
    requires changed == |painted| && AskState(asked, changed, s.threshold, s.proceed)
    requires StackOk(stack, pix, vis, s.w, s.target, LoX(s), HiX(s), s.top, s.bottom)
    requires s.px <= s.right ==> Index(s.px, s.py, s.w) in painted
    ensures FillInv(s, orig, pix, vis, stack, box, changed, asked, painted)
  {
  }

  /** The seed entry is the first one popped, so once the first run is painted the seed is in it. */
  lemma SeedStaysPainted(s: Setup, stack0: seq<Cell>, p: Cell, painted0: map<int, Cell>,
                         painted: map<int, Cell>, orig: seq<Rgba>)
    requires |stack0| > 0 && p == stack0[|stack0| - 1] && painted0.Keys <= painted.Keys
    requires Matches(orig, Index(s.px, s.py, s.w), s.target)
    requires s.px <= s.right ==>
               Index(s.px, s.py, s.w) in painted0 || (stack0 == [Cell(s.px, s.py)] && painted0 == map[])
    requires p.x <= s.right && Index(p.x, p.y, s.w) !in painted0 && Matches(orig, Index(p.x, p.y, s.w), s.target)
             ==> Index(p.x, p.y, s.w) in painted
    ensures s.px <= s.right ==> Index(s.px, s.py, s.w) in painted
  {
  }

  /** One pop of the work list whose pixel is not yet visited: walk left, paint right, push the
      spans above and below. The work list invariant is kept, and the pop either paints a pixel
      or (off the page to the right) replaces its entry by lighter ones. */
  method FillRun(pixels: array<Rgba>, visited: array<bool>, w: int, h: int, p: Cell,
                 left: int, right: int, top: int, bottom: int,
                 target: Rgba, fill: Rgba, threshold: Option<int>, proceed: bool,
                 ghost orig: seq<Rgba>, ghost loX: int, ghost hiX: int, ghost d: nat, ghost b: nat,
                 stack0: seq<Cell>, box0: Box, changed0: int, asked0: bool, ghost painted0: map<int, Cell>)
    returns (stack: seq<Cell>, declined: bool, box: Box, changed: int, asked: bool, ghost painted: map<int, Cell>)
    requires Painting(pixels[..], visited[..], orig, target, fill, painted0, w, loX, right, top, bottom)
    requires BoxCovers(box0, painted0, w, h)
    requires changed0 == |painted0| && AskState(asked0, changed0, threshold, proceed)
    requires StackOk(stack0, pixels[..], visited[..], w, target, loX, hiX, top, bottom)
    requires loX <= p.x <= hiX && top <= p.y <= bottom
    requires !Visited(visited[..], Index(p.x, p.y, w)) && Matches(pixels[..], Index(p.x, p.y, w), target)
    requires d == hiX - loX && b == 2 * d + 1 && loX <= left && right <= hiX
    modifies pixels, visited
    ensures Painting(pixels[..], visited[..], orig, target, fill, painted, w, loX, right, top, bottom)
    ensures painted0.Keys <= painted.Keys
    ensures BoxCovers(box, painted, w, h)
    ensures changed == |painted|
    ensures declined ==> threshold.Some? && !proceed && changed >= threshold.value && changed >= 1
    ensures !declined ==> AskState(asked, changed, threshold, proceed)
    ensures !declined ==> StackOk(stack, pixels[..], visited[..], w, target, loX, hiX, top, bottom)
    ensures !declined ==>
              || Unpainted(|orig|, painted) < Unpainted(|orig|, painted0)
              || (Unpainted(|orig|, painted) == Unpainted(|orig|, painted0)
                  && Potential(stack, right, b) < Potential(stack0, right, b) + Weight(p, right, b))
    ensures p.x <= right && Index(p.x, p.y, w) !in painted0 && Matches(orig, Index(p.x, p.y, w), target)
            ==> Index(p.x, p.y, w) in painted
  {
    ghost var pix0, vis0 := pixels[..], visited[..];
    var xL := LeftWalk(pixels, visited, w, p.x, p.y, left, target);
    var xR;
    xR, declined, box, changed, asked, painted :=
      PaintRun(pixels, visited, w, h, p.x, p.y, right, target, fill, threshold, proceed,
               orig, loX, top, bottom, box0, changed0, asked0, painted0);
    StackSurvivesPainting(stack0, pix0, vis0, pixels[..], visited[..], orig, target, fill,
                          painted0, painted, w, loX, hiX, right, top, bottom);
    if declined {
      stack := stack0;
      return;
    }
    stack := PushSpans(pixels, visited, w, xL, xR, p.y, top, bottom, target, stack0);
    PrefixSplit(stack, stack0);
    PushedStayInLimits(stack, stack0, pixels[..], visited[..], w, target, loX, hiX, top, bottom, xL, xR, p.y);
    if p.x > right {
      OffPageSpanLighter(stack0, stack[|stack0|..], p, right, d);
    } else {
      var i0 := Index(p.x, p.y, w);
      UnpaintedShrinks(|orig|, painted0, painted, i0);
    }
  }

  lemma InitialFill(s: Setup, orig: seq<Rgba>, vis: seq<bool>)
    requires s.w > 0 && s.h > 0 && |orig| == s.w * s.h && |vis| == |orig|
    requires forall i :: 0 <= i < |vis| ==> !vis[i]
    requires 0 <= s.px < s.w && s.left >= 0 && s.top <= s.py <= s.bottom
    requires Matches(orig, Index(s.px, s.py, s.w), s.target)
    ensures FillInv(s, orig, orig, vis, [Cell(s.px, s.py)], Box(s.w, s.h, 0, 0), 0, false, map[])
  {
  }

  /** Pixels in `painted` went from the target colour to the fill; every other pixel is unchanged. */
  ghost predicate Repainted(before: seq<Rgba>, after: seq<Rgba>, painted: map<int, Cell>, target: Rgba, fill: Rgba)
  {
    && |after| == |before|
    && (forall i :: i in painted ==> 0 <= i < |before| && before[i] == target && after[i] == fill)
    && (forall i :: 0 <= i < |before| && i !in painted ==> after[i] == before[i])
  }

  /** Each painted index records the column and row it was painted at, inside the limits. */
  ghost predicate PaintedWithin(painted: map<int, Cell>, w: int, loX: int, right: int, top: int, bottom: int)
  {
    forall i :: i in painted ==>
      && Index(painted[i].x, painted[i].y, w) == i
      && loX <= painted[i].x <= right && top <= painted[i].y <= bottom
  }

  /** The loop invariant gives the pixel facts the fill promises. */
  lemma FinalFacts(s: Setup, orig: seq<Rgba>, pix: seq<Rgba>, vis: seq<bool>, painted: map<int, Cell>)
    requires Painting(pix, vis, orig, s.target, s.fill, painted, s.w, LoX(s), s.right, s.top, s.bottom)
    ensures Repainted(orig, pix, painted, s.target, s.fill)
    ensures PaintedWithin(painted, s.w, LoX(s), s.right, s.top, s.bottom)
  {
  }

  lemma PopOk(stack: seq<Cell>, pix: seq<Rgba>, vis: seq<bool>, w: int, target: Rgba,
              loX: int, hiX: int, top: int, bottom: int, right: int, b: nat)
    requires |stack| > 0 && StackOk(stack, pix, vis, w, target, loX, hiX, top, bottom)
    ensures var p := stack[|stack| - 1];
            && StackOk(stack[..|stack| - 1], pix, vis, w, target, loX, hiX, top, bottom)
            && loX <= p.x <= hiX && top <= p.y <= bottom
            && (Visited(vis, Index(p.x, p.y, w)) || Matches(pix, Index(p.x, p.y, w), target))
            && Potential(stack, right, b) == Potential(stack[..|stack| - 1], right, b) + Weight(p, right, b)
  {
  }

  lemma PrefixSplit(s: seq<Cell>, r: seq<Cell>)
    requires |r| <= |s| && s[..|r|] == r
    ensures s == r + s[|r|..]
  {
  }

  lemma PushedStayInLimits(stack: seq<Cell>, rest: seq<Cell>, pix: seq<Rgba>, vis: seq<bool>, w: int,
                           target: Rgba, loX: int, hiX: int, top: int, bottom: int,
                           xL: int, xR: int, y0: int)
    requires |rest| <= |stack| && stack[..|rest|] == rest
    requires StackOk(rest, pix, vis, w, target, loX, hiX, top, bottom)
    requires loX <= xL && xR - 1 <= hiX && top <= y0 <= bottom
    requires forall k :: |rest| <= k < |stack| ==> Pushable(pix, vis, w, stack[k], xL, xR, y0, top, bottom, target)
    ensures StackOk(stack, pix, vis, w, target, loX, hiX, top, bottom)
  {
    forall k | 0 <= k < |stack|
      ensures loX <= stack[k].x <= hiX && top <= stack[k].y <= bottom
      ensures Visited(vis, Index(stack[k].x, stack[k].y, w)) || Matches(pix, Index(stack[k].x, stack[k].y, w), target)
    {
      if k < |rest| {
        assert stack[k] == rest[k];
      }
    }
  }
}
