/** Shared value types and the application-wide constants of the notes app. */
module Common {

  datatype Option<+T> = None | Some(value: T)

  /** Application-wide configuration (the global NotesApp settings object). */
  const MIN_ZOOM: real := 0.25
  const MAX_ZOOM: real := 3.0
  const ZOOM_STEP: real := 0.1
  const HISTORY_LIMIT: nat := 100
  const AUTO_ADD_COOLDOWN: real := 400.0

  function Min(a: real, b: real): real { if a <= b then a else b }
  function Max(a: real, b: real): real { if a >= b then a else b }

  /** `Math.max(lo, Math.min(hi, v))`. */
  function Clamp(v: real, lo: real, hi: real): (r: real)
    requires lo <= hi
    ensures lo <= r <= hi
    ensures lo <= v <= hi ==> r == v
    ensures v < lo ==> r == lo
    ensures v > hi ==> r == hi
  {
    Max(lo, Min(hi, v))
  }

  /** JavaScript's `n || d` for a number whose falsy value is 0. */
  function OrReal(n: real, d: real): real { if n == 0.0 then d else n }
  function OrInt(n: int, d: int): int { if n == 0 then d else n }

  /** JavaScript's `a % b` for a non-negative dividend and a positive divisor. */
  function RemNonNeg(a: real, b: real): (r: real)
    requires a >= 0.0 && b > 0.0
    ensures 0.0 <= r < b
    ensures a == (a / b).Floor as real * b + r
  {
    var q := (a / b).Floor;
    QuotientBounds(a, b, q as real);
    a - q as real * b
  }

  lemma QuotientBounds(a: real, b: real, q: real)
    requires b > 0.0 && q <= a / b < q + 1.0
    ensures q * b <= a < q * b + b
  {
    QuotientLower(a, b, q);
    QuotientUpper(a, b, q);
  }

  lemma QuotientLower(a: real, b: real, q: real)
    requires b > 0.0 && q <= a / b
    ensures q * b <= a
  {
    DivMul(a, b);
    MulMonotone(q, a / b, b);
  }

  lemma QuotientUpper(a: real, b: real, q: real)
    requires b > 0.0 && a / b < q + 1.0
    ensures a < q * b + b
  {
    DivMul(a, b);
    MulStrictMonotone(a / b, q + 1.0, b);
    Distribute(q, 1.0, b);
  }

  lemma DivMul(a: real, b: real)
    requires b != 0.0
    ensures (a / b) * b == a
  {
  }

  lemma MulMonotone(x: real, y: real, b: real)
    requires x <= y && b > 0.0
    ensures x * b <= y * b
  {
    assert (y - x) * b >= 0.0;
  }

  lemma MulStrictMonotone(x: real, y: real, b: real)
    requires x < y && b > 0.0
    ensures x * b < y * b
  {
    assert (y - x) * b > 0.0;
  }

  lemma Distribute(x: real, y: real, b: real)
    ensures (x + y) * b == x * b + y * b
  {
  }

  /** `Math.round`: halves round towards +Infinity. */
  function Round(x: real): (r: int)
    ensures x - 0.5 < r as real <= x + 0.5
  {
    (x + 0.5).Floor
  }

  /** `Math.ceil`. */
  function Ceil(x: real): (r: int)
    ensures x <= r as real < x + 1.0
  {
    -((-x).Floor)
  }

  /** The size a canvas has when its `width` or `height` is not a valid non-negative value. */
  const CANVAS_DEFAULT_WIDTH: nat := 300
  const CANVAS_DEFAULT_HEIGHT: nat := 150

  /** Assigning a number to a canvas `width`/`height`, a reflected `unsigned long`: WebIDL's
      ToUint32 truncates towards zero and wraps modulo 2^32, then the reflection replaces a
      value above 2147483647 with the attribute's default `fallback`. */
  function ToCanvasDim(r: real, fallback: nat): (d: nat)
    requires fallback < 0x8000_0000
    ensures d < 0x8000_0000
    ensures 0.0 <= r < 2147483648.0 ==> d == r.Floor
    ensures 2147483648.0 <= r < 4294967296.0 ==> d == fallback
    ensures -2147483648.0 <= r <= -1.0 ==> d == fallback
  {
    var t := if r >= 0.0 then r.Floor else -((-r).Floor);
    var w := t % 0x1_0000_0000;
    if w < 0x8000_0000 then w else fallback
  }
}
