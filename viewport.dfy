/**
 * The viewport of the drawing engine: a screen point `s` (preview-canvas pixels) shows the
 * world point `s / viewScale + viewOffset`, per axis.
 */
module Viewport {
  import opened Common

  /** `getCanvasCoords`, one axis: screen offset inside the preview canvas to world. */
  function ScreenToWorld(s: real, scale: real, offset: real): real
    requires scale != 0.0
  {
    s / scale + offset
  }

  /** `worldToScreen`, one axis. */
  function WorldToScreen(w: real, scale: real, offset: real): real
  {
    (w - offset) * scale
  }

  lemma WorldScreenWorld(w: real, scale: real, offset: real)
    requires scale != 0.0
    ensures ScreenToWorld(WorldToScreen(w, scale, offset), scale, offset) == w
  {
    DivMul(w - offset, scale);
    assert (w - offset) * scale / scale == w - offset;
  }

  lemma ScreenWorldScreen(s: real, scale: real, offset: real)
    requires scale != 0.0
    ensures WorldToScreen(ScreenToWorld(s, scale, offset), scale, offset) == s
  {
    DivMul(s, scale);
  }

  /** The scale `setZoom` and the fit operations actually apply. */
  function ZoomScale(requested: real): (r: real)
    ensures MIN_ZOOM <= r <= MAX_ZOOM
    ensures MIN_ZOOM <= requested <= MAX_ZOOM ==> r == requested
    ensures requested < MIN_ZOOM ==> r == MIN_ZOOM
    ensures requested > MAX_ZOOM ==> r == MAX_ZOOM
  {
    Max(MIN_ZOOM, Min(MAX_ZOOM, requested))
  }

  /** `setZoom`, one axis: the offset after changing the scale from `oldScale` to `newScale`
      around the screen anchor. */
  function ZoomOffset(anchor: real, oldScale: real, newScale: real, offset: real): (r: real)
    requires oldScale != 0.0 && newScale != 0.0
    ensures ScreenToWorld(anchor, newScale, r) == ScreenToWorld(anchor, oldScale, offset)
  {
    var before := ScreenToWorld(anchor, oldScale, offset);
    var after := ScreenToWorld(anchor, newScale, offset);
    offset + (before - after)
  }

  /** The largest offset the pan clamps allow on one axis. */
  function MaxOffset(canvasDim: real, viewDim: real, scale: real): (m: real)
    requires scale != 0.0
    ensures m >= 0.0
  {
    Max(0.0, canvasDim - viewDim / scale)
  }

  /** `Math.max(0, Math.min(v, Math.max(0, canvas - view / scale)))`. */
  function ClampOffset(v: real, canvasDim: real, viewDim: real, scale: real): (r: real)
    requires scale != 0.0
    ensures 0.0 <= r <= MaxOffset(canvasDim, viewDim, scale)
    ensures 0.0 <= v <= MaxOffset(canvasDim, viewDim, scale) ==> r == v
    ensures v < 0.0 ==> r == 0.0
    ensures v > MaxOffset(canvasDim, viewDim, scale) ==> r == MaxOffset(canvasDim, viewDim, scale)
  {
    Max(0.0, Min(v, MaxOffset(canvasDim, viewDim, scale)))
  }

  const FIT_PADDING: real := 24.0

  /** Preview width left for the page once the padding is taken off both sides (at least 100). */
  function AvailableWidth(cssWidth: real, padding: real): (a: real)
    ensures a >= 100.0
    ensures a >= cssWidth - 2.0 * padding
  {
    Max(100.0, cssWidth - padding * 2.0)
  }

  /** The scale that makes the page width fill the available width, clamped to the zoom range;
      a zero page width makes the quotient +Infinity, so the scale is the maximum. */
  function FitScale(cssWidth: real, padding: real, a4Width: real): (r: real)
    requires a4Width >= 0.0
    ensures MIN_ZOOM <= r <= MAX_ZOOM
    ensures a4Width == 0.0 ==> r == MAX_ZOOM
    ensures a4Width > 0.0 && MIN_ZOOM * a4Width <= AvailableWidth(cssWidth, padding) <= MAX_ZOOM * a4Width
            ==> r * a4Width == AvailableWidth(cssWidth, padding)
  {
    var available := AvailableWidth(cssWidth, padding);
    if a4Width > 0.0 then
      var q := available / a4Width;
      DivMul(available, a4Width);
      WithinZoom(available, a4Width);
      ZoomScale(q)
    else MAX_ZOOM
  }

  lemma WithinZoom(available: real, a4Width: real)
    requires a4Width > 0.0
    ensures MIN_ZOOM * a4Width <= available <= MAX_ZOOM * a4Width ==> MIN_ZOOM <= available / a4Width <= MAX_ZOOM
  {
    if MIN_ZOOM * a4Width <= available <= MAX_ZOOM * a4Width {
      DivMul(available, a4Width);
      if available / a4Width < MIN_ZOOM {
        MulStrictMonotone(available / a4Width, MIN_ZOOM, a4Width);
      }
      if available / a4Width > MAX_ZOOM {
        MulStrictMonotone(MAX_ZOOM, available / a4Width, a4Width);
      }
    }
  }

  /** Screen centre in canvas pixels: half the displayed size times the pixel ratio. */
  function ScreenCenterPx(cssSize: real, canvasPx: real): (c: real)
    requires cssSize > 0.0
    ensures c == canvasPx / 2.0
  {
    DivMul(canvasPx, cssSize);
    (cssSize / 2.0) * (canvasPx / cssSize)
  }

  /** The offset that puts `worldCenter` under the screen point `screenCenter`. */
  function CenterOffset(worldCenter: real, screenCenter: real, scale: real): (r: real)
    requires scale != 0.0
    ensures ScreenToWorld(screenCenter, scale, r) == worldCenter
  {
    worldCenter - screenCenter / scale
  }
}
