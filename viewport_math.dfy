/** Pan and zoom arithmetic of the PanSVG viewport: the offset clamp applied after
    every change, the smallest scale that still covers the viewport, and the
    cursor-anchored wheel zoom. All quantities are exact reals. */
module ViewportMath {

  /** Natural size of the background map image (the first image created). */
  const ContentWidth: real := 4000.0
  const ContentHeight: real := 2000.0

  /** Upper bound of the zoom factor. */
  const MaxScale: real := 5.0

  /** Scale change per unit of wheel deltaY. */
  const WheelSensitivity: real := 0.001

  datatype Point = Point(x: real, y: real)

  /** Math.min and Math.max on finite numbers. */
  function Min(a: real, b: real): real { if a <= b then a else b }
  function Max(a: real, b: real): real { if a >= b then a else b }

  /** Lowest offset allowed on one axis when the scaled content is `extent` long
      and the viewport `view` long: the content's far edge may not come inside the
      viewport, and when the content is shorter than the viewport it stays at 0. */
  function MinOffset(view: real, extent: real): (lo: real)
    ensures lo <= 0.0 && lo <= view - extent
    ensures lo == 0.0 || lo == view - extent
  {
    Min(0.0, view - extent)
  }

  /** The clamp of #updateTransform on one axis: the point of
      [MinOffset(view, extent), 0] nearest to `v`. */
  function ClampOffset(v: real, view: real, extent: real): (r: real)
    ensures MinOffset(view, extent) <= r <= 0.0
    ensures MinOffset(view, extent) <= v <= 0.0 ==> r == v
    ensures v < MinOffset(view, extent) ==> r == MinOffset(view, extent)
    ensures 0.0 < v ==> r == 0.0
  {
    Min(Max(v, MinOffset(view, extent)), 0.0)
  }

  /** Clamping is idempotent. */
  lemma ClampIdempotent(v: real, view: real, extent: real)
    ensures ClampOffset(ClampOffset(v, view, extent), view, extent) == ClampOffset(v, view, extent)
  {
  }

  /** The smallest scale at which the content covers the viewport on both axes:
      it covers both, and it is tight on the constraining axis. */
  function MinScale(viewW: real, viewH: real): (m: real)
    ensures ContentWidth * m >= viewW && ContentHeight * m >= viewH
    ensures ContentWidth * m == viewW || ContentHeight * m == viewH
  {
    Max(viewW / ContentWidth, viewH / ContentHeight)
  }

  /** No smaller scale covers the viewport. */
  lemma MinScaleLeast(viewW: real, viewH: real, s: real)
    requires ContentWidth * s >= viewW && ContentHeight * s >= viewH
    ensures s >= MinScale(viewW, viewH)
  {
  }

  /** Multiplier applied to the scale by one wheel event: scrolling up
      (negative deltaY) zooms in, scrolling down zooms out, 0.1% per unit. */
  function WheelFactor(deltaY: real): (f: real)
    ensures deltaY < 0.0 ==> f > 1.0
    ensures deltaY > 0.0 ==> f < 1.0
    ensures deltaY == 0.0 ==> f == 1.0
    ensures deltaY == -100.0 ==> f == 1.1
  {
    1.0 - deltaY * WheelSensitivity
  }

  /** The scale committed by one wheel event: the raw product bounded to
      [MinScale, MaxScale], where the upper bound wins when the two cross. */
  function ZoomScale(scale: real, deltaY: real, viewW: real, viewH: real): (r: real)
    requires viewW > 0.0 || viewH > 0.0
    ensures 0.0 < r <= MaxScale
    ensures MinScale(viewW, viewH) <= MaxScale ==> MinScale(viewW, viewH) <= r
    ensures MinScale(viewW, viewH) > MaxScale ==> r == MaxScale
    ensures MinScale(viewW, viewH) <= scale * WheelFactor(deltaY) <= MaxScale ==> r == scale * WheelFactor(deltaY)
    ensures scale * WheelFactor(deltaY) < MinScale(viewW, viewH) <= MaxScale ==> r == MinScale(viewW, viewH)
    ensures MaxScale < scale * WheelFactor(deltaY) ==> r == MaxScale
  {
    Min(Max(scale * WheelFactor(deltaY), MinScale(viewW, viewH)), MaxScale)
  }

  /** The offset on one axis after a zoom from `scale` to `newScale` anchored at
      `cursor`, before the clamp. The content coordinate under the cursor,
      (cursor - offset) / scale, is the same before and after. */
  function ZoomOffset(offset: real, cursor: real, scale: real, newScale: real): (r: real)
    requires scale > 0.0 && newScale > 0.0
    ensures (cursor - r) / newScale == (cursor - offset) / scale
  {
    var d := cursor - offset;
    var r := offset - d * (newScale / scale - 1.0);
    assert cursor - r == d * (newScale / scale);
    assert d * (newScale / scale) / newScale == d / scale;
    r
  }

  /** Once the scale is at least MinScale, a clamped offset keeps the content
      covering the viewport. */
  lemma ClampCoversView(vx: real, vy: real, viewW: real, viewH: real, s: real)
    requires s >= MinScale(viewW, viewH)
    ensures ClampOffset(vx, viewW, ContentWidth * s) + ContentWidth * s >= viewW
    ensures ClampOffset(vy, viewH, ContentHeight * s) + ContentHeight * s >= viewH
  {
  }

  /** A worked wheel event: 800x600 viewport, scale 0.3 at offset (0, 0),
      deltaY -100 at cursor (400, 300). */
  lemma WheelExample()
    ensures MinScale(800.0, 600.0) == 0.3
    ensures ZoomScale(0.3, -100.0, 800.0, 600.0) == 0.33
    ensures ZoomOffset(0.0, 400.0, 0.3, 0.33) == -40.0
    ensures ZoomOffset(0.0, 300.0, 0.3, 0.33) == -30.0
    ensures ClampOffset(-40.0, 800.0, ContentWidth * 0.33) == -40.0
    ensures ClampOffset(-30.0, 600.0, ContentHeight * 0.33) == -30.0
  {
  }
}
