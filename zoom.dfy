/** Camera zoom arithmetic of the scene: the mouse-wheel step and the pinch
    rescaling, both clamped with `Phaser.Math.Clamp` to the range [0.5, 2].
    Zoom values are exact reals here, not floating-point numbers. */
module Zoom {

  const MinZoom: real := 0.5
  const MaxZoom: real := 2.0
  const ZoomStep: real := 0.1

  function Min(a: real, b: real): real { if a <= b then a else b }
  function Max(a: real, b: real): real { if a >= b then a else b }

  /** `Phaser.Math.Clamp(v, lo, hi)`, which computes `Math.max(lo, Math.min(hi, v))`. */
  function Clamp(v: real, lo: real, hi: real): (r: real)
    ensures lo <= hi ==> lo <= r <= hi
    ensures lo <= v <= hi ==> r == v
    ensures v < lo ==> r == lo
    ensures lo <= hi && hi < v ==> r == hi
  {
    Max(lo, Min(hi, v))
  }

  /** The camera zoom after one wheel event: a step out for a positive `deltaY`,
      a step in otherwise. */
  function WheelZoom(zoom: real, deltaY: real): (r: real)
    ensures MinZoom <= r <= MaxZoom
  {
    Clamp(zoom + (if deltaY > 0.0 then -ZoomStep else ZoomStep), MinZoom, MaxZoom)
  }

  /** The camera zoom during a two-finger pinch: the zoom captured when the second
      finger went down, scaled by the current over the initial finger distance. */
  function PinchZoom(initialZoom: real, distanceRatio: real): (r: real)
    ensures MinZoom <= r <= MaxZoom
  {
    Clamp(initialZoom * distanceRatio, MinZoom, MaxZoom)
  }

  /** Scrolling down never zooms in and scrolling up never zooms out; away from the
      bounds each event moves the zoom by exactly one step. */
  lemma WheelZoomDirection(zoom: real, deltaY: real)
    requires MinZoom <= zoom <= MaxZoom
    ensures deltaY > 0.0 ==> WheelZoom(zoom, deltaY) <= zoom
    ensures deltaY <= 0.0 ==> WheelZoom(zoom, deltaY) >= zoom
    ensures deltaY > 0.0 && zoom - ZoomStep >= MinZoom ==> WheelZoom(zoom, deltaY) == zoom - ZoomStep
    ensures deltaY <= 0.0 && zoom + ZoomStep <= MaxZoom ==> WheelZoom(zoom, deltaY) == zoom + ZoomStep
  {
  }

  /** Once the zoom is at a bound, wheeling further that way keeps it there. */
  lemma WheelZoomSaturates(deltaY: real)
    ensures deltaY > 0.0 ==> WheelZoom(MinZoom, deltaY) == MinZoom
    ensures deltaY <= 0.0 ==> WheelZoom(MaxZoom, deltaY) == MaxZoom
  {
  }

  /** A step out followed by a step in restores the zoom when the first step was not clamped. */
  lemma WheelZoomUndo(zoom: real, down: real, up: real)
    requires MinZoom + ZoomStep <= zoom <= MaxZoom
    requires down > 0.0 && up <= 0.0
    ensures WheelZoom(WheelZoom(zoom, down), up) == zoom
  {
  }

  /** While the fingers keep their initial distance the pinch leaves the captured zoom alone. */
  lemma PinchZoomUnmoved(initialZoom: real)
    requires MinZoom <= initialZoom <= MaxZoom
    ensures PinchZoom(initialZoom, 1.0) == initialZoom
  {
  }

  /** Spreading the fingers further never zooms out. */
  lemma PinchZoomMonotone(initialZoom: real, a: real, b: real)
    requires 0.0 <= initialZoom && a <= b
    ensures PinchZoom(initialZoom, a) <= PinchZoom(initialZoom, b)
  {
    assert initialZoom * a <= initialZoom * b;
    ClampMonotone(initialZoom * a, initialZoom * b, MinZoom, MaxZoom);
  }

  lemma ClampMonotone(u: real, v: real, lo: real, hi: real)
    requires u <= v
    ensures Clamp(u, lo, hi) <= Clamp(v, lo, hi)
  {
  }
}
