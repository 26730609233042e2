/**
 * The arithmetic of `_parseDrag`, shared by the configurator of ripe.js (and its minified
 * build) and by `ripe.Config`: a vertical drag past a threshold moves between the "top",
 * "side" and "bottom" views, a horizontal drag turns the product around its view.
 */
module Drag {
  import opened Wrappers
  import opened Js
  import opened Dicts
  import opened FrameKeys

  /**
   * The view a vertical drag asks for, and whether the drag crossed the threshold (the
   * handler then starts measuring the next vertical drag from the current pointer).
   * `tilt` is `sensitivity * percentY`.
   */
  function VerticalView(view: string, tilt: real, threshold: real): (string, bool)
  {
    if tilt > threshold then (if view == "top" then "side" else "bottom", true)
    else if tilt < -threshold then (if view == "bottom" then "side" else "top", true)
    else (view, false)
  }

  /** The view the drag shows: the requested one when the product has frames for it. */
  function DragView(frames: Dict<nat>, view: string, tilt: real, threshold: real): string
  {
    var next := VerticalView(view, tilt, threshold).0;
    if Has(frames, next) then next else view
  }

  /** `x % n` made non-negative by adding `n`, as the handler does. */
  function Wrap(a: int, n: nat): (r: nat)
    requires n > 0
    ensures r < n
  {
    var m := Rem(a, n);
    if m >= 0 then m else n + m
  }

  /** `this._lastFrame[view] || 0`: the position last shown in a view, "0" when there is none. */
  function Resume(lastFrame: map<string, string>, view: string): string
  {
    if view in lastFrame && lastFrame[view] != "" then lastFrame[view] else "0"
  }

  /**
   * The position part of the frame key the drag asks for. On the same view it is
   * `parseInt(base - shift) % viewFrames`, wrapped; `shift` is `sensitivity * percentX`. It is
   * "NaN" when the view has no frame count (or a zero one) or `base` is not a number. On a
   * new view it is the position last shown there.
   */
  function DragPosition(frames: Dict<nat>, lastFrame: map<string, string>, view: string, next: string,
                        base: string, shift: real): string
  {
    if view != next then Resume(lastFrame, next)
    else
      var n := Get(frames, next);
      var b := ToNumber(base);
      if n.None? || n.value == 0 || b.None? then "NaN"
      else NatToString(Wrap(Trunc(b.value as real - shift), n.value))
  }

  /**
   * The frame a drag asks for (`_parseDrag`): `tilt` and `shift` are the sensitivity times the
   * vertical and horizontal drag, each a fraction of the element's size. The view follows a
   * tilt past the threshold when the product has frames for it, the position the shift.
   */
  function DragFrame(frames: Dict<nat>, threshold: real, view: string, lastFrame: map<string, string>,
                    base: string, tilt: real, shift: real): string
  {
    var next := DragView(frames, view, tilt, threshold);
    GetFrameKey(next, DragPosition(frames, lastFrame, view, next, base, shift), "")
  }

  /** A pointer movement as a fraction of the element's size. */
  function Fraction(delta: int, size: nat): real
    requires size > 0
  {
    delta as real / size as real
  }

  /** The sensitivity times a pointer movement as a fraction of the element's size. */
  function Scaled(sensitivity: real, delta: int, size: nat): real
    requires size > 0
  {
    sensitivity * Fraction(delta, size)
  }

  /** The requested view is kept only when the product has frames for it. */
  lemma DragViewHasFrames(frames: Dict<nat>, view: string, tilt: real, threshold: real)
    ensures DragView(frames, view, tilt, threshold) == view || Has(frames, DragView(frames, view, tilt, threshold))
  {
  }

  /** A drag within the threshold never changes the view. */
  lemma SmallTiltKeepsView(frames: Dict<nat>, view: string, tilt: real, threshold: real)
    requires -threshold <= tilt <= threshold
    ensures DragView(frames, view, tilt, threshold) == view
    ensures !VerticalView(view, tilt, threshold).1
  {
  }

  /**
   * From the side view, a drag past the threshold one way followed by one past it the other
   * way comes back to the side view.
   */
  lemma VerticalRoundTrip(tilt: real, threshold: real)
    requires threshold >= 0.0 && (tilt > threshold || tilt < -threshold)
    ensures VerticalView(VerticalView("side", tilt, threshold).0, -tilt, threshold).0 == "side"
  {
  }

  /** The wrap is the mathematical remainder, so the position always lies in `[0, n)`. */
  lemma WrapIsMod(a: int, n: nat)
    requires n > 0
    ensures Wrap(a, n) == a % n
  {
    RemWrapIsEuclidean(a, n);
  }

  /**
   * On the same view with `n > 0` frames the drag lands on the frame `trunc(base - shift)`
   * taken modulo `n`: a key the view has.
   */
  lemma DragPositionInRange(frames: Dict<nat>, lastFrame: map<string, string>, view: string, base: nat, shift: real, n: nat)
    requires Get(frames, view) == Some(n) && n > 0
    ensures DragPosition(frames, lastFrame, view, view, NatToString(base), shift)
      == NatToString(Trunc(base as real - shift) % n)
    ensures 0 <= Trunc(base as real - shift) % n < n
  {
    ToNumberNatToString(base);
    WrapIsMod(Trunc(base as real - shift), n);
  }

  /** Without a positive frame count for the view the position is not a number. */
  lemma DragPositionWithoutFrames(frames: Dict<nat>, lastFrame: map<string, string>, view: string, base: string, shift: real)
    requires Get(frames, view).None? || Get(frames, view) == Some(0)
    ensures DragPosition(frames, lastFrame, view, view, base, shift) == "NaN"
  {
  }

  /** On a view change the drag resumes at the position last shown in that view, or 0. */
  lemma DragResumesView(frames: Dict<nat>, lastFrame: map<string, string>, view: string, next: string, base: string, shift: real)
    requires view != next
    ensures next in lastFrame && lastFrame[next] != "" ==>
      DragPosition(frames, lastFrame, view, next, base, shift) == lastFrame[next]
    ensures !(next in lastFrame && lastFrame[next] != "") ==>
      DragPosition(frames, lastFrame, view, next, base, shift) == "0"
  {
  }
}
