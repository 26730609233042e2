/**
 * `ripe.Configurator` of ripe.js (the minified build has the same one): the 360° viewer that
 * shows one frame of the product at a time, changes frames on request and on drags, and
 * highlights parts through the masks. The frame engine itself is `FrameEngine.Element`;
 * the functions here say what each operation of the configurator does to the engine's state.
 *
 * The owner's product (the state `_getQuery` and the URL builders read) is a parameter of
 * every operation that builds a URL.
 */
module Configurator {
  import opened Wrappers
  import opened Js
  import opened Dicts
  import opened FrameKeys
  import opened Engine
  import Query
  import Drag
  import HitTest
  import FrameEngine

  /** The options `init` reads ("" and 0 are absent options). */
  datatype Options = Options(
    size: string, width: string, height: string, useChain: bool,
    useMasks: Option<bool>, noMasks: Option<bool>,
    sensitivity: real, verticalThreshold: real, view: string, position: nat)

  /** `useMasks`, which defaults to `!noMasks`, where `noMasks` defaults to true. */
  function UseMasks(useMasks: Option<bool>, noMasks: Option<bool>): (r: bool)
    ensures useMasks.Some? ==> r == useMasks.value
    ensures useMasks.None? ==> (r <==> noMasks == Some(false))
  {
    if useMasks.Some? then useMasks.value else noMasks.Some? && !noMasks.value
  }

  /** Masks are used only when asked for: `useMasks` is true, or unset while `noMasks` is false. */
  lemma UseMasksOn(useMasks: Option<bool>, noMasks: Option<bool>)
    ensures UseMasks(useMasks, noMasks) <==> useMasks == Some(true) || (useMasks.None? && noMasks == Some(false))
  {
  }

  /** `x || d` on a number option. */
  function OrReal(x: real, d: real): real
  {
    if x != 0.0 then x else d
  }

  /** The settings of the engine: width and height default to 1000. */
  function SettingsOf(o: Options): (s: Settings)
    ensures s.kind == ConfiguratorKind && s.size == o.size && s.useChain == o.useChain
    ensures s.width == Or(o.width, "1000") && s.height == Or(o.height, "1000")
    ensures NoDrag(s) == "no-drag" && DragLocks(s) == {"no-drag", "animating"} && NoDrag(s) in DragLocks(s)
  {
    Settings(ConfiguratorKind, o.size, Or(o.width, "1000"), Or(o.height, "1000"), o.useChain)
  }

  /** The signature of `update`: the product's query and the size it is drawn at. */
  function Signature(s: Settings, p: Query.Product): string
  {
    Query.Query(p, Query.NoOptions) + "&width=" + Or(s.size, s.width) + "&height=" + Or(s.size, s.height)
  }

  /** The "unique" key of a drawn frame: the signature, the view and the position. */
  function UniqueKey(signature: string, view: string, position: string): string
  {
    signature + "&view=" + view + "&position=" + position
  }

  /**
   * `update(state, options)`: nothing before the frames arrive. The frame shown is reloaded
   * unless its unique key is the one drawn last and the update is not forced, in which case
   * only the callback runs. A new signature animates the change ("simple" unless given) and,
   * like a missing "preload" class, starts a new preload.
   */
  function Updated(s: Settings, p: Query.Product, ready: bool, frames: Dict<nat>, c: Conf,
                   animate: string, force: bool, duration: real, cont: Cont): (r: Step)
    ensures r.c.view == c.view && r.c.position == c.position && r.c.lastFrame == c.lastFrame
    ensures r.c.slots.Keys == c.slots.Keys && r.c.masks.Keys == c.masks.Keys && c.emitted <= r.c.emitted
    ensures r.outcome.Thrown? ==> r.outcome.error == TypeError
  {
    if !ready then Step(c, Done)
    else
      var signature := Signature(s, p);
      var changed := signature != c.signature;
      var animation := if animate != "" then animate else if changed then "simple" else "";
      var unique := UniqueKey(signature, c.view, c.position);
      if c.unique == Some(unique) && !force then RunCont(s, p, c.(signature := signature), cont)
      else Reloaded(s, p, frames, c.(signature := signature, unique := Some(unique)), changed, animation, duration, cont)
  }

  /**
   * `lowlight()`: with masks in use the highlight classes leave the front mask and the
   * element (there is no front mask before the layout).
   */
  function Lowlighted(useMasks: bool, laidOut: bool, c: Conf): (r: Step)
  {
    if !useMasks then Step(c, Done)
    else if !laidOut then Step(c, Thrown(TypeError))
    else Step(c.(frontMask := c.frontMask.(highlight := false), classes := c.classes - {"highlight"}), Done)
  }

  /** The mask URL of a part at the frame shown. */
  function HighlightURL(p: Query.Product, view: string, position: string, part: Option<string>): string
  {
    var frame := GetFrameKey(view, position, "");
    Query.MaskURL(p, Query.NoOptions.(frame := FrameNameHack(frame)), if part.Some? then part.value else "")
  }

  /**
   * `highlight(part)` with masks in use: the element is marked as highlighting and, unless
   * the front mask already shows this part's mask, the mask is requested and its load will
   * trigger "highlighted_part" for the part.
   */
  function Highlighted(p: Query.Product, useMasks: bool, laidOut: bool, c: Conf, part: Option<string>): (r: Step)
  {
    if !useMasks then Step(c, Done)
    else
      var c1 := c.(classes := c.classes + {"highlight"});
      var url := HighlightURL(p, c.view, c.position, part);
      if !laidOut then Step(c1, Thrown(TypeError))
      else if c1.frontMask.src == url then Step(c1, Done)
      else Step(PointFrontMask(c1, url, part), Done)
  }

  /** `highlight(part)` as written, where the listeners of earlier highlights stay on the front mask. */
  function HighlightedAsWritten(p: Query.Product, useMasks: bool, laidOut: bool, c: Conf, part: Option<string>): (r: Step)
  {
    if !useMasks then Step(c, Done)
    else
      var c1 := c.(classes := c.classes + {"highlight"});
      var url := HighlightURL(p, c.view, c.position, part);
      if !laidOut then Step(c1, Thrown(TypeError))
      else if c1.frontMask.src == url then Step(c1, Done)
      else Step(PointFrontMaskAsWritten(c1, url, part), Done)
  }

  /** A number as `_lastFrame` keeps it: `NaN`, which reads back as 0, becomes "". */
  function PositionText(position: Option<nat>): string
  {
    if position.Some? then NatToString(position.value) else ""
  }

  /** The view and position a frame key asks for (`parseInt` of the position: `None` for `NaN`). */
  function Target(frame: string): (string, Option<nat>)
  {
    var parts := ParseFrameKey(frame, "");
    (parts[0], if |parts| > 1 then ParseInt(parts[1]) else None)
  }

  function Abs(x: int): nat
  {
    if x < 0 then -x else x
  }

  /**
   * `changeFrame(frame, options)` up to its update. A view without frames or a position
   * past its count is a `RangeError` before anything changes. Otherwise the highlight goes,
   * the position of the current view is recorded, and the element moves to the frame, with
   * a cross-fade when the view changes. With a duration it moves one frame forward instead
   * (the step is `+1` whatever the direction) and the callback schedules the next step until
   * the target is reached. The element is locked against drags while an animated change runs
   * and "changed_frame" is triggered.
   */
  function FrameMoved(s: Settings, useMasks: bool, laidOut: bool, frames: Dict<nat>, c: Conf,
                      frame: string, options: FrameOptions): (Step, Move)
  {
    var (nextView, nextPosition) := Target(frame);
    var position := ParseInt(c.position);
    var viewFrames := Get(frames, nextView);
    var none := Move("", 0.0, NoCont);
    if !laidOut then (Step(c, Thrown(TypeError)), none)
    else if viewFrames.None? || viewFrames.value == 0 || (nextPosition.Some? && nextPosition.value >= viewFrames.value) then
      (Step(c, Thrown(RangeError)), none)
    else if options.duration != 0.0
         && (nextPosition.None? || position.None? || (nextView == c.view && nextPosition.value == position.value)) then
      (Step(c, Thrown(Unsupported)), none)
    else
      var low := Lowlighted(useMasks, laidOut, c);
      if low.outcome.Thrown? then (low, none)
      else
        var cross := c.view != nextView;
        var c1 := low.c.(lastFrame := low.c.lastFrame[c.view := PositionText(position)],
                         view := nextView, position := PositionText(nextPosition));
        var c2 := if nextPosition.None? then c1.(position := "NaN") else c1;
        var animate := if cross then "cross" else "";
        if options.duration == 0.0 then Jumped(s, c2, frame, options, animate)
        else Stepped(s, c2, frame, options, cross, position.value, nextPosition.value, viewFrames.value, animate)
  }

  /** A change without a duration: locked against drags only when it cross-fades. */
  function Jumped(s: Settings, c: Conf, frame: string, options: FrameOptions, animate: string): (r: (Step, Move))
    ensures r.0.outcome == Done && r.0.c.view == c.view && r.0.c.position == c.position && r.0.c.lastFrame == c.lastFrame
    ensures r.0.c.emitted == c.emitted + [ChangedFrame(GetFrameKey(c.view, c.position, ""))] && r.1.duration == 0.0
  {
    var preventDrag := PreventDrag(options) && animate != "";
    var c3 := if preventDrag then c.(classes := c.classes + DragLocks(s)) else c;
    var c4 := c3.(emitted := c3.emitted + [ChangedFrame(GetFrameKey(c3.view, c3.position, ""))]);
    (Step(c4, Done), Move(animate, 0.0, StepCont(frame, options, false, preventDrag)))
  }

  /**
   * A change with a duration from `position` towards `target` out of `n` frames: one step
   * forward, a share of the duration, and the rest of it left for the next steps.
   */
  function Stepped(s: Settings, c: Conf, frame: string, options: FrameOptions, cross: bool,
                   position: nat, target: nat, n: nat, animate: string): (r: (Step, Move))
    requires n > 0 && (cross || target != position)
    ensures r.0.outcome == Done && r.0.c.view == c.view && r.0.c.position == NatToString((position + 1) % n)
    ensures r.0.c.lastFrame == c.lastFrame && r.1.cont.StepCont? && (r.1.cont.more <==> (position + 1) % n != target)
  {
    var stepCount := if cross then 1 else target - position;
    var stepDuration := options.duration / (Abs(stepCount) as real);
    var stepPosition := (position + 1) % n;
    var preventDrag := PreventDrag(options);
    var c3 := c.(position := NatToString(stepPosition));
    var c4 := if preventDrag then c3.(classes := c3.classes + DragLocks(s)) else c3;
    var c5 := c4.(emitted := c4.emitted + [ChangedFrame(GetFrameKey(c4.view, c4.position, ""))]);
    var next := options.(duration := options.duration - stepDuration);
    (Step(c5, Done), Move(Or(options.mode, animate), stepDuration, StepCont(frame, next, stepPosition != target, preventDrag)))
  }

  /** `changeFrame(frame, options)`: the move, then the update that draws it. */
  function FrameChanged(s: Settings, p: Query.Product, useMasks: bool, laidOut: bool, ready: bool,
                        frames: Dict<nat>, c: Conf, frame: string, options: FrameOptions): (r: Step)
  {
    var moved := FrameMoved(s, useMasks, laidOut, frames, c, frame, options);
    if moved.0.outcome.Thrown? then moved.0
    else Updated(s, p, ready, frames, moved.0.c, moved.1.animate, false, moved.1.duration, moved.1.cont)
  }

  /** A canvas is busy (and ignores the pointer) while the engine preloads or animates. */
  function Busy(c: Conf): bool
  {
    "preloading" in c.classes || "animating" in c.classes
  }

  /**
   * A click on a canvas: the part under the pointer is selected through the owner, whose
   * "selected_part" event comes back to the configurator's two handlers, each of which
   * highlights the part.
   */
  function Clicked(p: Query.Product, useMasks: bool, partsList: seq<string>, hidden: Option<seq<string>>,
                   c: Conf, index: nat): (r: Step)
  {
    match HitTest.Click(Busy(c), partsList, hidden, index)
    case Fail(e) => Step(c, Thrown(e))
    case Choose(part) =>
      var c1 := c.(emitted := c.emitted + [PartSelected(part)]);
      var once := Highlighted(p, useMasks, true, c1, part);
      if once.outcome.Thrown? then once else Highlighted(p, useMasks, true, once.c, part)
    case _ => Step(c, Done)
  }

  /** The pointer moving over a canvas: the part under it is highlighted, the background lowlights. */
  function Hovered(p: Query.Product, useMasks: bool, partsList: seq<string>, hidden: Option<seq<string>>,
                   down: bool, c: Conf, index: nat): (r: Step)
  {
    match HitTest.Hover(Busy(c), down, partsList, hidden, index)
    case Fail(e) => Step(c, Thrown(e))
    case Choose(part) => Highlighted(p, useMasks, true, c, part)
    case Lowlight => Lowlighted(useMasks, true, c)
    case Ignore => Step(c, Done)
  }

  /** `_initLayout` followed by the initial view and position. */
  function LaidOutAt(frames: Dict<nat>, c: Conf, view: string, position: nat): (r: Conf)
    ensures r.slots.Keys == r.masks.Keys == set k | k in AllFrameKeys(frames)
    ensures r.view == view && r.position == NatToString(position) && "configurator" in r.classes
    ensures Cleared(r) == r
  {
    LaidOut(frames, c).(view := view, position := NatToString(position))
  }

  /** A pending timer fires: a preload starts rendering, a mask is drawn, or `changeFrame` takes its next step. */
  function Fired(s: Settings, p: Query.Product, useMasks: bool, laidOut: bool, ready: bool, frames: Dict<nat>,
                 c: Conf, i: nat): (r: Step)
    requires i < |c.timers|
  {
    var c1 := TakeTimer(c, i);
    match c.timers[i]
    case RenderTimer(gen) => Render(s, p, c1, gen)
    case DrawMaskTimer(frame) => Step(DrawMask(c1, frame), Done)
    case StepTimer(frame, options) => FrameChanged(s, p, useMasks, laidOut, ready, frames, c1, frame, options)
  }

  // ---------------------------------------------------------------- properties

  /** Masks are off unless asked for: an absent `noMasks` counts as true. */
  lemma MasksOffByDefault()
    ensures !UseMasks(None, None) && !UseMasks(None, Some(true)) && UseMasks(None, Some(false))
  {
  }

  /**
   * `update` reloads nothing exactly when it is not forced and the frame shown has the key
   * drawn last: then it only runs the callback. Otherwise the new key is recorded.
   */
  lemma UpdateSkipsUnchanged(s: Settings, p: Query.Product, frames: Dict<nat>, c: Conf,
                             animate: string, force: bool, duration: real, cont: Cont)
    requires c.signature == Signature(s, p)
    ensures var key := UniqueKey(c.signature, c.view, c.position);
      var r := Updated(s, p, true, frames, c, animate, force, duration, cont);
      (c.unique == Some(key) && !force ==> r == RunCont(s, p, c, cont))
      && (!(c.unique == Some(key) && !force) && r.outcome.Done? ==> r.c.unique == Some(key))
  {
    var key := UniqueKey(c.signature, c.view, c.position);
    if !(c.unique == Some(key) && !force) {
      var c1 := c.(signature := Signature(s, p), unique := Some(key));
      var r := LoadFrame(s, p, c1, LoadKey(c.view, c.position, c1), true, animate, duration, cont);
      assert Keeps(c1, r.c);
    }
  }

  /**
   * A new signature (with the last key drawn under another one) always reloads the frame and
   * starts a new preload generation.
   */
  lemma NewSignaturePreloads(s: Settings, p: Query.Product, frames: Dict<nat>, c: Conf,
                             animate: string, force: bool, duration: real, cont: Cont)
    requires c.signature != Signature(s, p) && c.unique != Some(UniqueKey(Signature(s, p), c.view, c.position))
    ensures var r := Updated(s, p, true, frames, c, animate, force, duration, cont);
      r.outcome.Done? ==> (r.c.index == c.index + 1 && r.c.signature == Signature(s, p)
        && r.c.unique == Some(UniqueKey(Signature(s, p), c.view, c.position)))
  {
    var signature := Signature(s, p);
    var key := UniqueKey(signature, c.view, c.position);
    var c1 := c.(signature := signature, unique := Some(key));
    var animation := if animate != "" then animate else "simple";
    var r := LoadFrame(s, p, c1, LoadKey(c.view, c.position, c1), true, animation, duration, cont);
    assert Keeps(c1, r.c);
  }

  /**
   * `changeFrame` throws `RangeError` exactly when the target view has no frames or the
   * position is past its count, and then nothing has changed.
   */
  lemma ChangeFrameRange(s: Settings, p: Query.Product, useMasks: bool, ready: bool, frames: Dict<nat>,
                         c: Conf, frame: string, options: FrameOptions)
    ensures var (nextView, nextPosition) := Target(frame);
      var n := Get(frames, nextView);
      var r := FrameChanged(s, p, useMasks, true, ready, frames, c, frame, options);
      (r.outcome == Thrown(RangeError) <==> n.None? || n.value == 0 || (nextPosition.Some? && nextPosition.value >= n.value))
      && (r.outcome == Thrown(RangeError) ==> r.c == c)
  {
  }

  /** The update after a move keeps the frame the move set and what it emitted. */
  lemma UpdateKeepsMove(s: Settings, p: Query.Product, useMasks: bool, ready: bool, frames: Dict<nat>,
                        c: Conf, frame: string, options: FrameOptions)
    requires FrameMoved(s, useMasks, true, frames, c, frame, options).0.outcome.Done?
    ensures var m := FrameMoved(s, useMasks, true, frames, c, frame, options).0.c;
      var r := FrameChanged(s, p, useMasks, true, ready, frames, c, frame, options).c;
      r.view == m.view && r.position == m.position && r.lastFrame == m.lastFrame && m.emitted <= r.emitted
  {
    var moved := FrameMoved(s, useMasks, true, frames, c, frame, options);
    assert FrameChanged(s, p, useMasks, true, ready, frames, c, frame, options)
      == Updated(s, p, ready, frames, moved.0.c, moved.1.animate, false, moved.1.duration, moved.1.cont);
  }

  /** The move without a duration to a frame of a view that has it. */
  lemma MoveJumps(s: Settings, useMasks: bool, frames: Dict<nat>, c: Conf, view: string, position: nat, options: FrameOptions)
    requires '-' !in view && options.duration == 0.0
    requires Get(frames, view).Some? && position < Get(frames, view).value
    ensures var m := FrameMoved(s, useMasks, true, frames, c, FrameKey(view, position), options).0;
      m.outcome.Done? && m.c.view == view && m.c.position == NatToString(position)
      && m.c.lastFrame == c.lastFrame[c.view := PositionText(ParseInt(c.position))]
      && m.c.emitted == c.emitted + [ChangedFrame(FrameKey(view, position))]
  {
    FrameKeyRoundTrip(view, position);
    var frame := FrameKey(view, position);
    assert Target(frame) == (view, Some(position));
    var low := Lowlighted(useMasks, true, c);
    var c2 := low.c.(lastFrame := low.c.lastFrame[c.view := PositionText(ParseInt(c.position))],
                     view := view, position := NatToString(position));
    var animate := if c.view != view then "cross" else "";
    assert FrameMoved(s, useMasks, true, frames, c, frame, options) == Jumped(s, c2, frame, options, animate);
  }

  /**
   * A change without a duration moves the element to the requested frame, records the
   * position the old view showed, and triggers "changed_frame" for it before anything the
   * update emits.
   */
  lemma ChangeFrameJumps(s: Settings, p: Query.Product, useMasks: bool, ready: bool, frames: Dict<nat>,
                         c: Conf, view: string, position: nat, options: FrameOptions)
    requires '-' !in view && options.duration == 0.0
    requires Get(frames, view).Some? && position < Get(frames, view).value
    ensures var r := FrameChanged(s, p, useMasks, true, ready, frames, c, FrameKey(view, position), options);
      r.c.view == view && r.c.position == NatToString(position)
      && r.c.lastFrame == c.lastFrame[c.view := PositionText(ParseInt(c.position))]
      && |r.c.emitted| > |c.emitted| && r.c.emitted[|c.emitted|] == ChangedFrame(FrameKey(view, position))
  {
    var frame := FrameKey(view, position);
    MoveJumps(s, useMasks, frames, c, view, position, options);
    UpdateKeepsMove(s, p, useMasks, ready, frames, c, frame, options);
    var m := FrameMoved(s, useMasks, true, frames, c, frame, options).0.c;
    var r := FrameChanged(s, p, useMasks, true, ready, frames, c, frame, options).c;
    assert m.emitted[|c.emitted|] == ChangedFrame(frame);
    assert r.emitted[|c.emitted|] == m.emitted[|c.emitted|];
  }

  /** The move with a duration on the same view: one frame forward. */
  lemma MoveStepsForward(s: Settings, useMasks: bool, frames: Dict<nat>, c: Conf, position: nat, target: nat, options: FrameOptions)
    requires '-' !in c.view && options.duration != 0.0 && c.position == NatToString(position)
    requires Get(frames, c.view).Some? && target < Get(frames, c.view).value && target != position
    ensures var m := FrameMoved(s, useMasks, true, frames, c, FrameKey(c.view, target), options).0;
      m.outcome.Done? && m.c.view == c.view && m.c.position == NatToString((position + 1) % Get(frames, c.view).value)
  {
    FrameKeyRoundTrip(c.view, target);
    ParseIntNatToString(position);
    var frame := FrameKey(c.view, target);
    var n := Get(frames, c.view).value;
    assert Target(frame) == (c.view, Some(target));
    var low := Lowlighted(useMasks, true, c);
    var c2 := low.c.(lastFrame := low.c.lastFrame[c.view := NatToString(position)], position := NatToString(target));
    assert FrameMoved(s, useMasks, true, frames, c, frame, options) == Stepped(s, c2, frame, options, false, position, target, n, "");
  }

  /**
   * A change with a duration on the same view moves one frame forward from the current
   * position, wrapping at the view's count, whichever way the target lies.
   */
  lemma ChangeFrameStepsForward(s: Settings, p: Query.Product, useMasks: bool, ready: bool, frames: Dict<nat>,
                                c: Conf, position: nat, target: nat, options: FrameOptions)
    requires '-' !in c.view && options.duration != 0.0 && c.position == NatToString(position)
    requires Get(frames, c.view).Some? && target < Get(frames, c.view).value && target != position
    ensures var n := Get(frames, c.view).value;
      var r := FrameChanged(s, p, useMasks, true, ready, frames, c, FrameKey(c.view, target), options);
      r.c.view == c.view && r.c.position == NatToString((position + 1) % n)
  {
    MoveStepsForward(s, useMasks, frames, c, position, target, options);
    UpdateKeepsMove(s, p, useMasks, ready, frames, c, FrameKey(c.view, target), options);
  }

  /**
   * A drag that stays within the vertical threshold on a view with frames asks for a frame
   * of that view, which `changeFrame` accepts: a drag never throws `RangeError`.
   */
  lemma DragStaysInRange(s: Settings, p: Query.Product, useMasks: bool, ready: bool, frames: Dict<nat>,
                         threshold: real, c: Conf, base: nat, tilt: real, shift: real)
    requires '-' !in c.view && -threshold <= tilt <= threshold
    requires Get(frames, c.view).Some? && Get(frames, c.view).value > 0
    ensures var frame := Drag.DragFrame(frames, threshold, c.view, c.lastFrame, NatToString(base), tilt, shift);
      frame == FrameKey(c.view, Trunc(base as real - shift) % Get(frames, c.view).value)
      && FrameChanged(s, p, useMasks, true, ready, frames, c, frame, NoFrameOptions).outcome != Thrown(RangeError)
  {
    var n := Get(frames, c.view).value;
    Drag.SmallTiltKeepsView(frames, c.view, tilt, threshold);
    Drag.DragPositionInRange(frames, c.lastFrame, c.view, base, shift, n);
    var k := Trunc(base as real - shift) % n;
    FrameKeyRoundTrip(c.view, k);
    ChangeFrameRange(s, p, useMasks, ready, frames, c, FrameKey(c.view, k), NoFrameOptions);
  }

  /** A second highlight of the part just highlighted changes nothing. */
  lemma HighlightAgain(p: Query.Product, useMasks: bool, c: Conf, part: Option<string>)
    requires Highlighted(p, useMasks, true, c, part).outcome.Done?
    ensures var once := Highlighted(p, useMasks, true, c, part).c;
      Highlighted(p, useMasks, true, once, part) == Step(once, Done)
  {
  }

  /**
   * A click on a visible part when the canvases are idle selects it and highlights it once:
   * the front mask shows the part's mask.
   */
  lemma ClickHighlights(p: Query.Product, partsList: seq<string>, hidden: seq<string>, c: Conf, index: nat)
    requires !Busy(c) && 1 <= index <= |partsList| && partsList[index - 1] !in hidden
    ensures var part := Some(partsList[index - 1]);
      var r := Clicked(p, true, partsList, Some(hidden), c, index);
      r.outcome.Done? && r.c.emitted == c.emitted + [PartSelected(part)]
      && "highlight" in r.c.classes && r.c.frontMask.src == HighlightURL(p, c.view, c.position, part)
  {
    var part := Some(partsList[index - 1]);
    HitTest.ClickSelects(partsList, hidden, index, partsList[index - 1]);
    assert HitTest.Click(Busy(c), partsList, Some(hidden), index) == HitTest.Choose(part);
    var c1 := c.(emitted := c.emitted + [PartSelected(part)]);
    var once := Highlighted(p, true, true, c1, part);
    HighlightMarks(p, c1, part);
    HighlightAgain(p, true, c1, part);
    assert Clicked(p, true, partsList, Some(hidden), c, index) == Step(once.c, Done);
  }

  /** With masks in use and the layout built, `highlight` marks the element and shows the part's mask. */
  lemma HighlightMarks(p: Query.Product, c: Conf, part: Option<string>)
    ensures var r := Highlighted(p, true, true, c, part);
      r.outcome.Done? && r.c.emitted == c.emitted && r.c.view == c.view && r.c.position == c.position
      && "highlight" in r.c.classes && r.c.frontMask.src == HighlightURL(p, c.view, c.position, part)
  {
  }

  // ---------------------------------------------------------------- the configurator

  /**
   * A configurator bound to its element. The options fixed at `init` are constants; the
   * frames, the parts and the drag state arrive or change as the owner and the pointer act.
   * Before the layout the element has no canvases, and the pointer handlers are not
   * registered yet.
   */
  class Configurator {
    const useMasks: bool
    const sensitivity: real
    const verticalThreshold: real
    const view: string
    const position: nat
    const element: FrameEngine.Element
    var ready: bool
    var laidOut: bool
    var frames: Dict<nat>
    var partsList: seq<string>
    var hiddenParts: Option<seq<string>>
    var currentSize: Option<nat>
    var down: bool
    var base: string
    var referenceX: int
    var referenceY: int
    var mousePosX: int
    var mousePosY: int
    var percent: real

    /** `init`: the options with their defaults; the frames and the config are still to come. */
    constructor(o: Options)
      ensures element.settings == SettingsOf(o) && element.c == Initial && fresh(element)
      ensures useMasks == UseMasks(o.useMasks, o.noMasks)
      ensures sensitivity == OrReal(o.sensitivity, 40.0) && verticalThreshold == OrReal(o.verticalThreshold, 15.0)
      ensures view == Or(o.view, "side") && position == o.position
      ensures !ready && !laidOut && frames == [] && partsList == [] && hiddenParts.None?
      ensures currentSize.None? && !down
    {
      useMasks := UseMasks(o.useMasks, o.noMasks);
      sensitivity := OrReal(o.sensitivity, 40.0);
      verticalThreshold := OrReal(o.verticalThreshold, 15.0);
      view := Or(o.view, "side");
      position := o.position;
      element := new FrameEngine.Element(SettingsOf(o));
      ready := false;
      laidOut := false;
      frames := [];
      partsList := [];
      hiddenParts := None;
      currentSize := None;
      down := false;
      base := "";
      referenceX, referenceY, mousePosX, mousePosY := 0, 0, 0, 0;
      percent := 0.0;
    }

    /** `update(state, options)`, with the callback `cont`. */
    method Update(p: Query.Product, animate: string, force: bool, duration: real, cont: Cont) returns (outcome: Outcome)
      modifies element
      ensures Step(element.c, outcome) == Updated(element.settings, p, ready, frames, old(element.c), animate, force, duration, cont)
    {
      if !ready {
        return Done;
      }
      var signature := Signature(element.settings, p);
      var changed := signature != element.c.signature;
      var animation := if animate != "" then animate else if changed then "simple" else "";
      var unique := UniqueKey(signature, element.c.view, element.c.position);
      if element.c.unique == Some(unique) && !force {
        element.c := element.c.(signature := signature);
        outcome := element.RunCont(p, cont);
        return;
      }
      element.c := element.c.(signature := signature, unique := Some(unique));
      outcome := element.Reload(p, frames, changed, animation, duration, cont);
    }

    /** `lowlight()`. */
    method Lowlight() returns (outcome: Outcome)
      modifies element
      ensures Step(element.c, outcome) == Lowlighted(useMasks, laidOut, old(element.c))
    {
      if !useMasks {
        return Done;
      }
      if !laidOut {
        return Thrown(TypeError);
      }
      element.c := element.c.(frontMask := element.c.frontMask.(highlight := false), classes := element.c.classes - {"highlight"});
      outcome := Done;
    }

    /** `highlight(part)`. */
    method Highlight(p: Query.Product, part: Option<string>) returns (outcome: Outcome)
      modifies element
      ensures Step(element.c, outcome) == Highlighted(p, useMasks, laidOut, old(element.c), part)
    {
      if !useMasks {
        return Done;
      }
      element.c := element.c.(classes := element.c.classes + {"highlight"});
      var url := HighlightURL(p, element.c.view, element.c.position, part);
      if !laidOut {
        return Thrown(TypeError);
      }
      outcome := Done;
      if element.c.frontMask.src != url {
        element.c := PointFrontMask(element.c, url, part);
      }
    }

    /** `changeFrame(frame, options)` up to its update, which `move` describes. */
    method MoveFrame(frame: string, options: FrameOptions) returns (outcome: Outcome, move: Move)
      modifies element
      ensures (Step(element.c, outcome), move) == FrameMoved(element.settings, useMasks, laidOut, frames, old(element.c), frame, options)
    {
      move := Move("", 0.0, NoCont);
      ghost var c0 := element.c;
      var (nextView, nextPosition) := Target(frame);
      var current := element.c.view;
      var position := ParseInt(element.c.position);
      var viewFrames := Get(frames, nextView);
      if !laidOut {
        return Thrown(TypeError), move;
      }
      if viewFrames.None? || viewFrames.value == 0 || (nextPosition.Some? && nextPosition.value >= viewFrames.value) {
        return Thrown(RangeError), move;
      }
      if options.duration != 0.0
         && (nextPosition.None? || position.None? || (nextView == current && nextPosition.value == position.value)) {
        return Thrown(Unsupported), move;
      }
      outcome := Lowlight();
      if outcome.Thrown? {
        return;
      }
      ghost var low := element.c;
      var cross := current != nextView;
      element.c := element.c.(lastFrame := element.c.lastFrame[current := PositionText(position)], view := nextView,
                              position := if nextPosition.None? then "NaN" else PositionText(nextPosition));
      ghost var c2 := element.c;
      assert c2 == (var c1 := low.(lastFrame := low.lastFrame[c0.view := PositionText(position)],
                                  view := nextView, position := PositionText(nextPosition));
                    if nextPosition.None? then c1.(position := "NaN") else c1);
      var animate := if cross then "cross" else "";
      if options.duration == 0.0 {
        outcome, move := Jump(frame, options, animate);
      } else {
        outcome, move := StepTowards(frame, options, cross, position.value, nextPosition.value, viewFrames.value, animate);
      }
    }

    /** The change without a duration. */
    method Jump(frame: string, options: FrameOptions, animate: string) returns (outcome: Outcome, move: Move)
      modifies element
      ensures (Step(element.c, outcome), move) == Jumped(element.settings, old(element.c), frame, options, animate)
    {
      var preventDrag := PreventDrag(options) && animate != "";
      if preventDrag {
        element.c := element.c.(classes := element.c.classes + DragLocks(element.settings));
      }
      element.c := element.c.(emitted := element.c.emitted + [ChangedFrame(GetFrameKey(element.c.view, element.c.position, ""))]);
      outcome, move := Done, Move(animate, 0.0, StepCont(frame, options, false, preventDrag));
    }

    /** One step of a change with a duration. */
    method StepTowards(frame: string, options: FrameOptions, cross: bool, position: nat, target: nat, n: nat, animate: string)
      returns (outcome: Outcome, move: Move)
      requires n > 0 && (cross || target != position)
      modifies element
      ensures (Step(element.c, outcome), move) == Stepped(element.settings, old(element.c), frame, options, cross, position, target, n, animate)
    {
      var stepCount := if cross then 1 else target - position;
      var stepDuration := options.duration / (Abs(stepCount) as real);
      var stepPosition := (position + 1) % n;
      element.c := element.c.(position := NatToString(stepPosition));
      if PreventDrag(options) {
        element.c := element.c.(classes := element.c.classes + DragLocks(element.settings));
      }
      element.c := element.c.(emitted := element.c.emitted + [ChangedFrame(GetFrameKey(element.c.view, element.c.position, ""))]);
      var next := options.(duration := options.duration - stepDuration);
      outcome, move := Done, Move(Or(options.mode, animate), stepDuration, StepCont(frame, next, stepPosition != target, PreventDrag(options)));
    }

    /** `changeFrame(frame, options)`. */
    method ChangeFrame(p: Query.Product, frame: string, options: FrameOptions) returns (outcome: Outcome)
      modifies element
      ensures Step(element.c, outcome)
        == FrameChanged(element.settings, p, useMasks, laidOut, ready, frames, old(element.c), frame, options)
    {
      var move;
      outcome, move := MoveFrame(frame, options);
      if !outcome.Thrown? {
        outcome := Update(p, move.animate, false, move.duration, move.cont);
      }
    }

    /**
     * `resize(size)`: a size of 0 is the element's width. The same size as before changes
     * nothing; before the layout there are no canvases to size. Otherwise the canvases are
     * cleared and the frame is drawn again, forced.
     */
    method Resize(p: Query.Product, size: nat, clientWidth: nat) returns (outcome: Outcome)
      modifies this, element
      ensures ready == old(ready) && laidOut == old(laidOut) && frames == old(frames)
      ensures partsList == old(partsList) && hiddenParts == old(hiddenParts) && down == old(down)
      ensures var target := if size != 0 then size else clientWidth;
        if old(currentSize) == Some(target) then
          currentSize == old(currentSize) && element.c == old(element.c) && outcome == Done
        else if !laidOut then
          currentSize == old(currentSize) && element.c == old(element.c) && outcome == Thrown(TypeError)
        else
          currentSize == Some(target)
          && Step(element.c, outcome) == Updated(element.settings, p, ready, frames, Cleared(old(element.c)), "", true, 0.0, NoCont)
    {
      var target := if size != 0 then size else clientWidth;
      if currentSize == Some(target) {
        return Done;
      }
      if !laidOut {
        return Thrown(TypeError);
      }
      element.c := Cleared(element.c);
      currentSize := Some(target);
      outcome := Update(p, "", true, 0.0, NoCont);
    }

    /**
     * The frames arrive (the `getFrames` callback): the layout is built and sized to the
     * element, the initial frame is set, and the first update draws it.
     */
    method FramesLoaded(p: Query.Product, available: Dict<nat>, clientWidth: nat) returns (outcome: Outcome)
      modifies this, element
      requires !ready
      ensures frames == available && laidOut && ready && currentSize == Some(clientWidth)
      ensures partsList == old(partsList) && hiddenParts == old(hiddenParts) && down == old(down)
      ensures Step(element.c, outcome)
        == Updated(element.settings, p, true, available, LaidOutAt(available, old(element.c), view, position), "", false, 0.0, NoCont)
    {
      frames := available;
      element.c := LaidOutAt(frames, element.c, view, position);
      laidOut := true;
      ghost var shown := element.c;
      var resized := Resize(p, 0, clientWidth);
      assert element.c == shown;
      ready := true;
      outcome := Update(p, "", false, 0.0, NoCont);
    }

    /** The config arrives (the `getConfig` callback): the hidden parts and the sorted default parts. */
    method ConfigLoaded(defaults: seq<string>, hidden: Option<seq<string>>)
      modifies this
      ensures partsList == HitTest.SortStrings(defaults) && hiddenParts == hidden
      ensures ready == old(ready) && laidOut == old(laidOut) && frames == old(frames)
      ensures currentSize == old(currentSize) && down == old(down)
    {
      partsList := HitTest.SortStrings(defaults);
      hiddenParts := hidden;
    }

    /** "mousedown": a drag starts from the position shown, at the pointer. */
    method MouseDown(x: int, y: int)
      modifies this, element
      ensures laidOut ==> (down && base == Or(old(element.c).position, "0") && referenceX == x && referenceY == y
        && percent == 0.0 && element.c == old(element.c).(view := Or(old(element.c).view, "side"), classes := old(element.c).classes + {"drag"}))
      ensures !laidOut ==> down == old(down) && element.c == old(element.c)
      ensures frames == old(frames) && ready == old(ready) && laidOut == old(laidOut)
    {
      if !laidOut {
        return;
      }
      element.c := element.c.(view := Or(element.c.view, "side"));
      base := Or(element.c.position, "0");
      down := true;
      referenceX, referenceY := x, y;
      percent := 0.0;
      element.c := element.c.(classes := element.c.classes + {"drag"});
    }

    /** "mouseup" and "mouseleave": the drag ends. */
    method MouseUp()
      modifies this, element
      ensures laidOut ==> !down && percent == 0.0 && element.c == old(element.c).(classes := old(element.c).classes - {"drag"})
      ensures !laidOut ==> down == old(down) && element.c == old(element.c)
      ensures frames == old(frames) && ready == old(ready) && laidOut == old(laidOut)
    {
      if !laidOut {
        return;
      }
      down := false;
      percent := 0.0;
      element.c := element.c.(classes := element.c.classes - {"drag"});
    }

    /**
     * `_parseDrag`: the drag so far, as fractions of the element's `width` and `height`,
     * picks the frame to show. A vertical drag past the threshold starts the next vertical
     * measure at the pointer.
     */
    method ParseDrag(p: Query.Product, width: nat, height: nat) returns (outcome: Outcome)
      requires width > 0 && height > 0
      modifies this, element
      ensures var tilt := Drag.Scaled(sensitivity, old(referenceY) - old(mousePosY), height);
        var shift := Drag.Scaled(sensitivity, old(referenceX) - old(mousePosX), width);
        percent == Drag.Fraction(old(referenceX) - old(mousePosX), width)
        && referenceY == (if Drag.VerticalView(old(element.c).view, tilt, verticalThreshold).1 then mousePosY else old(referenceY))
        && Step(element.c, outcome) == FrameChanged(element.settings, p, useMasks, laidOut, ready, frames, old(element.c),
                                                   Drag.DragFrame(frames, verticalThreshold, old(element.c).view, old(element.c).lastFrame, base, tilt, shift), NoFrameOptions)
      ensures frames == old(frames) && ready == old(ready) && laidOut == old(laidOut) && down == old(down)
      ensures mousePosX == old(mousePosX) && mousePosY == old(mousePosY) && referenceX == old(referenceX) && base == old(base)
    {
      var tilt, shift := Measure(width, height);
      var frame := Drag.DragFrame(frames, verticalThreshold, element.c.view, element.c.lastFrame, base, tilt, shift);
      outcome := ChangeFrame(p, frame, NoFrameOptions);
    }

    /** The measuring half of `_parseDrag`: the drag as `tilt` and `shift`. */
    method Measure(width: nat, height: nat) returns (tilt: real, shift: real)
      requires width > 0 && height > 0
      modifies this
      ensures tilt == Drag.Scaled(sensitivity, old(referenceY) - old(mousePosY), height)
      ensures shift == Drag.Scaled(sensitivity, old(referenceX) - old(mousePosX), width)
      ensures percent == Drag.Fraction(old(referenceX) - old(mousePosX), width)
      ensures referenceY == (if Drag.VerticalView(element.c.view, tilt, verticalThreshold).1 then mousePosY else old(referenceY))
      ensures frames == old(frames) && ready == old(ready) && laidOut == old(laidOut) && down == old(down)
      ensures mousePosX == old(mousePosX) && mousePosY == old(mousePosY) && referenceX == old(referenceX) && base == old(base)
    {
      percent := Drag.Fraction(referenceX - mousePosX, width);
      tilt := Drag.Scaled(sensitivity, referenceY - mousePosY, height);
      shift := Drag.Scaled(sensitivity, referenceX - mousePosX, width);
      if Drag.VerticalView(element.c.view, tilt, verticalThreshold).1 {
        referenceY := mousePosY;
      }
    }

    /** "mousemove" on the element: the pointer is recorded and, during a drag, the frame follows it. */
    method MouseMove(p: Query.Product, x: int, y: int, width: nat, height: nat) returns (outcome: Outcome)
      requires width > 0 && height > 0
      modifies this, element
      ensures !laidOut || NoDrag(element.settings) in old(element.c).classes ==>
        element.c == old(element.c) && outcome == Done && mousePosX == old(mousePosX) && mousePosY == old(mousePosY)
      ensures laidOut && NoDrag(element.settings) !in old(element.c).classes ==> mousePosX == x && mousePosY == y
      ensures laidOut && NoDrag(element.settings) !in old(element.c).classes && !down ==> element.c == old(element.c) && outcome == Done
      ensures frames == old(frames) && ready == old(ready) && laidOut == old(laidOut) && down == old(down)
    {
      outcome := Done;
      if !laidOut || NoDrag(element.settings) in element.c.classes {
        return;
      }
      mousePosX, mousePosY := x, y;
      if down {
        outcome := ParseDrag(p, width, height);
      }
    }

    /** "click" on a canvas, with `index` the red value of the mask under the pointer. */
    method Click(p: Query.Product, index: nat) returns (outcome: Outcome)
      modifies element
      ensures laidOut ==> Step(element.c, outcome) == Clicked(p, useMasks, partsList, hiddenParts, old(element.c), index)
      ensures !laidOut ==> element.c == old(element.c) && outcome == Done
    {
      outcome := Done;
      if !laidOut {
        return;
      }
      match HitTest.Click(Busy(element.c), partsList, hiddenParts, index)
      case Fail(e) =>
        outcome := Thrown(e);
      case Choose(part) =>
        element.c := element.c.(emitted := element.c.emitted + [PartSelected(part)]);
        outcome := Highlight(p, part);
        if !outcome.Thrown? {
          outcome := Highlight(p, part);
        }
      case _ =>
    }

    /** "mousemove" on a canvas. */
    method Hover(p: Query.Product, index: nat) returns (outcome: Outcome)
      modifies element
      ensures laidOut ==> Step(element.c, outcome) == Hovered(p, useMasks, partsList, hiddenParts, down, old(element.c), index)
      ensures !laidOut ==> element.c == old(element.c) && outcome == Done
    {
      outcome := Done;
      if !laidOut {
        return;
      }
      match HitTest.Hover(Busy(element.c), down, partsList, hiddenParts, index)
      case Fail(e) =>
        outcome := Thrown(e);
      case Choose(part) =>
        outcome := Highlight(p, part);
      case Lowlight =>
        outcome := Lowlight();
      case Ignore =>
    }

    /** The pending timer `i` fires. */
    method TimerFired(p: Query.Product, i: nat) returns (outcome: Outcome)
      requires i < |element.c.timers|
      modifies element
      ensures Step(element.c, outcome) == Fired(element.settings, p, useMasks, laidOut, ready, frames, old(element.c), i)
    {
      var timer := element.c.timers[i];
      element.c := TakeTimer(element.c, i);
      match timer
      case RenderTimer(gen) =>
        outcome := element.Render(p, gen);
      case DrawMaskTimer(frame) =>
        element.c := DrawMask(element.c, frame);
        outcome := Done;
      case StepTimer(frame, options) =>
        outcome := ChangeFrame(p, frame, options);
    }
  }
}
