/**
 * `ripe.Config` of config.part.js: the older viewer whose state lives in the element's
 * dataset. It shares the frame engine (`Engine`, run with `ConfigKind` settings) with the
 * configurator of ripe.js, and differs from it in `update` (the unique key carries the drawn
 * size), in `changeFrame` (no range check, an animation by steps held at the target) and in
 * `_parseDrag` (a fixed vertical threshold, the "move" class).
 *
 * "" stands for an unset `dataset` entry, as in `Engine`; `Shown` is what `String` makes of
 * such an entry.
 */
module ConfigPart {
  import opened Wrappers
  import opened Js
  import opened Dicts
  import opened FrameKeys
  import opened Engine
  import Query
  import Drag
  import HitTest
  import FrameEngine

  /** The vertical drag that switches views. */
  const Threshold := 15.0

  /** The engine's settings: plain image URLs, no size options. */
  function ConfigSettings(useChain: bool): (s: Settings)
    ensures s.kind == ConfigKind && s.useChain == useChain
    ensures NoDrag(s) == "noDrag" && DragLocks(s) == {"noDrag"}
  {
    Settings(ConfigKind, "", "", "", useChain)
  }

  /** `String(x)` of a dataset entry: an unset one reads "undefined". */
  function Shown(x: string): string
  {
    if x == "" then "undefined" else x
  }

  /** The value `update` reads for the size: the attribute's text, "null" when it is absent. */
  function SizeRead(attribute: string): string
  {
    if attribute == "" then "null" else attribute
  }

  /** `size || clientWidth || options.size`, as `resize` stores it in the dataset. */
  function SizeText(size: nat, clientWidth: nat, optionSize: string): (r: string)
    ensures r != ""
  {
    if size != 0 then NatToString(size) else if clientWidth != 0 then NatToString(clientWidth) else Shown(optionSize)
  }

  /**
   * `this._lastFrame[view] = position`: the position shown is saved under its view, an unset
   * view under the key "undefined".
   */
  function Saved(c: Conf): map<string, string>
  {
    c.lastFrame[Shown(c.view) := c.position]
  }

  /**
   * Whether `changeFrame` crossfades to `nextView`: an unset view differs from every view
   * (`undefined !== nextView`), and the target view must have frames.
   */
  function Crosses(view: string, nextView: string, frames: Dict<nat>): bool
  {
    (view == "" || view != nextView) && Has(frames, nextView)
  }

  /** The "unique" key of a drawn frame: the query, the view, the position and the size. */
  function UniqueKey(signature: string, view: string, position: string, size: string): string
  {
    signature + "&view=" + Shown(view) + "&position=" + Shown(position) + "&size=" + size
  }

  /**
   * `update(state, options)` with `size` the size text it reads: nothing before the frames
   * arrive; when the unique key is the one drawn last only the callback runs; otherwise the
   * key is recorded, the frame shown is loaded and drawn ("simple" on a new signature unless
   * an animation is given), and a new signature or a missing "preload" class starts a preload.
   */
  function Updated(s: Settings, p: Query.Product, ready: bool, frames: Dict<nat>, c: Conf,
                   size: string, animate: string, cont: Cont): (r: Step)
    ensures r.c.view == c.view && r.c.position == c.position && r.c.lastFrame == c.lastFrame
    ensures r.c.slots.Keys == c.slots.Keys && c.emitted <= r.c.emitted
    ensures r.outcome.Thrown? ==> r.outcome.error == TypeError
  {
    if !ready then Step(c, Done)
    else
      var signature := Query.Query(p, Query.NoOptions);
      var changed := signature != c.signature;
      var animation := if animate != "" then animate else if changed then "simple" else "";
      var unique := UniqueKey(signature, c.view, c.position, size);
      if c.unique == Some(unique) then RunCont(s, p, c.(signature := signature), cont)
      else Reloaded(s, p, frames, c.(signature := signature, unique := Some(unique)), changed, animation, 0.0, cont)
  }

  /**
   * `update` as written: the size is read from the attribute "data-current-size", while
   * `resize` writes `dataset.current_size`, which is the attribute "data-current_size". The
   * attribute read never exists, so every key ends in "&size=null".
   */
  function UpdatedAsWritten(s: Settings, p: Query.Product, ready: bool, frames: Dict<nat>, c: Conf,
                            animate: string, cont: Cont): (r: Step)
    ensures r == Updated(s, p, ready, frames, c, "null", animate, cont)
  {
    Updated(s, p, ready, frames, c, SizeRead(""), animate, cont)
  }

  /** `parseFrameKey(frame)`: the view and, when the key has a dash, the position. */
  function Target(frame: string): (string, Option<string>)
  {
    var parts := ParseFrameKey(frame, "");
    (parts[0], if |parts| > 1 then Some(parts[1]) else None)
  }

  /**
   * One step from `position` on a view of `n` frames: the position moved by `step` and
   * wrapped into the view, held at the target `t` when it lies beyond it in the step's
   * direction. The second component says whether it was held.
   */
  function NextStep(position: int, step: int, n: nat, t: Option<nat>): (r: (nat, bool))
    requires n > 0
    ensures r.0 < n || (t.Some? && r.0 == t.value)
    ensures r.1 ==> t.Some? && r.0 == t.value
  {
    var k := Drag.Wrap(position + step, n);
    if t.Some? && ((step > 0 && k > t.value) || (step < 0 && k < t.value)) then (t.value, true)
    else (k, false)
  }

  /**
   * The stepped position of `changeFrame` as the dataset stores it, and whether it reached
   * the target (`stepPosition == nextPosition`). Without frames for the view, or from a
   * position that is not a number, the step is NaN and never arrives.
   */
  function StepPosition(position: string, step: int, viewFrames: Option<nat>, next: Option<string>): (string, bool)
  {
    var current := ParseInt(position);
    var target := if next.Some? then ToNumber(next.value) else None;
    if viewFrames.None? || viewFrames.value == 0 || current.None? then ("NaN", false)
    else
      var (k, held) := NextStep(current.value, step, viewFrames.value, target);
      if held then (next.value, true) else (NatToString(k), target == Some(k))
  }

  /**
   * The part of `changeFrame` before `update`: the position shown is saved for its view;
   * the view changes, with a crossfade, only to a view with frames, and an unset view is
   * written back as the string "undefined"; the position becomes the
   * target's or, with a step, the stepped one; drags are locked while an animated change
   * runs; "changed_frame" is triggered. The callback for `update` unlocks drags once the
   * change is complete and otherwise schedules the next step.
   */
  function Moved(s: Settings, frames: Dict<nat>, c: Conf, frame: string, options: FrameOptions): (r: (Conf, Move))
    ensures r.0.lastFrame == Saved(c)
    ensures r.1.duration == 0.0 && r.1.cont.StepCont? && r.1.cont.frame == frame && r.1.cont.options == options
  {
    var (nextView, nextPosition) := Target(frame);
    var viewFrames := Get(frames, nextView);
    var cross := Crosses(c.view, nextView, frames);
    var target := if nextPosition.Some? then nextPosition.value else "undefined";
    var (position, arrived) :=
      if options.step != 0 then StepPosition(c.position, options.step, viewFrames, nextPosition) else (target, false);
    var c1 := c.(lastFrame := Saved(c), view := if cross then nextView else Shown(c.view), position := position);
    var preventDrag := PreventDrag(options) && (cross || options.step != 0);
    var c2 := if preventDrag then c1.(classes := c1.classes + DragLocks(s)) else c1;
    var c3 := c2.(emitted := c2.emitted + [ChangedFrame(GetFrameKey(c2.view, c2.position, ""))]);
    (c3, Move(if cross then "cross" else "", 0.0, StepCont(frame, options, options.step != 0 && !arrived, preventDrag)))
  }

  /**
   * `changeFrame(frame, options)`: the move, then `update` with its animation and callback.
   * Before the "frames" event there is no frames table to look the view up in: the last
   * frame of the view is already recorded when that lookup throws.
   */
  function Changed(s: Settings, p: Query.Product, ready: bool, laidOut: bool, frames: Dict<nat>, c: Conf, size: string,
                   frame: string, options: FrameOptions): (r: Step)
    ensures r.c.lastFrame == Saved(c)
    ensures r.outcome.Thrown? ==> r.outcome.error == TypeError
    ensures !laidOut ==> r.outcome == Thrown(TypeError) && r.c == c.(lastFrame := Saved(c))
    ensures laidOut && c.view == "" && !Has(frames, Target(frame).0) ==> r.c.view == "undefined"
  {
    if !laidOut then Step(c.(lastFrame := Saved(c)), Thrown(TypeError))
    else
      var (c1, move) := Moved(s, frames, c, frame, options);
      Updated(s, p, ready, frames, c1, size, move.animate, move.cont)
  }

  /**
   * `changeFrame` as written with the `ripe.Visual` of ripe.js, which has `trigger` but no
   * `_runCallbacks`: the call that announces "changed_frame" throws `TypeError` after the
   * move's writes to the saved position, the view, the position and the drag lock. `update`
   * never runs, so no callback exists to lift the lock or take the next step.
   */
  function ChangedAsWritten(s: Settings, laidOut: bool, frames: Dict<nat>, c: Conf, frame: string,
                            options: FrameOptions): (r: Step)
    ensures r.outcome == Thrown(TypeError)
    ensures r.c.lastFrame == Saved(c)
    ensures laidOut && c.view == "" && !Has(frames, Target(frame).0) ==> r.c.view == "undefined"
    ensures r.c.emitted == c.emitted && r.c.timers == c.timers && r.c.unique == c.unique
  {
    if !laidOut then Step(c.(lastFrame := Saved(c)), Thrown(TypeError))
    else
      var (c1, _) := Moved(s, frames, c, frame, options);
      Step(c1.(emitted := c.emitted), Thrown(TypeError))
  }

  /** `lowlight()`: the highlight classes leave the front mask and the element (there is no front mask before the layout). */
  function Lowlighted(laidOut: bool, c: Conf): (r: Step)
    ensures laidOut ==> r.outcome == Done && "highlight" !in r.c.classes && !r.c.frontMask.highlight
    ensures !laidOut ==> r == Step(c, Thrown(TypeError))
  {
    if !laidOut then Step(c, Thrown(TypeError))
    else Step(c.(frontMask := c.frontMask.(highlight := false), classes := c.classes - {"highlight"}), Done)
  }

  /**
   * `_chosenPart` with `index` the red value of the mask under the pointer: index 0 or a
   * drag lowlights; otherwise the part at `index - 1` of `partsList`, or nothing past its
   * end. Nothing in `ripe.Config` sets `partsList`; while it is unset the lookup throws.
   */
  function Chosen(partsList: Option<seq<string>>, down: bool, index: nat): HitTest.Pointer
  {
    if index == 0 || down then HitTest.Lowlight
    else if partsList.None? then HitTest.Fail(TypeError)
    else HitTest.Choose(HitTest.PartAt(partsList.value, index))
  }

  /** The "move" class, added once the drag passes 2% of the element's width or height. */
  function Marked(c: Conf, percentX: real, percentY: real): Conf
  {
    if percentX > 0.02 || percentX < -0.02 || percentY > 0.02 || percentY < -0.02 then c.(classes := c.classes + {"move"})
    else c
  }

  /** The pending timer `i` fires: a preload starts, a mask is drawn or the next step of `changeFrame` runs. */
  function Fired(s: Settings, p: Query.Product, ready: bool, laidOut: bool, frames: Dict<nat>, c: Conf, size: string, i: nat): (r: Step)
    requires i < |c.timers|
  {
    var c1 := TakeTimer(c, i);
    match c.timers[i]
    case RenderTimer(gen) => Render(s, p, c1, gen)
    case DrawMaskTimer(frame) => Step(DrawMask(c1, frame), Done)
    case StepTimer(frame, options) => Changed(s, p, ready, laidOut, frames, c1, size, frame, options)
  }

  /** Whether the steps from `position` reach `t` within `fuel` steps of `step`. */
  function Walk(position: nat, step: int, n: nat, t: nat, fuel: nat): bool
    requires n > 0
    decreases fuel
  {
    if fuel == 0 then false
    else
      var k := NextStep(position, step, n, Some(t)).0;
      k == t || Walk(k, step, n, t, fuel - 1)
  }

  // ---------------------------------------------------------------- properties

  /**
   * A step lands on the position moved by `step` modulo the view's frames, held at the target
   * when it lies beyond it: it never passes the target in the step's direction, and it
   * arrives exactly when it lands on the target.
   */
  lemma StepHeldAtTarget(position: string, step: int, n: nat, next: string, current: nat, t: nat)
    requires n > 0 && step != 0 && ParseInt(position) == Some(current) && ToNumber(next) == Some(t)
    ensures var (text, arrived) := StepPosition(position, step, Some(n), Some(next));
      var k := (current + step) % n;
      ToNumber(text) == Some(if step > 0 && k > t then t else if step < 0 && k < t then t else k)
      && (step > 0 ==> ToNumber(text).value <= t) && (step < 0 ==> ToNumber(text).value >= t)
      && (arrived <==> ToNumber(text) == Some(t))
  {
    Drag.WrapIsMod(current + step, n);
    var k := (current + step) % n;
    ToNumberNatToString(k);
  }

  /** A position the step does not hold at the target is the one the next step starts from. */
  lemma StepContinues(position: string, step: int, n: nat, next: string, current: nat, t: nat)
    requires n > 0 && step != 0 && ParseInt(position) == Some(current) && ToNumber(next) == Some(t)
    requires !StepPosition(position, step, Some(n), Some(next)).1
    ensures var k := NextStep(current, step, n, Some(t)).0;
      k != t && ParseInt(StepPosition(position, step, Some(n), Some(next)).0) == Some(k)
  {
    ParseIntNatToString(NextStep(current, step, n, Some(t)).0);
  }

  /** The wraps one step of 1 or -1 meets: within the view, past its last frame, before its first. */
  lemma WrapUnit(a: int, n: nat)
    requires n > 0 && -1 <= a <= n
    ensures 0 <= a < n ==> Drag.Wrap(a, n) == a
    ensures a == n ==> Drag.Wrap(a, n) == 0
    ensures a == -1 ==> Drag.Wrap(a, n) == n - 1
  {
    Drag.WrapIsMod(a, n);
    if 0 <= a < n {
      ModUnique(a, 0, n, a);
    } else if a == n {
      ModUnique(a, 1, n, 0);
    } else {
      ModUnique(a, -1, n, n - 1);
    }
  }

  lemma {:induction false} ForwardArrives(position: nat, n: nat, t: nat, fuel: nat)
    requires position < t < n && fuel >= t - position
    ensures Walk(position, 1, n, t, fuel)
    decreases t - position
  {
    WrapUnit(position + 1, n);
    assert NextStep(position, 1, n, Some(t)).0 == position + 1;
    if position + 1 != t {
      ForwardArrives(position + 1, n, t, fuel - 1);
    }
  }

  lemma {:induction false} BackwardArrives(position: nat, n: nat, t: nat, fuel: nat)
    requires t < position < n && fuel >= position - t
    ensures Walk(position, -1, n, t, fuel)
    decreases position - t
  {
    WrapUnit(position - 1, n);
    assert NextStep(position, -1, n, Some(t)).0 == position - 1;
    if position - 1 != t {
      BackwardArrives(position - 1, n, t, fuel - 1);
    }
  }

  /** Steps of 1 reach any frame of the view within as many steps as the view has frames. */
  lemma UnitStepsArrive(position: nat, n: nat, t: nat)
    requires position < n && t < n
    ensures Walk(position, 1, n, t, n)
  {
    if position < t {
      ForwardArrives(position, n, t, n);
    } else {
      WrapUnit(position + 1, n);
      var k := NextStep(position, 1, n, Some(t)).0;
      assert Walk(position, 1, n, t, n) == (k == t || Walk(k, 1, n, t, n - 1));
      if position + 1 == n && t != 0 {
        assert k == 0;
        ForwardArrives(0, n, t, n - 1);
      }
    }
  }

  /** Steps of -1 reach any frame of the view within as many steps as the view has frames. */
  lemma UnitStepsBackArrive(position: nat, n: nat, t: nat)
    requires position < n && t < n
    ensures Walk(position, -1, n, t, n)
  {
    if t < position {
      BackwardArrives(position, n, t, n);
    } else {
      WrapUnit(position - 1, n);
      var k := NextStep(position, -1, n, Some(t)).0;
      assert Walk(position, -1, n, t, n) == (k == t || Walk(k, -1, n, t, n - 1));
      if position == 0 && t != n - 1 {
        assert k == n - 1;
        BackwardArrives(n - 1, n, t, n - 1);
      }
    }
  }

  /**
   * A wider step can circle a view without ever arriving: steps of 2 over four frames
   * towards the last one visit only the even positions, so the animation steps forever.
   */
  lemma {:induction false} EvenStepsMissLastFrame(position: nat, fuel: nat)
    requires position == 0 || position == 2
    ensures !Walk(position, 2, 4, 3, fuel)
    decreases fuel
  {
    if fuel > 0 {
      Drag.WrapIsMod(position + 2, 4);
      EvenStepsMissLastFrame(2 - position, fuel - 1);
    }
  }

  /**
   * `changeFrame` saves the position shown for its view, changes the view (with "cross")
   * exactly when the target view is another one with frames, otherwise writes back the view
   * it read (an unset one as "undefined"), and triggers "changed_frame" with the frame now
   * shown.
   */
  lemma ViewChangesOnlyWithFrames(s: Settings, frames: Dict<nat>, c: Conf, frame: string, options: FrameOptions)
    ensures var (nextView, _) := Target(frame);
      var m := Moved(s, frames, c, frame, options);
      var cross := (c.view == "" || c.view != nextView) && Has(frames, nextView);
      m.0.view == (if cross then nextView else if c.view == "" then "undefined" else c.view)
      && (m.1.animate == "cross" <==> cross) && (!cross ==> m.1.animate == "")
      && m.0.lastFrame == c.lastFrame[(if c.view == "" then "undefined" else c.view) := c.position]
      && m.0.emitted == c.emitted + [ChangedFrame(GetFrameKey(m.0.view, m.0.position, ""))]
  {
  }

  /**
   * An update with a new unique key whose frame shown the buffers do not have throws
   * `TypeError` at the image lookup of `_loadFrame`, and keeps the view and position.
   */
  lemma UpdateWithoutFrameThrows(s: Settings, p: Query.Product, frames: Dict<nat>, c: Conf, size: string,
                                 animate: string, cont: Cont)
    requires s.kind == ConfigKind && LoadKey(c.view, c.position, c) !in c.slots
    requires c.unique != Some(UniqueKey(Query.Query(p, Query.NoOptions), c.view, c.position, size))
    ensures var r := Updated(s, p, true, frames, c, size, animate, cont);
      r.outcome == Thrown(TypeError) && r.c.view == c.view && r.c.position == c.position
  {
    var signature := Query.Query(p, Query.NoOptions);
    var c1 := c.(signature := signature, unique := Some(UniqueKey(signature, c.view, c.position, size)));
    var key := LoadKey(c1.view, c1.position, c1);
    assert key == LoadKey(c.view, c.position, c);
    assert MaskFirst(s, p, c1, key) == c1;
  }

  /**
   * From a view never set, a change to a view without frames writes the view back as the
   * string "undefined". The update that follows then looks for the frame "undefined-<q>",
   * which the buffers do not have, and throws `TypeError` instead of drawing a frame of
   * "side".
   */
  lemma UnsetViewReloadThrows(s: Settings, p: Query.Product, frames: Dict<nat>, c: Conf, size: string,
                              view: string, q: string, options: FrameOptions)
    requires s.kind == ConfigKind && c.view == "" && !Has(frames, view) && options.step == 0
    requires '-' !in view && '-' !in q && q != ""
    requires GetFrameKey("undefined", q, "") !in c.slots
    requires c.unique != Some(UniqueKey(Query.Query(p, Query.NoOptions), "undefined", q, size))
    ensures var r := Changed(s, p, true, true, frames, c, size, GetFrameKey(view, q, ""), options);
      r.outcome == Thrown(TypeError) && r.c.view == "undefined" && r.c.position == q
  {
    var frame := GetFrameKey(view, q, "");
    ParseGetFrameKey(view, q, "");
    assert Target(frame) == (view, Some(q));
    var (c1, move) := Moved(s, frames, c, frame, options);
    assert c1.view == "undefined" && c1.position == q && c1.unique == c.unique && c1.slots == c.slots;
    assert LoadKey(c1.view, c1.position, c1) == GetFrameKey("undefined", q, "");
    UpdateWithoutFrameThrows(s, p, frames, c1, size, move.animate, move.cont);
  }

  /**
   * Without a step the target's position is shown as it is; with a step towards a view
   * without frames the position becomes NaN and the change never completes.
   */
  lemma StepWithoutFrames(s: Settings, frames: Dict<nat>, c: Conf, frame: string, options: FrameOptions)
    ensures var (nextView, nextPosition) := Target(frame);
      var m := Moved(s, frames, c, frame, options);
      (options.step == 0 ==> m.0.position == (if nextPosition.Some? then nextPosition.value else "undefined") && !m.1.cont.more)
      && (options.step != 0 && (Get(frames, nextView).None? || Get(frames, nextView) == Some(0)) ==>
            m.0.position == "NaN" && m.1.cont.more)
  {
  }

  /**
   * Drags are locked ("noDrag") when `preventDrag` holds and the change crossfades or steps.
   * When `update` runs the callback, a change without a step or one that arrived unlocks
   * drags again (if it locked them); otherwise the next step is scheduled with the same frame
   * and options.
   */
  lemma DragLock(s: Settings, p: Query.Product, frames: Dict<nat>, c: Conf, frame: string, options: FrameOptions, later: Conf)
    requires s.kind == ConfigKind
    ensures var (nextView, nextPosition) := Target(frame);
      var m := Moved(s, frames, c, frame, options);
      var cross := (c.view == "" || c.view != nextView) && Has(frames, nextView);
      var lock := PreventDrag(options) && (cross || options.step != 0);
      var done := options.step == 0 || StepPosition(c.position, options.step, Get(frames, nextView), nextPosition).1;
      (lock ==> "noDrag" in m.0.classes)
      && (!lock ==> m.0.classes == c.classes)
      && RunCont(s, p, later, m.1.cont)
         == if done then Step(if lock then later.(classes := later.classes - {"noDrag"}) else later, Done)
            else Step(later.(timers := later.timers + [StepTimer(frame, options)]), Done)
  {
  }

  /**
   * As written, a change to another view with frames, with the default `preventDrag`, sets
   * "noDrag" and throws before anything could remove it: the element shows the new view,
   * nothing is triggered, no step is scheduled and the frame drawn last stays recorded.
   * The corrected `Changed` lifts the lock through the callback (`DragLock`).
   */
  lemma CrossingLocksDragAsWritten(s: Settings, frames: Dict<nat>, c: Conf, frame: string, options: FrameOptions)
    requires s.kind == ConfigKind
    requires Target(frame).0 != c.view && Has(frames, Target(frame).0) && PreventDrag(options)
    ensures var r := ChangedAsWritten(s, true, frames, c, frame, options);
      r.outcome == Thrown(TypeError) && r.c.view == Target(frame).0 && "noDrag" in r.c.classes
      && r.c.emitted == c.emitted && r.c.timers == c.timers && r.c.unique == c.unique
  {
    var m := Moved(s, frames, c, frame, options);
    ViewChangesOnlyWithFrames(s, frames, c, frame, options);
    assert "noDrag" in m.0.classes;
  }

  /** An update whose unique key is the one drawn last only runs the callback. */
  lemma UpdateSkipsUnchanged(s: Settings, p: Query.Product, frames: Dict<nat>, c: Conf, size: string,
                             animate: string, cont: Cont)
    requires c.signature == Query.Query(p, Query.NoOptions)
    requires c.unique == Some(UniqueKey(c.signature, c.view, c.position, size))
    ensures Updated(s, p, true, frames, c, size, animate, cont) == RunCont(s, p, c, cont)
  {
  }

  /** An update with a new unique key records it and loads the frame shown. */
  lemma UpdateRecordsKey(s: Settings, p: Query.Product, frames: Dict<nat>, c: Conf, size: string,
                         animate: string, cont: Cont)
    requires c.unique != Some(UniqueKey(Query.Query(p, Query.NoOptions), c.view, c.position, size))
    ensures var signature := Query.Query(p, Query.NoOptions);
      var unique := UniqueKey(signature, c.view, c.position, size);
      var r := Updated(s, p, true, frames, c, size, animate, cont);
      r.outcome.Done? ==> r.c.unique == Some(unique) && r.c.signature == signature
  {
    var signature := Query.Query(p, Query.NoOptions);
    var unique := UniqueKey(signature, c.view, c.position, size);
    var c1 := c.(signature := signature, unique := Some(unique));
    var animation := if animate != "" then animate else if signature != c.signature then "simple" else "";
    var r := LoadFrame(s, p, c1, LoadKey(c.view, c.position, c1), true, animation, 0.0, cont);
    assert Keeps(c1, r.c);
  }

  lemma UniqueKeySize(signature: string, view: string, position: string, a: string, b: string)
    requires UniqueKey(signature, view, position, a) == UniqueKey(signature, view, position, b)
    ensures a == b
  {
    var prefix := signature + "&view=" + Shown(view) + "&position=" + Shown(position) + "&size=";
    assert UniqueKey(signature, view, position, a)[|prefix|..] == a;
    assert UniqueKey(signature, view, position, b)[|prefix|..] == b;
  }

  /** The frame a configuration shows: the image on the visible canvas. */
  function Shows(c: Conf): string
  {
    if c.area.visible then c.area.image else c.back.image
  }

  /**
   * As written, a resize never redraws: the canvases are cleared, and the update that
   * follows finds the key it drew last (ending "&size=null" whatever the size) and stops.
   */
  lemma ResizeBlankAsWritten(s: Settings, p: Query.Product, frames: Dict<nat>, c: Conf)
    requires c.signature == Query.Query(p, Query.NoOptions)
    requires c.unique == Some(UniqueKey(c.signature, c.view, c.position, "null"))
    ensures var r := UpdatedAsWritten(s, p, true, frames, Cleared(c), "", NoCont);
      r == Step(Cleared(c), Done) && r.c.area.image == "" && r.c.back.image == "" && Shows(r.c) == ""
  {
  }

  /**
   * With the size read from where `resize` stores it, a resize to a new size records the new
   * key and loads the frame shown; when its image is already loaded it is drawn again at once.
   */
  lemma ResizeRedraws(s: Settings, p: Query.Product, frames: Dict<nat>, c: Conf, before: string, after: string)
    requires s.kind == ConfigKind && before != after
    requires c.signature == Query.Query(p, Query.NoOptions)
    requires c.unique == Some(UniqueKey(c.signature, c.view, c.position, before))
    ensures var r := Updated(s, p, true, frames, Cleared(c), after, "", NoCont);
      var key := UniqueKey(c.signature, c.view, c.position, after);
      r == Reloaded(s, p, frames, Cleared(c).(unique := Some(key)), false, "", 0.0, NoCont)
    ensures var frame := LoadKey(c.view, c.position, c);
      var r := Updated(s, p, true, frames, Cleared(c), after, "", NoCont);
      frame in c.slots && c.slots[frame].src == FrameURL(s, p, frame) && c.slots[frame].loaded && "preload" in c.classes
      ==> r.outcome == Done && Shows(r.c) == frame
  {
    var key := UniqueKey(c.signature, c.view, c.position, after);
    if c.unique == Some(key) {
      UniqueKeySize(c.signature, c.view, c.position, before, after);
    }
    var frame := LoadKey(c.view, c.position, c);
    var c1 := Cleared(c).(unique := Some(key));
    if frame in c.slots && c.slots[frame].src == FrameURL(s, p, frame) && c.slots[frame].loaded && "preload" in c.classes {
      assert LoadFrame(s, p, c1, frame, true, "", 0.0, NoCont) == DrawFrame(s, p, c1, frame, "", 0.0, NoCont);
      assert DrawFrame(s, p, c1, frame, "", 0.0, NoCont) == Step(Settle(Draw(c1, frame), !c1.area.visible), Done);
    }
  }

  lemma {:induction false} GetFound<V>(d: Dict<V>, k: string, v: V)
    requires Get(d, k) == Some(v)
    ensures exists i :: 0 <= i < |d| && d[i] == (k, v)
  {
    if d[0].0 != k {
      GetFound(d[1..], k, v);
      var i :| 0 <= i < |d[1..]| && d[1..][i] == (k, v);
      assert d[i + 1] == (k, v);
    }
  }

  /**
   * A drag within the vertical threshold on a view with frames moves to the dragged
   * position wrapped into the view, a frame of the product, without a step.
   */
  lemma DragWithinView(s: Settings, frames: Dict<nat>, c: Conf, base: nat, tilt: real, shift: real)
    requires '-' !in c.view && -Threshold <= tilt <= Threshold
    requires Get(frames, c.view).Some? && Get(frames, c.view).value > 0
    ensures var n := Get(frames, c.view).value;
      var k := Trunc(base as real - shift) % n;
      var frame := Drag.DragFrame(frames, Threshold, c.view, c.lastFrame, NatToString(base), tilt, shift);
      var m := Moved(s, frames, c, frame, NoFrameOptions);
      frame == FrameKey(c.view, k) && frame in AllFrameKeys(frames)
      && m.0.view == c.view && m.0.position == NatToString(k) && !m.1.cont.more
  {
    var n := Get(frames, c.view).value;
    Drag.SmallTiltKeepsView(frames, c.view, tilt, Threshold);
    Drag.DragPositionInRange(frames, c.lastFrame, c.view, base, shift, n);
    var k := Trunc(base as real - shift) % n;
    FrameKeyRoundTrip(c.view, k);
    GetFound(frames, c.view, n);
    var i :| 0 <= i < |frames| && frames[i] == (c.view, n);
    AllFrameKeysHas(frames, FrameKey(c.view, k));
  }

  /** With a parts list the choice is the hit test's; without one a part index throws. */
  lemma ChosenFromList(partsList: Option<seq<string>>, down: bool, index: nat)
    ensures partsList.Some? ==> Chosen(partsList, down, index) == HitTest.ChosenPart(down, partsList.value, index)
    ensures partsList.None? && index != 0 && !down ==> Chosen(partsList, down, index) == HitTest.Fail(TypeError)
    ensures index != 0 && !down && partsList.Some? && index <= |partsList.value| ==>
      Chosen(partsList, down, index) == HitTest.Choose(Some(partsList.value[index - 1]))
  {
    if partsList.Some? && index != 0 && !down {
      HitTest.ChosenPartIndex(partsList.value, index);
    }
  }

  /**
   * A `ripe.Config` bound to its element. The options read at `init` are constants; the
   * dataset entries of the drag and the fields `init`, `_initLayout` and `resize` set are
   * the variables; the engine's state is the element's.
   */
  class Config {
    const sensitivity: real
    const optionSize: string
    const element: FrameEngine.Element
    var ready: bool
    var laidOut: bool
    var frames: Dict<nat>
    var partsList: Option<seq<string>>
    var currentSize: string
    var down: bool
    var base: string
    var referenceX: int
    var referenceY: int
    var mousePosX: int
    var mousePosY: int
    var percent: real

    /** `init`: the sensitivity defaults to 40; nothing is laid out or ready. */
    constructor(sensitivity: real, useChain: bool, optionSize: string)
      ensures element.settings == ConfigSettings(useChain) && element.c == Initial && fresh(element)
      ensures this.sensitivity == (if sensitivity != 0.0 then sensitivity else 40.0) && this.optionSize == optionSize
      ensures !ready && !laidOut && frames == [] && partsList.None? && currentSize == "" && !down
    {
      this.sensitivity := if sensitivity != 0.0 then sensitivity else 40.0;
      this.optionSize := optionSize;
      element := new FrameEngine.Element(ConfigSettings(useChain));
      ready := false;
      laidOut := false;
      frames := [];
      partsList := None;
      currentSize := "";
      down := false;
      base := "";
      referenceX, referenceY, mousePosX, mousePosY := 0, 0, 0, 0;
      percent := 0.0;
    }

    /** `update(state, {animate, callback})`, reading the size `resize` stored. */
    method Update(p: Query.Product, animate: string, cont: Cont) returns (outcome: Outcome)
      modifies element
      ensures Step(element.c, outcome) == Updated(element.settings, p, ready, frames, old(element.c), SizeRead(currentSize), animate, cont)
    {
      if !ready {
        return Done;
      }
      var signature := Query.Query(p, Query.NoOptions);
      var changed := signature != element.c.signature;
      var animation := if animate != "" then animate else if changed then "simple" else "";
      var unique := UniqueKey(signature, element.c.view, element.c.position, SizeRead(currentSize));
      if element.c.unique == Some(unique) {
        element.c := element.c.(signature := signature);
        outcome := element.RunCont(p, cont);
        return;
      }
      element.c := element.c.(signature := signature, unique := Some(unique));
      outcome := element.Reload(p, frames, changed, animation, 0.0, cont);
    }

    /**
     * `resize(size)`: before the layout there are no canvases to size; otherwise the size
     * is stored, the canvases are cleared and the frame is updated.
     */
    method Resize(p: Query.Product, size: nat, clientWidth: nat) returns (outcome: Outcome)
      modifies this, element
      ensures ready == old(ready) && laidOut == old(laidOut) && frames == old(frames)
      ensures partsList == old(partsList) && down == old(down)
      ensures !laidOut ==> outcome == Thrown(TypeError) && element.c == old(element.c) && currentSize == old(currentSize)
      ensures laidOut ==> (currentSize == SizeText(size, clientWidth, optionSize)
        && Step(element.c, outcome) == Updated(element.settings, p, ready, frames, Cleared(old(element.c)), SizeRead(currentSize), "", NoCont))
    {
      if !laidOut {
        return Thrown(TypeError);
      }
      currentSize := SizeText(size, clientWidth, optionSize);
      element.c := Cleared(element.c);
      outcome := Update(p, "", NoCont);
    }

    /**
     * The "frames" event: the frames are kept, the layout is built and sized (its update runs
     * only once ready), and then the configurator is ready and updates.
     */
    method FramesLoaded(p: Query.Product, available: Dict<nat>, clientWidth: nat) returns (outcome: Outcome)
      modifies this, element
      ensures frames == available && laidOut && currentSize == SizeText(0, clientWidth, optionSize)
      ensures partsList == old(partsList) && down == old(down)
      ensures var first := Updated(element.settings, p, old(ready), available, LaidOut(available, old(element.c)), SizeRead(currentSize), "", NoCont);
        if first.outcome.Thrown? then ready == old(ready) && Step(element.c, outcome) == first
        else ready && Step(element.c, outcome) == Updated(element.settings, p, true, available, first.c, SizeRead(currentSize), "", NoCont)
    {
      frames := available;
      element.c := LaidOut(frames, element.c);
      laidOut := true;
      outcome := Resize(p, 0, clientWidth);
      if outcome.Thrown? {
        return;
      }
      ready := true;
      outcome := Update(p, "", NoCont);
    }

    /** The part of `changeFrame` before `update`, once the frames are known. */
    method MoveFrame(frame: string, options: FrameOptions) returns (move: Move)
      modifies element
      ensures (element.c, move) == Moved(element.settings, frames, old(element.c), frame, options)
    {
      var (nextView, nextPosition) := Target(frame);
      var viewFrames := Get(frames, nextView);
      var current := element.c.view;
      var position := element.c.position;
      element.c := element.c.(lastFrame := element.c.lastFrame[Shown(current) := position]);
      var cross := (current == "" || current != nextView) && viewFrames.Some?;
      element.c := element.c.(view := if cross then nextView else Shown(current));
      element.c := element.c.(position := if nextPosition.Some? then nextPosition.value else "undefined");
      var arrived := false;
      if options.step != 0 {
        var stepped := StepPosition(position, options.step, viewFrames, nextPosition);
        element.c := element.c.(position := stepped.0);
        arrived := stepped.1;
      }
      var preventDrag := PreventDrag(options) && (cross || options.step != 0);
      if preventDrag {
        element.c := element.c.(classes := element.c.classes + DragLocks(element.settings));
      }
      element.c := element.c.(emitted := element.c.emitted + [ChangedFrame(GetFrameKey(element.c.view, element.c.position, ""))]);
      move := Move(if cross then "cross" else "", 0.0, StepCont(frame, options, options.step != 0 && !arrived, preventDrag));
    }

    /** `changeFrame(frame, options)`. */
    method ChangeFrame(p: Query.Product, frame: string, options: FrameOptions) returns (outcome: Outcome)
      modifies element
      ensures Step(element.c, outcome) == Changed(element.settings, p, ready, laidOut, frames, old(element.c), SizeRead(currentSize), frame, options)
    {
      if !laidOut {
        element.c := element.c.(lastFrame := Saved(element.c));
        return Thrown(TypeError);
      }
      var move := MoveFrame(frame, options);
      outcome := Update(p, move.animate, move.cont);
    }

    /** `lowlight()`. */
    method Lowlight() returns (outcome: Outcome)
      modifies element
      ensures Step(element.c, outcome) == Lowlighted(laidOut, old(element.c))
    {
      if !laidOut {
        return Thrown(TypeError);
      }
      element.c := element.c.(frontMask := element.c.frontMask.(highlight := false), classes := element.c.classes - {"highlight"});
      outcome := Done;
    }

    /**
     * "mousemove" on a canvas, with `index` the red value of the mask under the pointer: the
     * part under the pointer, which the source goes on to highlight.
     */
    method ChosenPart(index: nat) returns (outcome: Outcome, part: Option<string>)
      modifies element
      ensures var chosen := Chosen(partsList, down, index);
        match chosen
        case Lowlight => Step(element.c, outcome) == Lowlighted(laidOut, old(element.c)) && part.None?
        case Fail(e) => outcome == Thrown(e) && element.c == old(element.c) && part.None?
        case Choose(q) => outcome == Done && element.c == old(element.c) && part == q
        case Ignore => outcome == Done && element.c == old(element.c) && part.None?
    {
      part := None;
      outcome := Done;
      match Chosen(partsList, down, index)
      case Lowlight =>
        outcome := Lowlight();
      case Fail(e) =>
        outcome := Thrown(e);
      case Choose(q) =>
        part := q;
      case Ignore =>
    }

    /** "mousedown": a drag starts from the position shown, at the pointer. */
    method MouseDown(x: int, y: int)
      modifies this, element
      ensures laidOut ==> (down && base == Or(old(element.c).position, "0") && referenceX == x && referenceY == y
        && percent == 0.0 && element.c == old(element.c).(view := Or(old(element.c).view, "side"), classes := old(element.c).classes + {"drag"}))
      ensures !laidOut ==> down == old(down) && element.c == old(element.c)
      ensures frames == old(frames) && ready == old(ready) && laidOut == old(laidOut) && currentSize == old(currentSize)
    {
      if !laidOut {
        return;
      }
      element.c := element.c.(view := Or(element.c.view, "side"));
      base := Or(element.c.position, "0");
      down := true;
      referenceX, referenceY := x, y;
      percent := 0.0;
      element.c := element.c.(classes := element.c.classes + {"drag"});
    }

    /** "mouseup" and "mouseleave": the drag ends. */
    method MouseUp()
      modifies this, element
      ensures laidOut ==> !down && percent == 0.0 && element.c == old(element.c).(classes := old(element.c).classes - {"drag"})
      ensures !laidOut ==> down == old(down) && element.c == old(element.c)
      ensures frames == old(frames) && ready == old(ready) && laidOut == old(laidOut) && currentSize == old(currentSize)
    {
      if !laidOut {
        return;
      }
      down := false;
      percent := 0.0;
      element.c := element.c.(classes := element.c.classes - {"drag"});
    }

    /** The measuring half of `_parseDrag`: the drag as `tilt` and `shift`, and the fractions it makes of the element. */
    method Measure(width: nat, height: nat) returns (tilt: real, shift: real, percentY: real)
      requires width > 0 && height > 0
      modifies this
      ensures tilt == Drag.Scaled(sensitivity, old(referenceY) - old(mousePosY), height)
      ensures shift == Drag.Scaled(sensitivity, old(referenceX) - old(mousePosX), width)
      ensures percent == Drag.Fraction(old(referenceX) - old(mousePosX), width)
      ensures percentY == Drag.Fraction(old(referenceY) - old(mousePosY), height)
      ensures referenceY == (if Drag.VerticalView(element.c.view, tilt, Threshold).1 then mousePosY else old(referenceY))
      ensures frames == old(frames) && ready == old(ready) && laidOut == old(laidOut) && down == old(down)
      ensures mousePosX == old(mousePosX) && mousePosY == old(mousePosY) && referenceX == old(referenceX)
      ensures base == old(base) && currentSize == old(currentSize)
    {
      percent := Drag.Fraction(referenceX - mousePosX, width);
      percentY := Drag.Fraction(referenceY - mousePosY, height);
      tilt := Drag.Scaled(sensitivity, referenceY - mousePosY, height);
      shift := Drag.Scaled(sensitivity, referenceX - mousePosX, width);
      if Drag.VerticalView(element.c.view, tilt, Threshold).1 {
        referenceY := mousePosY;
      }
    }

    /**
     * `_parseDrag`: the drag so far, as fractions of the element's `width` and `height`,
     * marks the element as moving once it is large enough and picks the frame to change to.
     */
    method ParseDrag(p: Query.Product, width: nat, height: nat) returns (outcome: Outcome)
      requires width > 0 && height > 0
      modifies this, element
      ensures var tilt := Drag.Scaled(sensitivity, old(referenceY) - old(mousePosY), height);
        var shift := Drag.Scaled(sensitivity, old(referenceX) - old(mousePosX), width);
        var percentY := Drag.Fraction(old(referenceY) - old(mousePosY), height);
        percent == Drag.Fraction(old(referenceX) - old(mousePosX), width)
        && referenceY == (if Drag.VerticalView(old(element.c).view, tilt, Threshold).1 then mousePosY else old(referenceY))
        && Step(element.c, outcome)
           == Changed(element.settings, p, ready, laidOut, frames, Marked(old(element.c), percent, percentY), SizeRead(currentSize),
                      Drag.DragFrame(frames, Threshold, old(element.c).view, old(element.c).lastFrame, base, tilt, shift), NoFrameOptions)
      ensures frames == old(frames) && ready == old(ready) && laidOut == old(laidOut) && down == old(down)
      ensures mousePosX == old(mousePosX) && mousePosY == old(mousePosY) && referenceX == old(referenceX)
      ensures base == old(base) && currentSize == old(currentSize)
    {
      var tilt, shift, percentY := Measure(width, height);
      var frame := Drag.DragFrame(frames, Threshold, element.c.view, element.c.lastFrame, base, tilt, shift);
      element.c := Marked(element.c, percent, percentY);
      outcome := ChangeFrame(p, frame, NoFrameOptions);
    }

    /** "mousemove" on the element: the pointer is recorded and, during a drag, the frame follows it. */
    method MouseMove(p: Query.Product, x: int, y: int, width: nat, height: nat) returns (outcome: Outcome)
      requires width > 0 && height > 0
      modifies this, element
      ensures !laidOut || "noDrag" in old(element.c).classes ==>
        element.c == old(element.c) && outcome == Done && mousePosX == old(mousePosX) && mousePosY == old(mousePosY)
      ensures laidOut && "noDrag" !in old(element.c).classes ==> mousePosX == x && mousePosY == y
      ensures laidOut && "noDrag" !in old(element.c).classes && !down ==> element.c == old(element.c) && outcome == Done
      ensures frames == old(frames) && ready == old(ready) && laidOut == old(laidOut) && down == old(down)
    {
      outcome := Done;
      if !laidOut || "noDrag" in element.c.classes {
        return;
      }
      mousePosX, mousePosY := x, y;
      if down {
        outcome := ParseDrag(p, width, height);
      }
    }

    /** The pending timer `i` fires. */
    method TimerFired(p: Query.Product, i: nat) returns (outcome: Outcome)
      requires i < |element.c.timers|
      modifies element
      ensures Step(element.c, outcome) == Fired(element.settings, p, ready, laidOut, frames, old(element.c), SizeRead(currentSize), i)
    {
      var timer := element.c.timers[i];
      element.c := TakeTimer(element.c, i);
      match timer
      case RenderTimer(gen) =>
        outcome := element.Render(p, gen);
      case DrawMaskTimer(frame) =>
        element.c := DrawMask(element.c, frame);
        outcome := Done;
      case StepTimer(frame, options) =>
        outcome := ChangeFrame(p, frame, options);
    }
  }
}
