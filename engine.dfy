/**
 * The frame engine shared by `ripe.Configurator` (ripe.js and its minified build) and
 * `ripe.Config` (config.part.js), written as functions of the engine's state.
 *
 * The state (`Conf`) is what `_loadFrame`, `_drawFrame`, `_preload` and their callbacks
 * change: the element's `dataset.view`/`dataset.position`, the load signature and the
 * "unique" key, the preload generation and its work list, the element's class list, one
 * slot per image of the frames buffer and of the masks buffer, the two canvases, the
 * pending animation, the pending timers and the events the engine emits.
 *
 * Asynchrony is made explicit: an image load, a mask load, the end of an animation and the
 * firing of a timer are events the environment delivers (`ImageLoaded`, `MaskLoaded`,
 * `AnimationFinished`, the timers in `timers`). The callbacks the source passes around are
 * the values of `Cont` and are run by `RunCont`.
 *
 * "" stands for an unset `dataset` entry throughout.
 */
module Engine {
  import opened Wrappers
  import opened Js
  import opened Dicts
  import opened FrameKeys
  import Query

  /** Which of the two configurators runs the engine. */
  datatype Kind =
    | ConfiguratorKind   // ripe.Configurator: masks, sized image URLs, "no-drag"/"animating"
    | ConfigKind         // ripe.Config: no masks, plain image URLs, "noDrag"

  /** The options fixed when the configurator is created. */
  datatype Settings = Settings(kind: Kind, size: string, width: string, height: string, useChain: bool)

  datatype Opacity = Opaque | Transparent | FadingIn | FadingOut

  /** One of the two stacked canvases ("area" and "back"): `dataset.visible`, the frame drawn, the opacity. */
  datatype Surface = Surface(visible: bool, image: string, opacity: Opacity)

  const Blank := Surface(false, "", Opaque)

  /**
   * The options of `changeFrame`: `duration` and `type` (`mode`) for the configurator,
   * `step` for `ripe.Config`, and `preventDrag` for both. 0 and "" are absent options.
   */
  datatype FrameOptions = FrameOptions(duration: real, mode: string, step: int, preventDrag: Option<bool>)

  const NoFrameOptions := FrameOptions(0.0, "", 0, None)

  /** The callbacks passed to `update`, `_loadFrame` and `_drawFrame`. */
  datatype Cont =
    | NoCont
      // the callback of `changeFrame`: another step is due when `more`
    | StepCont(frame: string, options: FrameOptions, more: bool, preventDrag: bool)
      // `callbackMark` of the preload generation `gen` for the image of `frame`
    | MarkCont(gen: nat, frame: string)
      // `callbackChain`: mark, then render the next frame
    | ChainCont(gen: nat, frame: string)

  /** The `onload` handler an image load installs. */
  datatype Pending = Pending(url: string, draw: bool, animate: string, duration: real, cont: Cont)

  /**
   * An image of the frames buffer: `dataset.src`, `dataset.loaded === "true"`, whether a
   * load is in flight, its `onload` handler and its "preloading" class.
   */
  datatype Slot = Slot(src: string, loaded: bool, inFlight: bool, onload: Option<Pending>, preloading: bool)

  const EmptySlot := Slot("", false, false, None, false)

  /** An image of the masks buffer: `dataset.src` and whether its load is in flight. */
  datatype MaskSlot = MaskSlot(src: string, inFlight: bool)

  /** The opacity animation of `_drawFrame` towards the area (`toArea`) or the back canvas. */
  datatype Animation = Animation(toArea: bool, cont: Cont)

  /** A pending `setTimeout`. */
  datatype Timer =
    | RenderTimer(gen: nat)                              // the start of a preload
    | DrawMaskTimer(frame: string)                       // the delayed `_drawMask`
    | StepTimer(frame: string, options: FrameOptions)    // the next step of `changeFrame`

  /** The front mask image: its `src`, its load listeners (one part each), its classes. */
  datatype FrontMask = FrontMask(src: string, listeners: seq<Option<string>>, highlight: bool, loaded: bool)

  const NoFrontMask := FrontMask("", [], false, false)

  /** What the engine makes visible to the outside: triggered events and network requests. */
  datatype Signal =
    | ChangedFrame(frame: string)
    | Loaded
    | HighlightedPart(part: Option<string>)
    | PartSelected(part: Option<string>)
    | ImageRequest(frame: string, url: string)
    | MaskRequest(frame: string, url: string)

  datatype Conf = Conf(
    view: string, position: string, lastFrame: map<string, string>,
    signature: string, unique: Option<string>,
    index: nat, work: seq<string>,
    classes: set<string>,
    slots: map<string, Slot>, masks: map<string, MaskSlot>, maskCanvas: string,
    area: Surface, back: Surface, animation: Option<Animation>,
    timers: seq<Timer>, frontMask: FrontMask, emitted: seq<Signal>)

  /** The element and the engine before the frames arrive: nothing drawn, nothing loaded. */
  const Initial := Conf("", "", map[], "", None, 0, [], {}, map[], map[], "", Blank, Blank, None, [], NoFrontMask, [])

  /** A new state and whether the step threw. */
  datatype Step = Step(c: Conf, outcome: Outcome)

  /** The class that keeps the pointer from dragging the product. */
  function NoDrag(s: Settings): string
  {
    if s.kind == ConfiguratorKind then "no-drag" else "noDrag"
  }

  /** The classes `changeFrame` sets while an animated change runs. */
  function DragLocks(s: Settings): set<string>
  {
    if s.kind == ConfiguratorKind then {"no-drag", "animating"} else {"noDrag"}
  }

  /**
   * The part of the engine's state only `changeFrame`, `update` and `_preload` change: the
   * frame-loading machinery leaves it as it is.
   */
  predicate Keeps(a: Conf, b: Conf)
  {
    a.view == b.view && a.position == b.position && a.lastFrame == b.lastFrame
    && a.signature == b.signature && a.unique == b.unique && a.index == b.index
    && a.slots.Keys == b.slots.Keys && a.masks.Keys == b.masks.Keys
    && a.emitted <= b.emitted
  }

  // ---------------------------------------------------------------- frame lists

  /** The keys of the frames of one view from index `first` on, in index order. */
  function ViewKeys(view: string, count: nat, first: nat): (keys: seq<string>)
    ensures |keys| == if first <= count then count - first else 0
    ensures forall i :: 0 <= i < |keys| ==> keys[i] == FrameKey(view, first + i)
  {
    if first <= count then seq(count - first, i requires 0 <= i < count - first => FrameKey(view, first + i)) else []
  }

  /**
   * The frames of the product, view by view in the table's order, each view in index order
   * from index `first` on.
   */
  function FrameKeysFrom(frames: Dict<nat>, first: nat): seq<string>
    decreases |frames|
  {
    if frames == [] then [] else ViewKeys(frames[0].0, frames[0].1, first) + FrameKeysFrom(frames[1..], first)
  }

  /** Every frame of the product. */
  function AllFrameKeys(frames: Dict<nat>): seq<string>
  {
    FrameKeysFrom(frames, 0)
  }

  /** `array.reverse()`. */
  function Reverse(xs: seq<string>): (r: seq<string>)
    ensures |r| == |xs|
    decreases |xs|
  {
    if xs == [] then [] else Reverse(xs[1..]) + [xs[0]]
  }

  lemma {:induction false} FrameKeysAppend(a: Dict<nat>, b: Dict<nat>, first: nat)
    ensures FrameKeysFrom(a + b, first) == FrameKeysFrom(a, first) + FrameKeysFrom(b, first)
    decreases |a|
  {
    if a != [] {
      assert (a + b)[0] == a[0] && (a + b)[1..] == a[1..] + b;
      FrameKeysAppend(a[1..], b, first);
      assert FrameKeysFrom(a + b, first) == ViewKeys(a[0].0, a[0].1, first) + FrameKeysFrom(a[1..] + b, first);
    } else {
      assert a + b == b;
    }
  }

  lemma FrameKeysSnoc(frames: Dict<nat>, v: nat, first: nat)
    requires v < |frames|
    ensures FrameKeysFrom(frames[..v + 1], first) == FrameKeysFrom(frames[..v], first) + ViewKeys(frames[v].0, frames[v].1, first)
  {
    assert frames[..v + 1] == frames[..v] + [frames[v]];
    FrameKeysAppend(frames[..v], [frames[v]], first);
    assert FrameKeysFrom([frames[v]], first) == ViewKeys(frames[v].0, frames[v].1, first) + FrameKeysFrom([], first);
  }

  /** One more index of a view: it joins the list unless it comes before `first`. */
  lemma ViewKeysSnoc(view: string, index: nat, first: nat)
    ensures index < first ==> ViewKeys(view, index + 1, first) == ViewKeys(view, index, first)
    ensures first <= index ==> ViewKeys(view, index + 1, first) == ViewKeys(view, index, first) + [FrameKey(view, index)]
  {
    if first <= index {
      assert ViewKeys(view, index + 1, first)[index - first] == FrameKey(view, index);
    }
  }

  /**
   * The loops of `_preload`: every frame key of every view, pushed view by view and index by
   * index, leaving out index 0 when `skipFirst` (the element shows no position yet, which
   * `_index === (position || 0)` compares equal to 0).
   */
  method FrameList(frames: Dict<nat>, skipFirst: bool) returns (keys: seq<string>)
    ensures keys == FrameKeysFrom(frames, if skipFirst then 1 else 0)
  {
    var first := if skipFirst then 1 else 0;
    keys := [];
    var v := 0;
    while v < |frames|
      invariant 0 <= v <= |frames|
      invariant keys == FrameKeysFrom(frames[..v], first)
    {
      var view := frames[v].0;
      var count := frames[v].1;
      var index := 0;
      while index < count
        invariant 0 <= index <= count
        invariant keys == FrameKeysFrom(frames[..v], first) + ViewKeys(view, index, first)
      {
        ViewKeysSnoc(view, index, first);
        if !(skipFirst && index == 0) {
          keys := keys + [FrameKey(view, index)];
        }
        index := index + 1;
      }
      assert ViewKeys(view, index, first) == ViewKeys(view, count, first);
      FrameKeysSnoc(frames, v, first);
      v := v + 1;
    }
    assert frames[..|frames|] == frames;
  }

  /** A key is on the list exactly when it names a frame, from index `first` on, of some view of the table. */
  lemma {:induction false} FrameKeysHas(frames: Dict<nat>, first: nat, f: string)
    ensures f in FrameKeysFrom(frames, first) <==>
      exists i, k :: 0 <= i < |frames| && first <= k < frames[i].1 && f == FrameKey(frames[i].0, k)
    decreases |frames|
  {
    if frames != [] {
      FrameKeysHas(frames[1..], first, f);
      var head := ViewKeys(frames[0].0, frames[0].1, first);
      if f in head {
        var j :| 0 <= j < |head| && head[j] == f;
        assert first <= first + j < frames[0].1 && f == FrameKey(frames[0].0, first + j);
      }
      if exists i, k :: 0 <= i < |frames| && first <= k < frames[i].1 && f == FrameKey(frames[i].0, k) {
        var i, k :| 0 <= i < |frames| && first <= k < frames[i].1 && f == FrameKey(frames[i].0, k);
        if i == 0 {
          assert head[k - first] == f;
        } else {
          assert frames[1..][i - 1] == frames[i];
        }
      }
      if exists i, k :: 0 <= i < |frames[1..]| && first <= k < frames[1..][i].1 && f == FrameKey(frames[1..][i].0, k) {
        var i, k :| 0 <= i < |frames[1..]| && first <= k < frames[1..][i].1 && f == FrameKey(frames[1..][i].0, k);
        assert frames[i + 1] == frames[1..][i];
      }
    }
  }

  /** Every frame of the product is on the full list. */
  lemma AllFrameKeysHas(frames: Dict<nat>, f: string)
    ensures f in AllFrameKeys(frames) <==>
      exists i, k :: 0 <= i < |frames| && 0 <= k < frames[i].1 && f == FrameKey(frames[i].0, k)
  {
    FrameKeysHas(frames, 0, f);
  }

  lemma {:induction false} ReverseHas(xs: seq<string>, f: string)
    ensures f in Reverse(xs) <==> f in xs
    decreases |xs|
  {
    if xs != [] {
      ReverseHas(xs[1..], f);
      assert xs == [xs[0]] + xs[1..];
    }
  }

  /**
   * `work.pop()` on the reversed list takes the first frame of the enumeration and leaves the
   * reversal of the rest: the work list drains in enumeration order.
   */
  lemma DrainOrder(xs: seq<string>)
    requires xs != []
    ensures Reverse(xs)[|xs| - 1] == xs[0]
    ensures Reverse(xs)[..|xs| - 1] == Reverse(xs[1..])
  {
    assert Reverse(xs) == Reverse(xs[1..]) + [xs[0]];
  }

  // ---------------------------------------------------------------- URLs and keys

  /**
   * The key `_loadFrame` builds from its arguments, `view || dataset.view || "side"` and
   * `position || dataset.position || 0`.
   */
  function LoadKey(view: string, position: string, c: Conf): string
  {
    GetFrameKey(Or(Or(view, c.view), "side"), Or(Or(position, c.position), "0"), "")
  }

  /** The key `render` hands to `_loadFrame`: the work item split at the token and built again. */
  function RenderKey(frame: string, c: Conf): string
  {
    var parts := ParseFrameKey(frame, "");
    LoadKey(parts[0], if |parts| > 1 then parts[1] else "", c)
  }

  /** The image URL `_loadFrame` requests for a frame. */
  function FrameURL(s: Settings, p: Query.Product, frame: string): string
  {
    if s.kind == ConfiguratorKind then
      var options := Query.NoOptions.(frame := FrameNameHack(frame));
      Query.ImageURL(p, Query.ImageOptions(options, "", Or(s.size, s.width), Or(s.size, s.height), s.size, "", false, None, None))
    else
      Query.ImageURL(p, Query.ImageOptions(Query.NoOptions.(frame := frame), "", "", "", "", "", false, None, None))
  }

  /** The mask URL `_loadMask` requests for a frame. */
  function MaskFrameURL(p: Query.Product, frame: string): string
  {
    Query.MaskURL(p, Query.NoOptions.(frame := FrameNameHack(frame)), "")
  }

  // ---------------------------------------------------------------- surfaces

  /**
   * The drawing part of `_drawFrame`: the frame goes to the canvas not marked visible, which
   * becomes the visible one, and the other stops being visible.
   */
  function Draw(c: Conf, frame: string): Conf
  {
    if !c.area.visible then c.(area := c.area.(visible := true, image := frame), back := c.back.(visible := false))
    else c.(back := c.back.(visible := true, image := frame), area := c.area.(visible := false))
  }

  /** The end of a transition towards the area (`toArea`) or back canvas: it is opaque, the other transparent. */
  function Settle(c: Conf, toArea: bool): Conf
  {
    if toArea then c.(area := c.area.(opacity := Opaque), back := c.back.(opacity := Transparent))
    else c.(back := c.back.(opacity := Opaque), area := c.area.(opacity := Transparent))
  }

  /** The start of an animated transition: the target fades in, and with "cross" the other fades out. */
  function Fade(c: Conf, toArea: bool, cross: bool): Conf
  {
    if toArea then c.(area := c.area.(opacity := FadingIn), back := if cross then c.back.(opacity := FadingOut) else c.back)
    else c.(back := c.back.(opacity := FadingIn), area := if cross then c.area.(opacity := FadingOut) else c.area)
  }

  /**
   * The length of an animated transition: the given duration when the configurator has one,
   * otherwise 0 for "immediate" and 500 for every other mode. `ripe.Config` never takes a
   * duration.
   */
  function AnimationTime(s: Settings, animate: string, duration: real): real
  {
    if s.kind == ConfiguratorKind && duration != 0.0 then duration
    else if animate == "immediate" then 0.0 else 500.0
  }

  // ---------------------------------------------------------------- the engine

  /** Some image of the frames buffer still has the "preloading" class. */
  predicate AnyPreloading(slots: map<string, Slot>)
  {
    exists f | f in slots :: slots[f].preloading
  }

  /** The "preloading" class removed from one image. */
  function Unmark(slots: map<string, Slot>, frame: string): (r: map<string, Slot>)
    ensures r.Keys == slots.Keys
  {
    if frame in slots then slots[frame := slots[frame].(preloading := false)] else slots
  }

  /**
   * `mark` of the preload generation `gen`: nothing once a newer generation started;
   * otherwise the image stops preloading, and the element is marked as preloading while some
   * image still is, or the preload ends with "loaded" once nothing is left.
   */
  function Mark(s: Settings, c: Conf, gen: nat, frame: string): (r: Conf)
    ensures Keeps(c, r) && r.work == c.work
  {
    if gen != c.index then c
    else
      var slots := Unmark(c.slots, frame);
      if AnyPreloading(slots) then c.(slots := slots, classes := c.classes + {"preloading", NoDrag(s)})
      else if c.work == [] then
        c.(slots := slots, classes := c.classes - {"preloading", NoDrag(s)}, emitted := c.emitted + [Loaded])
      else c.(slots := slots)
  }

  /** Runs a callback. */
  function RunCont(s: Settings, p: Query.Product, c: Conf, cont: Cont): (r: Step)
    ensures Keeps(c, r.c) && |r.c.work| <= |c.work|
    ensures r.outcome.Thrown? ==> r.outcome.error == TypeError
    decreases |c.work|, 1
  {
    match cont
    case NoCont => Step(c, Done)
    case StepCont(frame, options, more, preventDrag) =>
      if !more then Step(if preventDrag then c.(classes := c.classes - DragLocks(s)) else c, Done)
      else Step(c.(timers := c.timers + [StepTimer(frame, options)]), Done)
    case MarkCont(gen, frame) => Step(Mark(s, c, gen, frame), Done)
    case ChainCont(gen, frame) => Render(s, p, Mark(s, c, gen, frame), gen)
  }

  /**
   * `render` of the preload generation `gen`: nothing once a newer generation started or
   * when the work is done; otherwise the next frame is popped, its image marked as
   * preloading and loaded without drawing, and (without chaining) the next one follows at
   * once. The image of a popped frame that is not in the buffer throws.
   */
  function Render(s: Settings, p: Query.Product, c: Conf, gen: nat): (r: Step)
    ensures Keeps(c, r.c) && |r.c.work| <= |c.work|
    ensures r.outcome.Thrown? ==> r.outcome.error == TypeError
    decreases |c.work|, 0
  {
    if gen != c.index || c.work == [] then Step(c, Done)
    else
      var frame := c.work[|c.work| - 1];
      var c1 := c.(work := c.work[..|c.work| - 1]);
      if frame !in c1.slots then Step(c1, Thrown(TypeError))
      else
        var c2 := c1.(slots := c1.slots[frame := c1.slots[frame].(preloading := true)]);
        var cont := if s.useChain then ChainCont(gen, frame) else MarkCont(gen, frame);
        var r := LoadFrame(s, p, c2, RenderKey(frame, c2), false, "", 0.0, cont);
        if r.outcome.Thrown? || s.useChain then r else Render(s, p, r.c, gen)
  }

  /**
   * `_loadMask` (configurator only): an image that already has a source is drawn to the mask
   * canvas after a delay; otherwise its URL is requested.
   */
  function LoadMask(p: Query.Product, c: Conf, frame: string): (r: Conf)
    requires frame in c.masks
    ensures Keeps(c, r) && r.work == c.work && r.slots == c.slots
  {
    if c.masks[frame].src != "" then c.(timers := c.timers + [DrawMaskTimer(frame)])
    else
      var url := MaskFrameURL(p, frame);
      c.(masks := c.masks[frame := MaskSlot(url, true)], emitted := c.emitted + [MaskRequest(frame, url)])
  }

  /** The mask load the configurator's `_loadFrame` starts with; `ripe.Config` loads no mask. */
  function MaskFirst(s: Settings, p: Query.Product, c: Conf, frame: string): (r: Conf)
    requires s.kind == ConfiguratorKind ==> frame in c.masks
    ensures Keeps(c, r) && r.work == c.work && r.slots == c.slots
    ensures s.kind == ConfigKind ==> r == c
  {
    if s.kind == ConfiguratorKind then LoadMask(p, c, frame) else c
  }

  /**
   * `_loadFrame`: the configurator first loads the frame's mask. An image whose recorded
   * source is already the frame's URL is not requested again: without drawing the callback
   * runs at once, with drawing the frame is drawn only if the image has loaded. Otherwise the
   * URL is requested and recorded, the image is marked as not loaded and the drawing (or the
   * callback) waits for the load. A frame the buffers do not have throws.
   */
  function LoadFrame(s: Settings, p: Query.Product, c: Conf, frame: string, draw: bool, animate: string,
                     duration: real, cont: Cont): (r: Step)
    ensures Keeps(c, r.c) && |r.c.work| <= |c.work|
    ensures r.outcome.Thrown? ==> r.outcome.error == TypeError
    decreases |c.work|, 3
  {
    if s.kind == ConfiguratorKind && frame !in c.masks then Step(c, Thrown(TypeError))
    else
      var c1 := MaskFirst(s, p, c, frame);
      if frame !in c1.slots then Step(c1, Thrown(TypeError))
      else
        var url := FrameURL(s, p, frame);
        var slot := c1.slots[frame];
        if slot.src == url then
          if !draw then RunCont(s, p, c1, cont)
          else if slot.loaded then DrawFrame(s, p, c1, frame, animate, duration, cont)
          else Step(c1, Done)
        else
          var pending := Pending(url, draw, animate, duration, cont);
          Step(c1.(slots := c1.slots[frame := Slot(url, false, true, Some(pending), slot.preloading)],
                   emitted := c1.emitted + [ImageRequest(frame, url)]), Done)
  }

  /**
   * `_drawFrame`: draws the frame (see `Draw`); without animation the transition ends at
   * once and the callback runs; an animation cancels the pending one and either ends at once
   * (length 0) or leaves the callback to its end.
   */
  function DrawFrame(s: Settings, p: Query.Product, c: Conf, frame: string, animate: string,
                     duration: real, cont: Cont): (r: Step)
    ensures Keeps(c, r.c) && |r.c.work| <= |c.work|
    ensures r.outcome.Thrown? ==> r.outcome.error == TypeError
    decreases |c.work|, 2
  {
    var toArea := !c.area.visible;
    var drawn := Draw(c, frame);
    if animate == "" then RunCont(s, p, Settle(drawn, toArea), cont)
    else
      var cleared := drawn.(animation := None);
      if AnimationTime(s, animate, duration) == 0.0 then RunCont(s, p, Settle(cleared, toArea), cont)
      else Step(Fade(cleared, toArea, animate == "cross").(animation := Some(Animation(toArea, cont))), Done)
  }

  /** The first index `_preload` takes of each view: 1 while the element shows no position. */
  function PreloadFirst(c: Conf): nat
  {
    if c.position == "" then 1 else 0
  }

  /**
   * `_preload`: a new generation with the frames of the product on the work list (reversed,
   * so that popping takes them in enumeration order); when there is work the element is
   * marked as preloading and rendering starts after a delay.
   */
  function Preload(s: Settings, frames: Dict<nat>, c: Conf): (r: Conf)
    ensures r.view == c.view && r.position == c.position && r.lastFrame == c.lastFrame
    ensures r.signature == c.signature && r.unique == c.unique && r.index == c.index + 1
    ensures r.slots == c.slots && r.masks == c.masks && r.emitted == c.emitted
    ensures r.work == Reverse(FrameKeysFrom(frames, PreloadFirst(c))) && "preload" in r.classes
  {
    var index := c.index + 1;
    var work := Reverse(FrameKeysFrom(frames, PreloadFirst(c)));
    var c1 := c.(index := index, work := work, classes := c.classes + {"preload"});
    if work == [] then c1
    else c1.(classes := c1.classes + {"preloading", NoDrag(s)}, timers := c1.timers + [RenderTimer(index)])
  }

  /** The frame shown is loaded and drawn; a new signature or a missing "preload" class starts a preload. */
  function Reloaded(s: Settings, p: Query.Product, frames: Dict<nat>, c: Conf, changed: bool,
                    animate: string, duration: real, cont: Cont): (r: Step)
    ensures r.c.view == c.view && r.c.position == c.position && r.c.lastFrame == c.lastFrame
    ensures r.c.slots.Keys == c.slots.Keys && r.c.masks.Keys == c.masks.Keys && c.emitted <= r.c.emitted
    ensures r.c.signature == c.signature && r.c.unique == c.unique
    ensures r.outcome.Thrown? ==> r.outcome.error == TypeError
  {
    var r := LoadFrame(s, p, c, LoadKey(c.view, c.position, c), true, animate, duration, cont);
    if r.outcome.Thrown? then r
    else if changed || "preload" !in r.c.classes then Step(Preload(s, frames, r.c), Done)
    else r
  }

  /** What `changeFrame` hands to `update`: the animation, its duration and the callback. */
  datatype Move = Move(animate: string, duration: real, cont: Cont)

  /** `preventDrag`, which defaults to true. */
  function PreventDrag(options: FrameOptions): bool
  {
    options.preventDrag.None? || options.preventDrag.value
  }

  /** Resizing clears the three canvases. */
  function Cleared(c: Conf): Conf
  {
    c.(area := c.area.(image := ""), back := c.back.(image := ""), maskCanvas := "")
  }

  /** `_initLayout`: new canvases and one empty image per frame in both buffers. */
  function LaidOut(frames: Dict<nat>, c: Conf): (r: Conf)
    ensures r.slots.Keys == r.masks.Keys == set k | k in AllFrameKeys(frames)
    ensures r.view == c.view && r.position == c.position && "configurator" in r.classes
    ensures Cleared(r) == r
  {
    var keys := AllFrameKeys(frames);
    c.(classes := c.classes + {"configurator"},
       slots := map k | k in keys :: EmptySlot, masks := map k | k in keys :: MaskSlot("", false),
       maskCanvas := "", area := Blank, back := Blank, animation := None, frontMask := NoFrontMask)
  }

  // ---------------------------------------------------------------- environment events

  /** The image of a frame finished loading: it is marked loaded and its `onload` handler runs. */
  function ImageLoaded(s: Settings, p: Query.Product, c: Conf, frame: string): (r: Step)
    ensures Keeps(c, r.c)
  {
    if frame !in c.slots || !c.slots[frame].inFlight || c.slots[frame].onload.None? then Step(c, Done)
    else
      var h := c.slots[frame].onload.value;
      var c1 := c.(slots := c.slots[frame := c.slots[frame].(loaded := true, inFlight := false, src := h.url)]);
      if !h.draw then RunCont(s, p, c1, h.cont) else DrawFrame(s, p, c1, frame, h.animate, h.duration, h.cont)
  }

  /** The mask image of a frame finished loading: it is drawn to the mask canvas after a delay. */
  function MaskLoaded(c: Conf, frame: string): (r: Conf)
    ensures Keeps(c, r)
  {
    if frame !in c.masks || !c.masks[frame].inFlight then c
    else c.(masks := c.masks[frame := c.masks[frame].(inFlight := false)], timers := c.timers + [DrawMaskTimer(frame)])
  }

  /** The pending animation finished: the transition settles and its callback runs. */
  function AnimationFinished(s: Settings, p: Query.Product, c: Conf): (r: Step)
    ensures Keeps(c, r.c)
  {
    match c.animation
    case None => Step(c, Done)
    case Some(a) => RunCont(s, p, Settle(c.(animation := None), a.toArea), a.cont)
  }

  /**
   * Points the front mask at the mask of a new highlight. The load listener of this
   * highlight replaces the earlier ones, as the removal before the addition intends.
   */
  function PointFrontMask(c: Conf, url: string, part: Option<string>): (r: Conf)
    ensures Keeps(c, r) && r.frontMask.src == url && r.frontMask.listeners == [part]
  {
    c.(frontMask := c.frontMask.(src := url, listeners := [part]))
  }

  /**
   * Points the front mask at the mask of a new highlight as the source does: the listener
   * it removes is a closure just created, so the listeners of every earlier highlight stay.
   */
  function PointFrontMaskAsWritten(c: Conf, url: string, part: Option<string>): (r: Conf)
    ensures Keeps(c, r) && r.frontMask.src == url && r.frontMask.listeners == c.frontMask.listeners + [part]
  {
    c.(frontMask := c.frontMask.(src := url, listeners := c.frontMask.listeners + [part]))
  }

  /** The events one load of the front mask triggers: one per listener, in order. */
  function HighlightEvents(listeners: seq<Option<string>>): (r: seq<Signal>)
    ensures |r| == |listeners|
    ensures forall i :: 0 <= i < |r| ==> r[i] == HighlightedPart(listeners[i])
  {
    if listeners == [] then [] else [HighlightedPart(listeners[0])] + HighlightEvents(listeners[1..])
  }

  lemma HighlightEventsSnoc(listeners: seq<Option<string>>, i: nat)
    requires i < |listeners|
    ensures HighlightEvents(listeners[..i + 1]) == HighlightEvents(listeners[..i]) + [HighlightedPart(listeners[i])]
  {
    var a := HighlightEvents(listeners[..i + 1]);
    var b := HighlightEvents(listeners[..i]) + [HighlightedPart(listeners[i])];
    assert |a| == |b|;
    forall j | 0 <= j < |a| ensures a[j] == b[j] {
    }
  }

  /** The front mask finished loading: each listener marks it and triggers "highlighted_part". */
  function FrontMaskLoaded(c: Conf): Conf
  {
    var m := c.frontMask;
    var heard := m.listeners != [];
    c.(frontMask := m.(highlight := m.highlight || heard, loaded := m.loaded || heard),
       emitted := c.emitted + HighlightEvents(m.listeners))
  }

  /** `_drawMask`: the mask canvas shows the mask image of the frame. */
  function DrawMask(c: Conf, frame: string): (r: Conf)
    ensures Keeps(c, r) && r.maskCanvas == frame
  {
    c.(maskCanvas := frame)
  }

  /** The pending timer `i` leaves the queue as it fires; the others keep their order. */
  function TakeTimer(c: Conf, i: nat): (r: Conf)
    requires i < |c.timers|
    ensures Keeps(c, r) && |r.timers| == |c.timers| - 1
    ensures forall j :: 0 <= j < |r.timers| ==> r.timers[j] == c.timers[if j < i then j else j + 1]
  {
    c.(timers := c.timers[..i] + c.timers[i + 1..])
  }

  // ---------------------------------------------------------------- properties

  /** Callbacks of a superseded preload generation change nothing. */
  lemma StaleGeneration(s: Settings, p: Query.Product, c: Conf, gen: nat, frame: string)
    requires gen != c.index
    ensures Mark(s, c, gen, frame) == c
    ensures Render(s, p, c, gen) == Step(c, Done)
    ensures RunCont(s, p, c, MarkCont(gen, frame)) == Step(c, Done)
    ensures RunCont(s, p, c, ChainCont(gen, frame)) == Step(c, Done)
  {
  }

  /**
   * A current `mark` triggers "loaded" exactly when no image is preloading any more and the
   * work list is empty, and then lifts the preloading and drag locks.
   */
  lemma MarkLoaded(s: Settings, c: Conf, frame: string)
    ensures var r := Mark(s, c, c.index, frame);
      (r.emitted == c.emitted + [Loaded] <==> !AnyPreloading(Unmark(c.slots, frame)) && c.work == [])
      && (r.emitted == c.emitted || r.emitted == c.emitted + [Loaded])
      && (r.emitted != c.emitted ==> "preloading" !in r.classes && NoDrag(s) !in r.classes)
      && (AnyPreloading(Unmark(c.slots, frame)) ==> "preloading" in r.classes && NoDrag(s) in r.classes)
  {
    var r := Mark(s, c, c.index, frame);
    if !(!AnyPreloading(Unmark(c.slots, frame)) && c.work == []) {
      assert r.emitted == c.emitted;
      assert |c.emitted + [Loaded]| != |c.emitted|;
    }
  }

  /**
   * `_preload` starts a new generation: every callback of the earlier ones becomes a no-op,
   * and the work list holds exactly the frames of the product (but frame 0 of each view
   * while the element shows no position).
   */
  lemma PreloadSupersedes(s: Settings, p: Query.Product, frames: Dict<nat>, c: Conf, gen: nat, frame: string, f: string)
    requires gen <= c.index
    ensures var r := Preload(s, frames, c);
      r.index == c.index + 1
      && Mark(s, r, gen, frame) == r
      && Render(s, p, r, gen) == Step(r, Done)
      && (f in r.work <==> exists i, k :: 0 <= i < |frames| && PreloadFirst(c) <= k < frames[i].1 && f == FrameKey(frames[i].0, k))
      && (r.work != [] <==> RenderTimer(r.index) in r.timers[|c.timers|..])
  {
    var r := Preload(s, frames, c);
    ReverseHas(FrameKeysFrom(frames, PreloadFirst(c)), f);
    FrameKeysHas(frames, PreloadFirst(c), f);
    if r.work == [] {
      assert r.timers[|c.timers|..] == [];
    } else {
      assert r.timers[|c.timers|..] == [RenderTimer(r.index)];
    }
  }

  /**
   * A load whose URL the image already records requests no image and, without drawing, calls
   * back at once (after the configurator's mask load).
   */
  lemma RedundantLoad(s: Settings, p: Query.Product, c: Conf, frame: string, animate: string, duration: real, cont: Cont)
    requires s.kind == ConfiguratorKind ==> frame in c.masks
    requires frame in c.slots && c.slots[frame].src == FrameURL(s, p, frame)
    ensures var c1 := MaskFirst(s, p, c, frame);
      LoadFrame(s, p, c, frame, false, animate, duration, cont) == RunCont(s, p, c1, cont)
      && (c.slots[frame].loaded ==>
            LoadFrame(s, p, c, frame, true, animate, duration, cont) == DrawFrame(s, p, c1, frame, animate, duration, cont))
      && (!c.slots[frame].loaded ==> LoadFrame(s, p, c, frame, true, animate, duration, cont) == Step(c1, Done))
  {
  }

  /**
   * A load with a new URL records it, marks the image as not loaded, issues one request and
   * leaves the callback to the image's `onload`.
   */
  lemma FreshLoad(s: Settings, p: Query.Product, c: Conf, frame: string, draw: bool, animate: string, duration: real, cont: Cont)
    requires s.kind == ConfiguratorKind ==> frame in c.masks
    requires frame in c.slots && c.slots[frame].src != FrameURL(s, p, frame)
    ensures var url := FrameURL(s, p, frame);
      var c1 := MaskFirst(s, p, c, frame);
      var r := LoadFrame(s, p, c, frame, draw, animate, duration, cont);
      r.outcome == Done
      && r.c.slots[frame] == Slot(url, false, true, Some(Pending(url, draw, animate, duration, cont)), c.slots[frame].preloading)
      && r.c.emitted == c1.emitted + [ImageRequest(frame, url)]
      && r.c.timers == c1.timers && r.c.classes == c.classes && r.c.area == c.area && r.c.back == c.back
  {
  }

  /**
   * Once the requested image has loaded, loading the same frame again is redundant: the
   * drawing (or the callback) happens at once and nothing is requested.
   */
  lemma LoadedImageServesAgain(s: Settings, p: Query.Product, c: Conf, frame: string, animate: string,
                               duration: real, next: Cont)
    requires s.kind == ConfiguratorKind ==> frame in c.masks
    requires frame in c.slots && c.slots[frame].src != FrameURL(s, p, frame)
    ensures var c1 := LoadFrame(s, p, c, frame, false, "", 0.0, NoCont).c;
      var c2 := ImageLoaded(s, p, c1, frame).c;
      frame in c2.slots && c2.slots[frame].src == FrameURL(s, p, frame) && c2.slots[frame].loaded
      && (s.kind == ConfiguratorKind ==> frame in c2.masks)
      && LoadFrame(s, p, c2, frame, true, animate, duration, next)
         == DrawFrame(s, p, MaskFirst(s, p, c2, frame), frame, animate, duration, next)
  {
    var c1 := LoadFrame(s, p, c, frame, false, "", 0.0, NoCont).c;
    assert c1.slots[frame].inFlight && c1.slots[frame].onload.Some?;
    var c2 := ImageLoaded(s, p, c1, frame).c;
    assert c2.slots[frame] == c1.slots[frame].(loaded := true, inFlight := false, src := FrameURL(s, p, frame));
  }

  /**
   * Drawing goes to the canvas not marked visible: afterwards exactly that canvas is visible
   * and holds the frame, and the other keeps its image.
   */
  lemma DrawFlips(c: Conf, frame: string)
    ensures var r := Draw(c, frame);
      r.area.visible != r.back.visible
      && r.area.visible == !c.area.visible
      && (if c.area.visible then r.back.image == frame && r.area.image == c.area.image
          else r.area.image == frame && r.back.image == c.back.image)
  {
  }

  /**
   * Without animation the new frame ends up visible and opaque, the other canvas transparent,
   * and the callback runs at once.
   */
  lemma UnanimatedDraw(s: Settings, p: Query.Product, c: Conf, frame: string, duration: real, cont: Cont)
    ensures var r := Settle(Draw(c, frame), !c.area.visible);
      DrawFrame(s, p, c, frame, "", duration, cont) == RunCont(s, p, r, cont)
      && (if c.area.visible then r.back == Surface(true, frame, Opaque) && r.area.opacity == Transparent && !r.area.visible
          else r.area == Surface(true, frame, Opaque) && r.back.opacity == Transparent && !r.back.visible)
  {
  }

  /**
   * An animated draw of positive length does not call back: the callback waits for the end
   * of the animation, which replaces any pending one, and the target canvas fades in.
   */
  lemma AnimatedDrawWaits(s: Settings, p: Query.Product, c: Conf, frame: string, animate: string, duration: real, cont: Cont)
    requires animate != "" && AnimationTime(s, animate, duration) != 0.0
    ensures var r := DrawFrame(s, p, c, frame, animate, duration, cont);
      r.outcome == Done
      && r.c.animation == Some(Animation(!c.area.visible, cont))
      && r.c.emitted == c.emitted && r.c.timers == c.timers && r.c.classes == c.classes
      && (if c.area.visible then r.c.back.opacity == FadingIn else r.c.area.opacity == FadingIn)
      && AnimationFinished(s, p, r.c) == RunCont(s, p, Settle(r.c.(animation := None), !c.area.visible), cont)
  {
  }

  /** `ripe.Config` animates for 0 time in "immediate" mode and 500 otherwise, whatever the duration. */
  lemma ConfigAnimationTime(s: Settings, animate: string, duration: real)
    requires s.kind == ConfigKind
    ensures AnimationTime(s, animate, duration) == (if animate == "immediate" then 0.0 else 500.0)
  {
  }

  /** Each listener the front mask holds triggers its own "highlighted_part" on one load. */
  lemma FrontMaskEvents(c: Conf)
    ensures FrontMaskLoaded(c).emitted[..|c.emitted|] == c.emitted
    ensures |FrontMaskLoaded(c).emitted| == |c.emitted| + |c.frontMask.listeners|
    ensures forall i :: 0 <= i < |c.frontMask.listeners| ==>
      FrontMaskLoaded(c).emitted[|c.emitted| + i] == HighlightedPart(c.frontMask.listeners[i])
  {
  }

  /**
   * As written, a load of the mask of a second highlight also triggers "highlighted_part"
   * for the first one.
   */
  lemma StaleHighlightAsWritten(c: Conf, url1: string, url2: string, a: Option<string>, b: Option<string>)
    requires c.frontMask.listeners == []
    ensures FrontMaskLoaded(PointFrontMaskAsWritten(PointFrontMaskAsWritten(c, url1, a), url2, b)).emitted
      == c.emitted + [HighlightedPart(a), HighlightedPart(b)]
  {
    var c2 := PointFrontMaskAsWritten(PointFrontMaskAsWritten(c, url1, a), url2, b);
    assert c2.frontMask.listeners == [a, b];
  }

  /** With one listener per highlight, a load triggers "highlighted_part" for the last part only. */
  lemma HighlightOnce(c: Conf, url1: string, url2: string, a: Option<string>, b: Option<string>)
    ensures FrontMaskLoaded(PointFrontMask(PointFrontMask(c, url1, a), url2, b)).emitted
      == c.emitted + [HighlightedPart(b)]
  {
  }
}
