/**
 * The frame engine as the source runs it: an element whose state the loading, drawing and
 * preloading operations change step by step. Each method is proved to leave the state the
 * matching function of `Engine` describes.
 */
module FrameEngine {
  import opened Wrappers
  import opened Dicts
  import opened Engine
  import Query

  class Element {
    const settings: Settings
    /** The element's dataset, classes and children, and the engine's bookkeeping. */
    var c: Conf

    constructor(settings: Settings)
      ensures this.settings == settings && c == Initial
    {
      this.settings := settings;
      c := Initial;
    }

    /** `mark` of the preload generation `gen`. */
    method Mark(gen: nat, frame: string)
      modifies this
      ensures c == Engine.Mark(settings, old(c), gen, frame)
    {
      if gen != c.index {
        return;
      }
      var slots := Unmark(c.slots, frame);
      c := c.(slots := slots);
      if exists f | f in slots :: slots[f].preloading {
        c := c.(classes := c.classes + {"preloading", NoDrag(settings)});
      } else if c.work == [] {
        c := c.(classes := c.classes - {"preloading", NoDrag(settings)}, emitted := c.emitted + [Loaded]);
      }
    }

    /** Runs a callback. */
    method RunCont(p: Query.Product, cont: Cont) returns (outcome: Outcome)
      modifies this
      ensures Step(c, outcome) == Engine.RunCont(settings, p, old(c), cont)
      decreases |c.work|, 1
    {
      outcome := Done;
      match cont {
        case NoCont =>
        case StepCont(frame, options, more, preventDrag) =>
          if !more {
            if preventDrag {
              c := c.(classes := c.classes - DragLocks(settings));
            }
          } else {
            c := c.(timers := c.timers + [StepTimer(frame, options)]);
          }
        case MarkCont(gen, frame) =>
          Mark(gen, frame);
        case ChainCont(gen, frame) =>
          Mark(gen, frame);
          outcome := Render(p, gen);
      }
    }

    /** `render` of the preload generation `gen`. */
    method Render(p: Query.Product, gen: nat) returns (outcome: Outcome)
      modifies this
      ensures Step(c, outcome) == Engine.Render(settings, p, old(c), gen)
      decreases |c.work|, 0
    {
      if gen != c.index || c.work == [] {
        return Done;
      }
      var frame := c.work[|c.work| - 1];
      c := c.(work := c.work[..|c.work| - 1]);
      if frame !in c.slots {
        return Thrown(TypeError);
      }
      c := c.(slots := c.slots[frame := c.slots[frame].(preloading := true)]);
      var cont := if settings.useChain then ChainCont(gen, frame) else MarkCont(gen, frame);
      outcome := LoadFrame(p, RenderKey(frame, c), false, "", 0.0, cont);
      if outcome.Done? && !settings.useChain {
        outcome := Render(p, gen);
      }
    }

    /** `_loadMask`. */
    method LoadMask(p: Query.Product, frame: string)
      requires frame in c.masks
      modifies this
      ensures c == Engine.LoadMask(p, old(c), frame)
    {
      if c.masks[frame].src != "" {
        c := c.(timers := c.timers + [DrawMaskTimer(frame)]);
      } else {
        var url := MaskFrameURL(p, frame);
        c := c.(masks := c.masks[frame := MaskSlot(url, true)], emitted := c.emitted + [MaskRequest(frame, url)]);
      }
    }

    /** `_loadFrame`. */
    method LoadFrame(p: Query.Product, frame: string, draw: bool, animate: string, duration: real, cont: Cont)
      returns (outcome: Outcome)
      modifies this
      ensures Step(c, outcome) == Engine.LoadFrame(settings, p, old(c), frame, draw, animate, duration, cont)
      decreases |c.work|, 3
    {
      if settings.kind == ConfiguratorKind {
        if frame !in c.masks {
          return Thrown(TypeError);
        }
        LoadMask(p, frame);
      }
      if frame !in c.slots {
        return Thrown(TypeError);
      }
      var url := FrameURL(settings, p, frame);
      var slot := c.slots[frame];
      if slot.src == url {
        if !draw {
          outcome := RunCont(p, cont);
        } else if slot.loaded {
          outcome := DrawFrame(p, frame, animate, duration, cont);
        } else {
          outcome := Done;
        }
        return;
      }
      var pending := Pending(url, draw, animate, duration, cont);
      c := c.(slots := c.slots[frame := Slot(url, false, true, Some(pending), slot.preloading)],
              emitted := c.emitted + [ImageRequest(frame, url)]);
      outcome := Done;
    }

    /** `_drawFrame`. */
    method DrawFrame(p: Query.Product, frame: string, animate: string, duration: real, cont: Cont)
      returns (outcome: Outcome)
      modifies this
      ensures Step(c, outcome) == Engine.DrawFrame(settings, p, old(c), frame, animate, duration, cont)
      decreases |c.work|, 2
    {
      var toArea := !c.area.visible;
      if toArea {
        c := c.(area := c.area.(visible := true, image := frame), back := c.back.(visible := false));
      } else {
        c := c.(back := c.back.(visible := true, image := frame), area := c.area.(visible := false));
      }
      if animate != "" {
        c := c.(animation := None);
        if AnimationTime(settings, animate, duration) != 0.0 {
          c := Fade(c, toArea, animate == "cross").(animation := Some(Animation(toArea, cont)));
          return Done;
        }
      }
      c := Settle(c, toArea);
      outcome := RunCont(p, cont);
    }

    /** `_preload`: the new generation's work list is built by the loops of `FrameList`. */
    method Preload(frames: Dict<nat>)
      modifies this
      ensures c == Engine.Preload(settings, frames, old(c))
    {
      var index := c.index + 1;
      c := c.(index := index, classes := c.classes + {"preload"});
      var keys := FrameList(frames, c.position == "");
      c := c.(work := Reverse(keys));
      if c.work != [] {
        c := c.(classes := c.classes + {"preloading", NoDrag(settings)}, timers := c.timers + [RenderTimer(index)]);
      }
    }

    /** `update`'s loading half: the frame shown is loaded and drawn, and a preload starts when needed. */
    method Reload(p: Query.Product, frames: Dict<nat>, changed: bool, animate: string, duration: real, cont: Cont)
      returns (outcome: Outcome)
      modifies this
      ensures Step(c, outcome) == Reloaded(settings, p, frames, old(c), changed, animate, duration, cont)
    {
      outcome := LoadFrame(p, LoadKey(c.view, c.position, c), true, animate, duration, cont);
      if !outcome.Thrown? && (changed || "preload" !in c.classes) {
        Preload(frames);
      }
    }

    /** The image of a frame finished loading. */
    method ImageLoaded(p: Query.Product, frame: string) returns (outcome: Outcome)
      modifies this
      ensures Step(c, outcome) == Engine.ImageLoaded(settings, p, old(c), frame)
    {
      if frame !in c.slots || !c.slots[frame].inFlight || c.slots[frame].onload.None? {
        return Done;
      }
      var h := c.slots[frame].onload.value;
      c := c.(slots := c.slots[frame := c.slots[frame].(loaded := true, inFlight := false, src := h.url)]);
      if !h.draw {
        outcome := RunCont(p, h.cont);
      } else {
        outcome := DrawFrame(p, frame, h.animate, h.duration, h.cont);
      }
    }

    /** The mask image of a frame finished loading. */
    method MaskLoaded(frame: string)
      modifies this
      ensures c == Engine.MaskLoaded(old(c), frame)
    {
      if frame in c.masks && c.masks[frame].inFlight {
        c := c.(masks := c.masks[frame := c.masks[frame].(inFlight := false)], timers := c.timers + [DrawMaskTimer(frame)]);
      }
    }

    /** The pending animation finished. */
    method AnimationFinished(p: Query.Product) returns (outcome: Outcome)
      modifies this
      ensures Step(c, outcome) == Engine.AnimationFinished(settings, p, old(c))
    {
      if c.animation.None? {
        return Done;
      }
      var a := c.animation.value;
      c := Settle(c.(animation := None), a.toArea);
      outcome := RunCont(p, a.cont);
    }

    /** The front mask finished loading: its listeners run in the order they were added. */
    method FrontMaskLoaded()
      modifies this
      ensures c == Engine.FrontMaskLoaded(old(c))
    {
      var listeners := c.frontMask.listeners;
      var i := 0;
      while i < |listeners|
        invariant 0 <= i <= |listeners|
        invariant c == old(c).(frontMask := c.frontMask, emitted := old(c).emitted + HighlightEvents(listeners[..i]))
        invariant c.frontMask == old(c).frontMask.(highlight := old(c).frontMask.highlight || i > 0, loaded := old(c).frontMask.loaded || i > 0)
      {
        HighlightEventsSnoc(listeners, i);
        c := c.(frontMask := c.frontMask.(loaded := true, highlight := true), emitted := c.emitted + [HighlightedPart(listeners[i])]);
        i := i + 1;
      }
      assert listeners[..i] == listeners;
    }
  }
}
