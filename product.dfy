/**
 * The product instance of ripe.js (`ripe.Ripe`): the option defaulting of `init`, the parts
 * object and its setters, the sync rules a `SyncPlugin` binds to the "part" event, the frame
 * table of `getFrames`, and `update`. What the instance triggers or requests is recorded, in
 * order, in `emitted`; the callbacks bound to its events are not part of the model, except the
 * sync plugin's, which runs synchronously inside `trigger("part")`.
 */
module Product {
  import opened Wrappers
  import opened Js
  import opened Dicts
  import opened Query

  /** A sync rule: the parts that must share one material and colour. */
  type Rule = seq<string>

  /** What the instance triggers, hands to its children, or requests from the server. */
  datatype Emitted =
    | PartEvent(name: Option<string>, material: string, color: string)    // trigger("part", value)
    | PartsEvent(parts: Parts)                                            // trigger("parts", parts)
    | ChildrenUpdated(parts: Parts, initials: string, engraving: string)  // child.update(state), every child
    | UpdateEvent                                                         // trigger("update")
    | Requested(request: Request, state: Product)                         // a request to the server

  /** The requests the instance starts; each is sent to `RequestURL` of the state it was made in. */
  datatype Request = DefaultsRequest | CombinationsRequest | PriceRequest

  /** `_getDefaultsURL()`, `_getCombinationsURL()` (names not used) and `_getPriceURL()`. */
  function RequestURL(request: Request, state: Product): string
  {
    match request
    case DefaultsRequest => DefaultsURL(state, "", "", "")
    case CombinationsRequest => CombinationsURL(state, "", "", "", false)
    case PriceRequest => PriceURL(state, NoOptions)
  }

  /** The argument of `setParts`: an array of `[name, material, color]` or a parts object. */
  datatype PartsUpdate = Triples(triples: seq<(string, string, string)>) | Object(entries: Parts)

  /** The options of `new ripe.Ripe(brand, model, options)`; "" and `None` are absent options. */
  datatype RipeOptions = RipeOptions(
    variant: string, url: string, parts: Option<Parts>, country: string, currency: string,
    format: string, backgroundColor: string,
    noDefaults: Option<bool>, useDefaults: Option<bool>,
    noCombinations: Option<bool>, useCombinations: Option<bool>,
    noPrice: Option<bool>, usePrice: Option<bool>,
    frames: Option<Dict<nat>>)

  /** The fields of a model's configuration that `getFrames` reads. */
  datatype ModelConfig = ModelConfig(faces: seq<string>, frames: nat)

  const DefaultURL := "https://sandbox.platforme.com/api/"

  // ---------------------------------------------------------------- option defaulting

  /** `useX === undefined ? !(noX === undefined ? false : noX) : useX`. */
  function UseFlag(use: Option<bool>, no: Option<bool>): (r: bool)
    ensures use.Some? ==> r == use.value
    ensures use.None? ==> (r <==> !(no.Some? && no.value))
  {
    var noValue := if no.Some? then no.value else false;
    if use.Some? then use.value else !noValue
  }

  /** A request is skipped only when asked: `useX` is false, or unset while `noX` is true. */
  lemma UseFlagOff(use: Option<bool>, no: Option<bool>)
    ensures !UseFlag(use, no) <==> use == Some(false) || (use.None? && no == Some(true))
    ensures UseFlag(None, None)
  {
  }

  /** `s.replace("#", "")`: removes the first '#' only. */
  function StripHash(s: string): (r: string)
    ensures '#' !in s ==> r == s
  {
    if s == [] then s
    else if s[0] == '#' then s[1..]
    else [s[0]] + StripHash(s[1..])
  }

  /** Exactly the first '#' goes: what precedes it and everything after it are kept. */
  lemma {:induction false} StripHashFirst(a: string, b: string)
    requires '#' !in a
    ensures StripHash(a + "#" + b) == a + b
  {
    var s := a + "#" + b;
    if a == [] {
      assert s[0] == '#' && s[1..] == b;
    } else {
      assert s[0] == a[0] && s[0] != '#';
      assert s[1..] == a[1..] + "#" + b;
      StripHashFirst(a[1..], b);
      assert [a[0]] + (a[1..] + b) == a + b;
    }
  }

  // ---------------------------------------------------------------- sync rules

  /** The part a rule copies from: the changed part when it names one in the rule, else the first. */
  function Reference(rule: Rule, name: Option<string>): (r: string)
    requires |rule| > 0
    ensures r in rule
    ensures name.Some? && name.value in rule ==> r == name.value
  {
    if name.Some? && name.value in rule then name.value else rule[0]
  }

  /**
   * Writes `value` into each target in turn; the first target missing from the parts, or a
   * missing value, throws `TypeError` with the earlier writes kept.
   */
  function CopyTo(parts: Parts, value: Option<PartValue>, targets: seq<string>): (Parts, Outcome)
    decreases |targets|
  {
    if targets == [] then (parts, Done)
    else if value.None? || !Has(parts, targets[0]) then (parts, Thrown(TypeError))
    else CopyTo(Put(parts, targets[0], value.value), value, targets[1..])
  }

  /** One rule of the plugin's "part" handler; an empty rule writes nothing. */
  function SyncRule(parts: Parts, name: Option<string>, rule: Rule): (Parts, Outcome)
  {
    if rule == [] then (parts, Done) else CopyTo(parts, Get(parts, Reference(rule, name)), rule)
  }

  /** The handler over all rules in order, stopping at the first exception. */
  function SyncAll(parts: Parts, name: Option<string>, rules: seq<Rule>): (Parts, Outcome)
    decreases |rules|
  {
    if rules == [] then (parts, Done)
    else
      var (next, outcome) := SyncRule(parts, name, rules[0]);
      if outcome.Thrown? then (next, outcome) else SyncAll(next, name, rules[1..])
  }

  lemma {:induction false} CopyToKeys(parts: Parts, value: Option<PartValue>, targets: seq<string>)
    ensures Keys(CopyTo(parts, value, targets).0) == Keys(parts)
    decreases |targets|
  {
    if targets != [] && value.Some? && Has(parts, targets[0]) {
      KeysPut(parts, targets[0], value.value);
      CopyToKeys(Put(parts, targets[0], value.value), value, targets[1..]);
    }
  }

  /** A rule fails exactly when one of its parts, or the value to copy, is missing. */
  lemma {:induction false} CopyToFails(parts: Parts, v: PartValue, targets: seq<string>)
    ensures CopyTo(parts, Some(v), targets).1.Thrown? <==> exists t :: t in targets && !Has(parts, t)
    ensures CopyTo(parts, Some(v), targets).1.Thrown? ==> CopyTo(parts, Some(v), targets).1.error == TypeError
    decreases |targets|
  {
    if targets != [] && Has(parts, targets[0]) {
      var next := Put(parts, targets[0], v);
      KeysPut(parts, targets[0], v);
      assert forall t :: Has(next, t) <==> Has(parts, t);
      CopyToFails(next, v, targets[1..]);
      assert forall t :: t in targets <==> t == targets[0] || t in targets[1..];
    }
  }

  /** After a successful copy every target holds the value and every other part is untouched. */
  lemma {:induction false} CopyToAgrees(parts: Parts, v: PartValue, targets: seq<string>)
    requires CopyTo(parts, Some(v), targets).1 == Done
    ensures forall t :: t in targets ==> Get(CopyTo(parts, Some(v), targets).0, t) == Some(v)
    ensures forall k :: k !in targets ==> Get(CopyTo(parts, Some(v), targets).0, k) == Get(parts, k)
    decreases |targets|
  {
    if targets != [] {
      var next := Put(parts, targets[0], v);
      CopyToAgrees(next, v, targets[1..]);
      var result := CopyTo(parts, Some(v), targets).0;
      assert result == CopyTo(next, Some(v), targets[1..]).0;
      forall k
        ensures Get(next, k) == if k == targets[0] then Some(v) else Get(parts, k)
      {
        GetPut(parts, targets[0], v, k);
      }
      assert forall t :: t in targets <==> t == targets[0] || t in targets[1..];
    }
  }

  /**
   * After a rule ran without error, every part of the rule holds the value its reference part
   * had before, and the parts outside the rule are untouched.
   */
  lemma SyncRuleAgrees(parts: Parts, name: Option<string>, rule: Rule)
    requires |rule| > 0 && SyncRule(parts, name, rule).1 == Done
    ensures Get(parts, Reference(rule, name)).Some?
    ensures forall t :: t in rule ==> Get(SyncRule(parts, name, rule).0, t) == Get(parts, Reference(rule, name))
    ensures forall k :: k !in rule ==> Get(SyncRule(parts, name, rule).0, k) == Get(parts, k)
  {
    var value := Get(parts, Reference(rule, name));
    assert value.Some?;
    CopyToAgrees(parts, value.value, rule);
  }

  /** A rule fails exactly when its reference part or another of its parts is missing. */
  lemma SyncRuleFails(parts: Parts, name: Option<string>, rule: Rule)
    requires |rule| > 0
    ensures SyncRule(parts, name, rule).1.Thrown? <==> exists t :: t in rule && !Has(parts, t)
  {
    var reference := Reference(rule, name);
    var value := Get(parts, reference);
    if value.Some? {
      CopyToFails(parts, value.value, rule);
    }
  }

  /** Writing back the value a key already holds changes nothing. */
  lemma {:induction false} PutSame<V>(d: Dict<V>, k: string, v: V)
    requires Get(d, k) == Some(v)
    ensures Put(d, k, v) == d
    decreases |d|
  {
    if d[0].0 != k {
      PutSame(d[1..], k, v);
      assert d == [d[0]] + d[1..];
    }
  }

  lemma {:induction false} CopyToSettled(parts: Parts, v: PartValue, targets: seq<string>)
    requires forall t :: t in targets ==> Get(parts, t) == Some(v)
    ensures CopyTo(parts, Some(v), targets) == (parts, Done)
    decreases |targets|
  {
    if targets != [] {
      PutSame(parts, targets[0], v);
      CopyToSettled(parts, v, targets[1..]);
    }
  }

  /** Running a rule a second time changes nothing. */
  lemma SyncRuleIdempotent(parts: Parts, name: Option<string>, rule: Rule)
    requires SyncRule(parts, name, rule).1 == Done
    ensures SyncRule(SyncRule(parts, name, rule).0, name, rule) == SyncRule(parts, name, rule)
  {
    if rule != [] {
      var once := SyncRule(parts, name, rule).0;
      SyncRuleAgrees(parts, name, rule);
      var v := Get(parts, Reference(rule, name)).value;
      assert Get(once, Reference(rule, name)) == Some(v);
      CopyToSettled(once, v, rule);
    }
  }

  // ---------------------------------------------------------------- setting parts

  /** What one part change produces: the new parts, how it ended, and what it triggered. */
  datatype Step = Step(parts: Parts, outcome: Outcome, events: seq<Emitted>)

  /**
   * `_setPart(part, material, color)` of ripe.js: a part that is not in the parts object throws
   * `TypeError` before anything changes; otherwise its value is replaced, "part" is triggered
   * with the value (which carries no name) and the sync rules run.
   */
  function SetPartStep(parts: Parts, rules: seq<Rule>, part: string, material: string, color: string): (s: Step)
    ensures !Has(parts, part) ==> s == Step(parts, Thrown(TypeError), [])
    ensures Has(parts, part) ==> s.events == [PartEvent(None, material, color)]
  {
    if !Has(parts, part) then Step(parts, Thrown(TypeError), [])
    else
      var (synced, outcome) := SyncAll(Put(parts, part, PartValue(material, color)), None, rules);
      Step(synced, outcome, [PartEvent(None, material, color)])
  }

  /** The loop of `setParts` over triples: one `_setPart` each, stopping at the first exception. */
  function ApplyTriples(parts: Parts, rules: seq<Rule>, triples: seq<(string, string, string)>): Step
    decreases |triples|
  {
    if triples == [] then Step(parts, Done, [])
    else
      var first := SetPartStep(parts, rules, triples[0].0, triples[0].1, triples[0].2);
      if first.outcome.Thrown? then first
      else
        var rest := ApplyTriples(first.parts, rules, triples[1..]);
        Step(rest.parts, rest.outcome, first.events + rest.events)
  }

  /** A run that already triggered `log`, followed by `s`. */
  function After(log: seq<Emitted>, s: Step): Step
  {
    Step(s.parts, s.outcome, log + s.events)
  }

  /** One more step of `ApplyTriples`, from position `i`: it either ends the run or the rest follows. */
  lemma ApplyTriplesAdvance(total: Step, log: seq<Emitted>, parts: Parts, rules: seq<Rule>,
                         triples: seq<(string, string, string)>, i: nat, step: Step)
    requires i < |triples|
    requires step == SetPartStep(parts, rules, triples[i].0, triples[i].1, triples[i].2)
    requires total == After(log, ApplyTriples(parts, rules, triples[i..]))
    ensures step.outcome.Thrown? ==> total == Step(step.parts, step.outcome, log + step.events)
    ensures step.outcome.Done? ==> total == After(log + step.events, ApplyTriples(step.parts, rules, triples[i + 1..]))
  {
    assert triples[i..][0] == triples[i] && triples[i..][1..] == triples[i + 1..];
  }

  /**
   * Re-applying triples that every part already holds, with no rules bound, changes no part and
   * throws nothing; each triple still triggers one nameless "part" event.
   */
  lemma {:induction false} ApplyTriplesSettled(parts: Parts, triples: seq<(string, string, string)>)
    requires forall i :: 0 <= i < |triples| ==> Get(parts, triples[i].0) == Some(PartValue(triples[i].1, triples[i].2))
    ensures ApplyTriples(parts, [], triples).parts == parts
    ensures ApplyTriples(parts, [], triples).outcome == Done
    ensures |ApplyTriples(parts, [], triples).events| == |triples|
    ensures forall i :: 0 <= i < |triples| ==>
      ApplyTriples(parts, [], triples).events[i] == PartEvent(None, triples[i].1, triples[i].2)
    decreases |triples|
  {
    if triples != [] {
      var t := triples[0];
      assert Get(parts, t.0) == Some(PartValue(t.1, t.2));
      PutSame(parts, t.0, PartValue(t.1, t.2));
      assert forall i :: 0 <= i < |triples[1..]| ==> triples[1..][i] == triples[i + 1];
      ApplyTriplesSettled(parts, triples[1..]);
    }
  }

  /** The frame table `getFrames` derives from a configuration: one frame per face. */
  function FacesTable(faces: seq<string>): Dict<nat>
    decreases |faces|
  {
    if faces == [] then [] else Put(FacesTable(faces[..|faces| - 1]), faces[|faces| - 1], 1)
  }

  /** The faces with one frame each, then "side" with the configuration's frame count. */
  function FramesTable(config: ModelConfig): Dict<nat>
  {
    Put(FacesTable(config.faces), "side", config.frames)
  }

  lemma {:induction false} FacesTableGet(faces: seq<string>, k: string)
    ensures Get(FacesTable(faces), k) == if k in faces then Some(1) else None
    decreases |faces|
  {
    if faces != [] {
      var init := faces[..|faces| - 1];
      FacesTableGet(init, k);
      GetPut(FacesTable(init), faces[|faces| - 1], 1, k);
      assert faces == init + [faces[|faces| - 1]];
      assert k in faces <==> k in init || k == faces[|faces| - 1];
    }
  }

  /** Every face has one frame, "side" has the configuration's count, and nothing else is present. */
  lemma FramesTableGet(config: ModelConfig, k: string)
    ensures k == "side" ==> Get(FramesTable(config), k) == Some(config.frames)
    ensures k != "side" && k in config.faces ==> Get(FramesTable(config), k) == Some(1)
    ensures k != "side" && k !in config.faces ==> Get(FramesTable(config), k) == None
  {
    GetPut(FacesTable(config.faces), "side", config.frames, k);
    FacesTableGet(config.faces, k);
  }

  class Ripe {
    const brand: string
    const model: string
    const variant: string
    const url: string
    const country: string
    const currency: string
    const format: string
    /** The background colour with its first '#' removed. */
    const backgroundColor: string
    const useDefaults: bool
    const useCombinations: bool
    const usePrice: bool
    /** `options.frames`, which `getFrames` prefers to the configuration. */
    const optionFrames: Option<Dict<nat>>

    var parts: Parts
    var initials: string
    var engraving: string
    var ready: bool
    /** The rules of the sync plugins bound to "part", in binding order. */
    var syncRules: seq<Rule>
    var emitted: seq<Emitted>

    /** The fields the query and URL builders read (`this.frame` is never set). */
    function State(): Product
      reads this`parts, this`engraving
    {
      StateOf(parts, engraving)
    }

    /** The product these parts and this engraving describe, with the instance's other fields. */
    function StateOf(parts: Parts, engraving: string): Product
    {
      Product(url, brand, model, variant, "", parts, engraving, country, currency)
    }

    /** What `update()` hands out: the children's update, then "update" and the price when ready. */
    function UpdateEffects(): seq<Emitted>
      reads this`parts, this`initials, this`engraving, this`ready
    {
      Effects(parts, initials, engraving, ready)
    }

    /** What `update()` hands out for these parts, initials and engraving, ready or not. */
    function Effects(parts: Parts, initials: string, engraving: string, isReady: bool): seq<Emitted>
    {
      [ChildrenUpdated(parts, initials, engraving)]
      + (if isReady then [UpdateEvent] else [])
      + (if isReady && usePrice then [Requested(PriceRequest, StateOf(parts, engraving))] else [])
    }

    /**
     * `init(brand, model, options)`. The defaults are requested only when no parts were given
     * and defaults are in use; the combinations when in use. The instance is ready exactly when
     * it was given a non-empty parts object.
     */
    constructor(brand: string, model: string, options: RipeOptions)
      ensures this.brand == brand && this.model == model
      ensures variant == options.variant && country == options.country && currency == options.currency
      ensures url == Or(options.url, DefaultURL)
      ensures format == Or(options.format, "jpeg")
      ensures backgroundColor == StripHash(options.backgroundColor)
      ensures useDefaults == UseFlag(options.useDefaults, options.noDefaults)
      ensures useCombinations == UseFlag(options.useCombinations, options.noCombinations)
      ensures usePrice == UseFlag(options.usePrice, options.noPrice)
      ensures optionFrames == options.frames
      ensures parts == (if options.parts.Some? then options.parts.value else [])
      ensures initials == "" && engraving == "" && syncRules == []
      ensures ready <==> parts != []
      ensures emitted ==
        (if parts == [] && useDefaults then [Requested(DefaultsRequest, State())] else [])
        + (if useCombinations then [Requested(CombinationsRequest, State())] else [])
    {
      this.brand := brand;
      this.model := model;
      variant := options.variant;
      url := Or(options.url, DefaultURL);
      parts := if options.parts.Some? then options.parts.value else [];
      initials := "";
      engraving := "";
      country := options.country;
      currency := options.currency;
      format := Or(options.format, "jpeg");
      backgroundColor := StripHash(options.backgroundColor);
      useDefaults := UseFlag(options.useDefaults, options.noDefaults);
      useCombinations := UseFlag(options.useCombinations, options.noCombinations);
      usePrice := UseFlag(options.usePrice, options.noPrice);
      optionFrames := options.frames;
      syncRules := [];
      new;
      var hasParts := parts != [];
      var loadDefaults := !hasParts && useDefaults;
      emitted := [];
      if loadDefaults {
        emitted := emitted + [Requested(DefaultsRequest, State())];
      }
      if useCombinations {
        emitted := emitted + [Requested(CombinationsRequest, State())];
      }
      ready := hasParts;
    }

    /** `update()`: the children are updated; "update" and a price request follow when ready. */
    method Update()
      modifies this
      ensures emitted == old(emitted) + old(UpdateEffects())
      ensures parts == old(parts) && ready == old(ready) && syncRules == old(syncRules)
      ensures initials == old(initials) && engraving == old(engraving)
    {
      emitted := emitted + UpdateEffects();
    }

    /**
     * The parts loader's callback in `init`: the loaded defaults (or, without them, the parts
     * already held) become the parts, the instance is ready, and it updates and triggers "parts".
     */
    method PartsLoaded(result: Option<Parts>)
      modifies this
      ensures parts == (if result.Some? then result.value else old(parts))
      ensures ready && syncRules == old(syncRules)
      ensures emitted == old(emitted) + UpdateEffects() + [PartsEvent(parts)]
    {
      parts := if result.Some? then result.value else parts;
      ready := true;
      Update();
      emitted := emitted + [PartsEvent(parts)];
    }

    /** The sync plugin's "part" handler, rule by rule and part by part. */
    method Sync(name: Option<string>) returns (outcome: Outcome)
      modifies this
      ensures (parts, outcome) == SyncAll(old(parts), name, syncRules)
      ensures emitted == old(emitted) && ready == old(ready) && syncRules == old(syncRules)
      ensures initials == old(initials) && engraving == old(engraving)
    {
      var r := 0;
      while r < |syncRules|
        invariant 0 <= r <= |syncRules|
        invariant SyncAll(parts, name, syncRules[r..]) == SyncAll(old(parts), name, syncRules)
        invariant emitted == old(emitted) && ready == old(ready) && syncRules == old(syncRules)
        invariant initials == old(initials) && engraving == old(engraving)
      {
        var rule := syncRules[r];
        assert syncRules[r..][0] == rule && syncRules[r..][1..] == syncRules[r + 1..];
        if |rule| > 0 {
          var value := Get(parts, Reference(rule, name));
          ghost var start := parts;
          var i := 0;
          while i < |rule|
            invariant 0 <= i <= |rule|
            invariant CopyTo(parts, value, rule[i..]) == CopyTo(start, value, rule)
            invariant emitted == old(emitted) && ready == old(ready) && syncRules == old(syncRules)
            invariant initials == old(initials) && engraving == old(engraving)
          {
            assert rule[i..][0] == rule[i] && rule[i..][1..] == rule[i + 1..];
            if value.None? || !Has(parts, rule[i]) {
              outcome := Thrown(TypeError);
              return;
            }
            parts := Put(parts, rule[i], value.value);
            i := i + 1;
          }
          assert rule[i..] == [];
        }
        r := r + 1;
      }
      assert syncRules[r..] == [];
      outcome := Done;
    }

    /**
     * `_setPart(part, material, color)`, with the sync handler it triggers. The events it
     * triggers are returned for the caller to record; the sync handler triggers none.
     */
    method SetPartValue(part: string, material: string, color: string) returns (outcome: Outcome, events: seq<Emitted>)
      modifies this
      ensures var s := SetPartStep(old(parts), syncRules, part, material, color);
        parts == s.parts && outcome == s.outcome && events == s.events && emitted == old(emitted)
      ensures ready == old(ready) && syncRules == old(syncRules)
      ensures initials == old(initials) && engraving == old(engraving)
    {
      if !Has(parts, part) {
        outcome, events := Thrown(TypeError), [];
        return;
      }
      parts := Put(parts, part, PartValue(material, color));
      events := [PartEvent(None, material, color)];
      outcome := Sync(None);
    }

    /** `setPart(part, material, color, noUpdate)`. */
    method SetPart(part: string, material: string, color: string, noUpdate: bool) returns (outcome: Outcome)
      modifies this
      ensures var s := SetPartStep(old(parts), syncRules, part, material, color);
        parts == s.parts && outcome == s.outcome
        && emitted == old(emitted) + s.events
                      + (if s.outcome.Done? && !noUpdate then UpdateEffects() + [PartsEvent(parts)] else [])
      ensures ready == old(ready) && syncRules == old(syncRules)
    {
      var events;
      outcome, events := SetPartValue(part, material, color);
      emitted := emitted + events;
      if outcome.Thrown? || noUpdate {
        return;
      }
      Update();
      emitted := emitted + [PartsEvent(parts)];
    }

    /** The loop of `setParts` over an array of triples. */
    method SetPartValues(triples: seq<(string, string, string)>) returns (outcome: Outcome)
      modifies this
      ensures var s := ApplyTriples(old(parts), syncRules, triples);
        parts == s.parts && outcome == s.outcome && emitted == old(emitted) + s.events
      ensures ready == old(ready) && syncRules == old(syncRules)
      ensures initials == old(initials) && engraving == old(engraving)
    {
      var rules := syncRules;
      var before := emitted;
      ghost var total := ApplyTriples(parts, rules, triples);
      var log: seq<Emitted> := [];
      var index := 0;
      outcome := Done;
      while index < |triples|
        invariant 0 <= index <= |triples|
        invariant total == After(log, ApplyTriples(parts, rules, triples[index..]))
        invariant ready == old(ready) && syncRules == rules
        invariant initials == old(initials) && engraving == old(engraving)
        invariant outcome == Done
      {
        ghost var step := SetPartStep(parts, rules, triples[index].0, triples[index].1, triples[index].2);
        ApplyTriplesAdvance(total, log, parts, rules, triples, index, step);
        var events;
        outcome, events := SetPartValue(triples[index].0, triples[index].1, triples[index].2);
        log := log + events;
        if outcome.Thrown? {
          assert total == Step(parts, outcome, log);
          emitted := before + log;
          return;
        }
        index := index + 1;
      }
      assert triples[index..] == [];
      assert total == Step(parts, Done, log);
      emitted := before + log;
    }

    /**
     * `setParts(update, noUpdate)`. The loop reads `update.length`: an array of triples is
     * applied in order, while a parts object has no length and applies nothing.
     */
    method SetParts(update: PartsUpdate, noUpdate: bool) returns (outcome: Outcome)
      modifies this
      ensures var s := if update.Triples? then ApplyTriples(old(parts), syncRules, update.triples)
                       else Step(old(parts), Done, []);
        parts == s.parts && outcome == s.outcome
        && emitted == old(emitted) + s.events
                      + (if s.outcome.Done? && !noUpdate then UpdateEffects() + [PartsEvent(parts)] else [])
      ensures ready == old(ready) && syncRules == old(syncRules)
    {
      var triples := if update.Triples? then update.triples else [];
      outcome := SetPartValues(triples);
      if outcome.Thrown? || noUpdate {
        return;
      }
      Update();
      emitted := emitted + [PartsEvent(parts)];
    }

    /** `setInitials(initials, engraving, noUpdate)`. */
    method SetInitials(initials: string, engraving: string, noUpdate: bool)
      modifies this
      ensures this.initials == initials && this.engraving == engraving
      ensures parts == old(parts) && ready == old(ready) && syncRules == old(syncRules)
      ensures emitted == old(emitted) + (if noUpdate then [] else UpdateEffects())
    {
      this.initials := initials;
      this.engraving := engraving;
      if noUpdate {
        return;
      }
      Update();
    }

    /**
     * `SyncPlugin.register`: binds the rules' handler and re-submits a copy of the parts to
     * trigger it. ripe.js's `setParts` takes the copy for an array, so no rule runs.
     */
    method RegisterSync(rules: seq<Rule>) returns (outcome: Outcome)
      modifies this
      ensures syncRules == old(syncRules) + rules
      ensures parts == old(parts) && outcome == Done
      ensures emitted == old(emitted) + UpdateEffects() + [PartsEvent(parts)]
    {
      syncRules := syncRules + rules;
      outcome := SetParts(Object(parts), false);
    }

    /**
     * `getFrames`: `options.frames` when given; otherwise the table built from the configuration,
     * one frame per face and the configuration's frame count for "side".
     */
    method GetFrames(config: ModelConfig) returns (frames: Dict<nat>)
      ensures optionFrames.Some? ==> frames == optionFrames.value
      ensures optionFrames.None? ==> frames == FramesTable(config)
    {
      if optionFrames.Some? {
        return optionFrames.value;
      }
      frames := [];
      var index := 0;
      while index < |config.faces|
        invariant 0 <= index <= |config.faces|
        invariant frames == FacesTable(config.faces[..index])
      {
        assert config.faces[..index + 1][..index] == config.faces[..index];
        frames := Put(frames, config.faces[index], 1);
        index := index + 1;
      }
      assert config.faces[..index] == config.faces;
      frames := Put(frames, "side", config.frames);
    }
  }

  /**
   * In ripe.js a change to a rule's part other than its first is undone by the sync handler:
   * the value carries no name, so the rule copies from its first part.
   */
  lemma SyncRevertsChange(parts: Parts, rule: Rule, x: string, chosen: PartValue)
    requires |rule| > 0 && x in rule && x != rule[0]
    requires forall t :: t in rule ==> Has(parts, t)
    requires Get(parts, rule[0]) != Some(chosen)
    ensures var s := SetPartStep(parts, [rule], x, chosen.material, chosen.color);
      s.outcome == Done && Get(s.parts, x) == Get(parts, rule[0]) && Get(s.parts, x) != Some(chosen)
  {
    var changed := Put(parts, x, chosen);
    assert Has(changed, rule[0]) && forall t :: t in rule ==> Has(changed, t) by {
      KeysPut(parts, x, chosen);
    }
    assert Get(changed, rule[0]) == Get(parts, rule[0]) by {
      GetPut(parts, x, chosen, rule[0]);
    }
    var synced := SyncRule(changed, None, rule);
    SyncRuleFails(changed, None, rule);
    assert synced.1 == Done;
    SyncRuleAgrees(changed, None, rule);
    assert Get(synced.0, x) == Get(parts, rule[0]);
    SyncSingle(changed, None, rule);
  }

  lemma SyncSingle(parts: Parts, name: Option<string>, rule: Rule)
    requires SyncRule(parts, name, rule).1 == Done
    ensures SyncAll(parts, name, [rule]) == SyncRule(parts, name, rule)
  {
    assert [rule][1..] == [];
  }
}
