/**
 * The part setters of the minified build (src/js/ripe-min.js), over the same instance state as
 * ripe.js: an unknown part is created, the "part" event names the part, so the sync rules copy
 * from the part just changed, and `setParts` also takes a parts object, listed with `_partsList`.
 */
module ProductMin {
  import opened Wrappers
  import opened Dicts
  import opened Query
  import opened Product

  /**
   * `setPart(part, material, color)` of the minified build: `parts[part] || {}` gets the new
   * material and colour, "part" is triggered with `{name, material, color}`, and the sync rules
   * run with that name.
   */
  function SetPartMinStep(parts: Parts, rules: seq<Rule>, part: string, material: string, color: string): (s: Step)
    ensures s.events == [PartEvent(Some(part), material, color)]
    ensures rules == [] ==> s.parts == Put(parts, part, PartValue(material, color)) && s.outcome == Done
  {
    var (synced, outcome) := SyncAll(Put(parts, part, PartValue(material, color)), Some(part), rules);
    Step(synced, outcome, [PartEvent(Some(part), material, color)])
  }

  /** The loop of the minified `setParts`: one `setPart` per triple, stopping at an exception. */
  function ApplyTriplesMin(parts: Parts, rules: seq<Rule>, triples: seq<(string, string, string)>): Step
    decreases |triples|
  {
    if triples == [] then Step(parts, Done, [])
    else
      var first := SetPartMinStep(parts, rules, triples[0].0, triples[0].1, triples[0].2);
      if first.outcome.Thrown? then first
      else
        var rest := ApplyTriplesMin(first.parts, rules, triples[1..]);
        Step(rest.parts, rest.outcome, first.events + rest.events)
  }

  /** `_partsList(parts)`: one `[name, material, color]` per part, in key order. */
  function PartsTriples(parts: Parts): (r: seq<(string, string, string)>)
    ensures |r| == |parts|
    ensures forall i :: 0 <= i < |parts| ==> r[i] == (parts[i].0, parts[i].1.material, parts[i].1.color)
    decreases |parts|
  {
    if parts == [] then []
    else [(parts[0].0, parts[0].1.material, parts[0].1.color)] + PartsTriples(parts[1..])
  }

  /** `_partsList`, the loop over the object's keys. */
  method PartsList(parts: Parts) returns (triples: seq<(string, string, string)>)
    ensures triples == PartsTriples(parts)
  {
    triples := [];
    var index := 0;
    while index < |parts|
      invariant 0 <= index <= |parts|
      invariant |triples| == index
      invariant forall i :: 0 <= i < index ==> triples[i] == (parts[i].0, parts[i].1.material, parts[i].1.color)
    {
      triples := triples + [(parts[index].0, parts[index].1.material, parts[index].1.color)];
      index := index + 1;
    }
  }

  /** In a dictionary without repeated keys, each entry is what `Get` finds for its key. */
  lemma {:induction false} GetEntry<V>(d: Dict<V>, i: nat)
    requires Wf(d) && i < |d|
    ensures Get(d, d[i].0) == Some(d[i].1)
    decreases i
  {
    if i > 0 {
      assert Wf(d[1..]) by {
        forall a, b | 0 <= a < b < |d[1..]| ensures d[1..][a].0 != d[1..][b].0 {
          assert d[1..][a] == d[a + 1] && d[1..][b] == d[b + 1];
        }
      }
      assert d[0].0 != d[i].0;
      GetEntry(d[1..], i - 1);
    }
  }

  /** Re-applying triples that every part already holds, with no rules bound, changes nothing. */
  lemma {:induction false} SettledTriples(parts: Parts, triples: seq<(string, string, string)>)
    requires forall i :: 0 <= i < |triples| ==> Get(parts, triples[i].0) == Some(PartValue(triples[i].1, triples[i].2))
    ensures ApplyTriplesMin(parts, [], triples).parts == parts
    ensures ApplyTriplesMin(parts, [], triples).outcome == Done
    decreases |triples|
  {
    if triples != [] {
      var t := triples[0];
      assert Get(parts, t.0) == Some(PartValue(t.1, t.2));
      PutSame(parts, t.0, PartValue(t.1, t.2));
      assert forall i :: 0 <= i < |triples[1..]| ==> triples[1..][i] == triples[i + 1];
      SettledTriples(parts, triples[1..]);
    }
  }

  /** Listing the parts and applying the list back, with no rules bound, gives the same parts. */
  lemma PartsListRoundTrip(parts: Parts)
    requires Wf(parts)
    ensures ApplyTriplesMin(parts, [], PartsTriples(parts)).parts == parts
  {
    var triples := PartsTriples(parts);
    forall i | 0 <= i < |triples|
      ensures Get(parts, triples[i].0) == Some(PartValue(triples[i].1, triples[i].2))
    {
      GetEntry(parts, i);
    }
    SettledTriples(parts, triples);
  }

  /** With the part's name in the event, a change to any member of a rule spreads to all of them. */
  lemma SyncKeepsChange(parts: Parts, rule: Rule, x: string, chosen: PartValue)
    requires x in rule
    requires forall t :: t in rule ==> Has(parts, t)
    ensures var s := SetPartMinStep(parts, [rule], x, chosen.material, chosen.color);
      s.outcome == Done && forall t :: t in rule ==> Get(s.parts, t) == Some(chosen)
  {
    var changed := Put(parts, x, chosen);
    assert forall t :: t in rule ==> Has(changed, t) by {
      KeysPut(parts, x, chosen);
    }
    assert Get(changed, x) == Some(chosen) by {
      GetPut(parts, x, chosen, x);
    }
    SyncRuleFails(changed, Some(x), rule);
    SyncRuleAgrees(changed, Some(x), rule);
    SyncSingle(changed, Some(x), rule);
  }

  /**
   * After applying at least one triple with a single rule bound and no exception, every part of
   * the rule holds the same value: the last step's sync leaves them agreeing.
   */
  lemma {:induction false} TriplesLeaveRuleAgreeing(parts: Parts, rule: Rule, triples: seq<(string, string, string)>)
    requires triples != [] && rule != []
    requires ApplyTriplesMin(parts, [rule], triples).outcome == Done
    ensures forall a, b :: a in rule && b in rule ==>
      Get(ApplyTriplesMin(parts, [rule], triples).parts, a) == Get(ApplyTriplesMin(parts, [rule], triples).parts, b)
    decreases |triples|
  {
    var t := triples[0];
    var first := SetPartMinStep(parts, [rule], t.0, t.1, t.2);
    var changed := Put(parts, t.0, PartValue(t.1, t.2));
    if |triples| == 1 {
      assert ApplyTriplesMin(first.parts, [rule], triples[1..]) == Step(first.parts, Done, []);
      SyncSingle(changed, Some(t.0), rule);
      SyncRuleAgrees(changed, Some(t.0), rule);
    } else {
      TriplesLeaveRuleAgreeing(first.parts, rule, triples[1..]);
    }
  }

  /**
   * `setParts(update, noUpdate)` of the minified build. The triples are applied as
   * `SetPartMinStep` says, a parts object first being listed with `_partsList`.
   */
  method SetPartsMin(r: Ripe, update: PartsUpdate, noUpdate: bool) returns (outcome: Outcome)
    modifies r
    ensures var triples := if update.Triples? then update.triples else PartsTriples(update.entries);
      var s := ApplyTriplesMin(old(r.parts), r.syncRules, triples);
      r.parts == s.parts && outcome == s.outcome
      && r.emitted == old(r.emitted) + s.events
                      + (if s.outcome.Done? && !noUpdate then r.UpdateEffects() + [PartsEvent(r.parts)] else [])
    ensures r.ready == old(r.ready) && r.syncRules == old(r.syncRules)
  {
    var triples;
    if update.Triples? {
      triples := update.triples;
    } else {
      triples := PartsList(update.entries);
    }
    outcome := SetPartValuesMin(r, triples);
    if outcome.Thrown? || noUpdate {
      return;
    }
    r.Update();
    r.emitted := r.emitted + [PartsEvent(r.parts)];
  }

  /**
   * One minified `setPart(part, material, color, true)`, its sync handler included; the events
   * it triggers are returned for the caller to record.
   */
  method SetPartValueMin(r: Ripe, part: string, material: string, color: string) returns (outcome: Outcome, events: seq<Emitted>)
    modifies r
    ensures var s := SetPartMinStep(old(r.parts), r.syncRules, part, material, color);
      r.parts == s.parts && outcome == s.outcome && events == s.events && r.emitted == old(r.emitted)
    ensures r.ready == old(r.ready) && r.syncRules == old(r.syncRules)
    ensures r.initials == old(r.initials) && r.engraving == old(r.engraving)
  {
    r.parts := Put(r.parts, part, PartValue(material, color));
    events := [PartEvent(Some(part), material, color)];
    outcome := r.Sync(Some(part));
  }

  /** `setPart(part, material, color, noUpdate)` of the minified build. */
  method SetPartMin(r: Ripe, part: string, material: string, color: string, noUpdate: bool) returns (outcome: Outcome)
    modifies r
    ensures var s := SetPartMinStep(old(r.parts), r.syncRules, part, material, color);
      r.parts == s.parts && outcome == s.outcome
      && r.emitted == old(r.emitted) + s.events
                      + (if s.outcome.Done? && !noUpdate then r.UpdateEffects() + [PartsEvent(r.parts)] else [])
    ensures r.ready == old(r.ready) && r.syncRules == old(r.syncRules)
  {
    var events;
    outcome, events := SetPartValueMin(r, part, material, color);
    r.emitted := r.emitted + events;
    if outcome.Thrown? || noUpdate {
      return;
    }
    r.Update();
    r.emitted := r.emitted + [PartsEvent(r.parts)];
  }

  /** The loop of the minified `setParts`. */
  method SetPartValuesMin(r: Ripe, triples: seq<(string, string, string)>) returns (outcome: Outcome)
    modifies r
    ensures var s := ApplyTriplesMin(old(r.parts), r.syncRules, triples);
      r.parts == s.parts && outcome == s.outcome && r.emitted == old(r.emitted) + s.events
    ensures r.ready == old(r.ready) && r.syncRules == old(r.syncRules)
    ensures r.initials == old(r.initials) && r.engraving == old(r.engraving)
  {
    var rules := r.syncRules;
    var before := r.emitted;
    ghost var total := ApplyTriplesMin(r.parts, rules, triples);
    var log: seq<Emitted> := [];
    var index := 0;
    outcome := Done;
    while index < |triples|
      invariant 0 <= index <= |triples|
      invariant total == After(log, ApplyTriplesMin(r.parts, rules, triples[index..]))
      invariant r.ready == old(r.ready) && r.syncRules == rules && r.emitted == before
      invariant r.initials == old(r.initials) && r.engraving == old(r.engraving)
      invariant outcome == Done
    {
      ghost var step := SetPartMinStep(r.parts, rules, triples[index].0, triples[index].1, triples[index].2);
      ApplyTriplesMinAdvance(total, log, r.parts, rules, triples, index, step);
      var events;
      outcome, events := SetPartValueMin(r, triples[index].0, triples[index].1, triples[index].2);
      log := log + events;
      if outcome.Thrown? {
        r.emitted := before + log;
        return;
      }
      index := index + 1;
    }
    assert triples[index..] == [];
    r.emitted := before + log;
  }

  /**
   * The minified parts loader's callback: the loaded defaults (or the parts already held) are
   * listed and applied over the current parts, then the instance is ready and updates.
   */
  method PartsLoadedMin(r: Ripe, result: Option<Parts>) returns (outcome: Outcome)
    modifies r
    ensures var loaded := if result.Some? then result.value else old(r.parts);
      var s := ApplyTriplesMin(old(r.parts), r.syncRules, PartsTriples(loaded));
      r.parts == s.parts && outcome == s.outcome
    ensures var loaded := if result.Some? then result.value else old(r.parts);
      var s := ApplyTriplesMin(old(r.parts), r.syncRules, PartsTriples(loaded));
      if outcome.Done? then
        r.ready && r.emitted == old(r.emitted) + s.events
                                + r.Effects(r.parts, r.initials, r.engraving, old(r.ready)) + [PartsEvent(r.parts)]
                                + r.Effects(r.parts, r.initials, r.engraving, true)
      else
        r.ready == old(r.ready) && r.emitted == old(r.emitted) + s.events
    ensures r.syncRules == old(r.syncRules)
  {
    var loaded := if result.Some? then result.value else r.parts;
    var triples := PartsList(loaded);
    ghost var s := ApplyTriplesMin(r.parts, r.syncRules, triples);
    ghost var wasReady := r.ready;
    outcome := SetPartsMin(r, Triples(triples), false);
    ghost var mid := r.emitted;
    assert r.parts == s.parts && outcome == s.outcome;
    if outcome.Thrown? {
      assert mid == old(r.emitted) + s.events;
      return;
    }
    assert mid == old(r.emitted) + s.events
                  + r.Effects(r.parts, r.initials, r.engraving, wasReady) + [PartsEvent(r.parts)];
    r.ready := true;
    r.Update();
    assert r.emitted == mid + r.Effects(r.parts, r.initials, r.engraving, true);
  }

  /**
   * `SyncPlugin.register` with the minified `setParts`: the rules' handler is bound and a copy of
   * the parts is applied back part by part, so each rule is brought into agreement.
   */
  method RegisterSyncMin(r: Ripe, rules: seq<Rule>) returns (outcome: Outcome)
    modifies r
    ensures r.syncRules == old(r.syncRules) + rules
    ensures var s := ApplyTriplesMin(old(r.parts), r.syncRules, PartsTriples(old(r.parts)));
      r.parts == s.parts && outcome == s.outcome
      && r.emitted == old(r.emitted) + s.events
                      + (if s.outcome.Done? then r.UpdateEffects() + [PartsEvent(r.parts)] else [])
    ensures r.ready == old(r.ready)
  {
    r.syncRules := r.syncRules + rules;
    outcome := SetPartsMin(r, Object(r.parts), false);
  }

  /** One more step of `ApplyTriplesMin`, from position `i`: it either ends the run or the rest follows. */
  lemma ApplyTriplesMinAdvance(total: Step, log: seq<Emitted>, parts: Parts, rules: seq<Rule>,
                         triples: seq<(string, string, string)>, i: nat, step: Step)
    requires i < |triples|
    requires step == SetPartMinStep(parts, rules, triples[i].0, triples[i].1, triples[i].2)
    requires total == After(log, ApplyTriplesMin(parts, rules, triples[i..]))
    ensures step.outcome.Thrown? ==> total == Step(step.parts, step.outcome, log + step.events)
    ensures step.outcome.Done? ==> total == After(log + step.events, ApplyTriplesMin(step.parts, rules, triples[i + 1..]))
  {
    assert triples[i..][0] == triples[i] && triples[i..][1..] == triples[i + 1..];
  }

  /** The parameters the minified `_getImageURL` appends to the query: those of ripe.js but crop. */
  function ImageParamsMin(io: ImageOptions): (params: string)
    ensures params == ImageParams(io.(crop := false))
  {
    var lead := Param("format", io.format) + Param("width", io.width) + Param("height", io.height)
      + Param("size", io.size) + Param("background", io.background);
    assert lead + "" == lead;
    lead + ProfileParam(io.profile) + InitialsParam(io.initials)
  }

  /** `_getImageURL` of the minified build: as in ripe.js, without the crop parameter. */
  function ImageURLMin(p: Query.Product, io: ImageOptions): (url: string)
    ensures url == ImageURL(p, io.(crop := false))
  {
    p.url + "compose?" + Query.Query(p, io.query) + ImageParamsMin(io)
  }
}
