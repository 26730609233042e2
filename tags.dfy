/**
 * The tag predicates of a loaded configuration (`hasCustomization`, `hasPersonalization`,
 * `hasSize`). A configuration without tags counts as having none.
 */
module Tags {
  import opened Wrappers

  /** `this.loadedConfig.tags || []`. */
  function TagList(tags: Option<seq<string>>): (r: seq<string>)
    ensures tags.None? ==> r == []
    ensures tags.Some? ==> r == tags.value
  {
    if tags.Some? then tags.value else []
  }

  function HasCustomization(tags: Option<seq<string>>): (r: bool)
    ensures r <==> "no_customization" !in TagList(tags)
  {
    !("no_customization" in TagList(tags))
  }

  function HasPersonalization(tags: Option<seq<string>>): (r: bool)
    ensures !r <==> "no_initials" in TagList(tags) || "no_personalization" in TagList(tags)
  {
    !("no_initials" in TagList(tags)) && !("no_personalization" in TagList(tags))
  }

  function HasSize(tags: Option<seq<string>>): (r: bool)
    ensures r <==> "no_size" !in TagList(tags)
  {
    !("no_size" in TagList(tags))
  }

  /** Without tags every feature is available. */
  lemma MissingTagsAllowEverything()
    ensures HasCustomization(None) && HasPersonalization(None) && HasSize(None)
  {
  }

  /** Each predicate looks at its own tags only: adding an unrelated tag changes none of them. */
  lemma UnrelatedTagIgnored(tags: seq<string>, t: string)
    requires t !in {"no_customization", "no_initials", "no_personalization", "no_size"}
    ensures HasCustomization(Some(tags + [t])) == HasCustomization(Some(tags))
    ensures HasPersonalization(Some(tags + [t])) == HasPersonalization(Some(tags))
    ensures HasSize(Some(tags + [t])) == HasSize(Some(tags))
  {
    assert forall x :: x in tags + [t] <==> x in tags || x == t;
  }

  /**
   * Tags only ever switch features off: a feature available after a tag is added was
   * available before, and adding one of its own tags switches it off.
   */
  lemma AddedTagOnlyDisables(tags: seq<string>, t: string)
    ensures HasCustomization(Some(tags + [t])) ==> HasCustomization(Some(tags))
    ensures HasPersonalization(Some(tags + [t])) ==> HasPersonalization(Some(tags))
    ensures HasSize(Some(tags + [t])) ==> HasSize(Some(tags))
    ensures t == "no_customization" ==> !HasCustomization(Some(tags + [t]))
    ensures t == "no_initials" || t == "no_personalization" ==> !HasPersonalization(Some(tags + [t]))
    ensures t == "no_size" ==> !HasSize(Some(tags + [t]))
  {
    assert (tags + [t])[|tags|] == t;
    assert forall x :: x in tags ==> x in tags + [t];
  }

  /** Only which tags are present matters: neither their order nor repetitions change a predicate. */
  lemma TagOrderIrrelevant(a: seq<string>, b: seq<string>)
    requires forall x :: x in a <==> x in b
    ensures HasCustomization(Some(a)) == HasCustomization(Some(b))
    ensures HasPersonalization(Some(a)) == HasPersonalization(Some(b))
    ensures HasSize(Some(a)) == HasSize(Some(b))
  {
  }
}
