/**
 * Mask hit testing: the mask canvas paints part `k` of the sorted part list with red value
 * `k`, 0 being the background. The red value under the pointer (read from the canvas, which
 * the model takes as an input) decides what a click selects and what a hover highlights.
 */
module HitTest {
  import opened Wrappers

  // ---------------------------------------------------------------- the sorted part list

  /** The order of `Array.prototype.sort` without a comparator: strings compared unit by unit. */
  predicate StrLe(a: string, b: string)
    decreases |a|
  {
    a == [] || (b != [] && (a[0] < b[0] || (a[0] == b[0] && StrLe(a[1..], b[1..]))))
  }

  lemma {:induction false} StrLeTotal(a: string, b: string)
    ensures StrLe(a, b) || StrLe(b, a)
    decreases |a|
  {
    if a != [] && b != [] && a[0] == b[0] {
      StrLeTotal(a[1..], b[1..]);
    }
  }

  predicate Sorted(xs: seq<string>)
  {
    forall i :: 0 <= i < |xs| - 1 ==> StrLe(xs[i], xs[i + 1])
  }

  function Insert(x: string, xs: seq<string>): (r: seq<string>)
    requires Sorted(xs)
    ensures Sorted(r) && multiset(r) == multiset(xs) + multiset{x}
    ensures |r| > 0 && (r[0] == x || (xs != [] && r[0] == xs[0]))
  {
    if xs == [] then [x]
    else if StrLe(x, xs[0]) then [x] + xs
    else
      StrLeTotal(x, xs[0]);
      var rest := Insert(x, xs[1..]);
      assert xs == [xs[0]] + xs[1..];
      [xs[0]] + rest
  }

  /** `Object.keys(defaults).sort()`: the same names, in sort order. */
  function SortStrings(xs: seq<string>): (r: seq<string>)
    ensures Sorted(r) && multiset(r) == multiset(xs)
  {
    if xs == [] then []
    else
      assert xs == [xs[0]] + xs[1..];
      Insert(xs[0], SortStrings(xs[1..]))
  }

  // ---------------------------------------------------------------- pointer events

  /** What a pointer event on the canvas leads to. */
  datatype Pointer =
    | Ignore                        // nothing happens
    | Lowlight                      // the highlight is removed
    | Choose(part: Option<string>)  // the part is selected (click) or highlighted (hover)
    | Fail(error: JsError)          // the handler throws

  /** `partsList[index - 1]`, `undefined` (`None`) past the end. */
  function PartAt(partsList: seq<string>, index: nat): Option<string>
  {
    if 1 <= index <= |partsList| then Some(partsList[index - 1]) else None
  }

  /** `hiddenParts.indexOf(part) === -1`; no hidden entry is `undefined`. */
  predicate Visible(hidden: seq<string>, part: Option<string>)
  {
    part.None? || part.value !in hidden
  }

  /**
   * The click handler of the two canvases (ripe.js): ignored while preloading or animating
   * and on the background; it reads `hiddenParts`, which is `undefined` until the config
   * arrives.
   */
  function Click(busy: bool, partsList: seq<string>, hidden: Option<seq<string>>, index: nat): Pointer
  {
    if busy || index == 0 then Ignore
    else if hidden.None? then Fail(TypeError)
    else
      var part := PartAt(partsList, index);
      if Visible(hidden.value, part) then Choose(part) else Ignore
  }

  /** The hover handler of the two canvases (ripe.js): as a click, but the background or a drag lowlights. */
  function Hover(busy: bool, down: bool, partsList: seq<string>, hidden: Option<seq<string>>, index: nat): Pointer
  {
    if busy then Ignore
    else if index == 0 || down then Lowlight
    else if hidden.None? then Fail(TypeError)
    else
      var part := PartAt(partsList, index);
      if Visible(hidden.value, part) then Choose(part) else Ignore
  }

  /**
   * `_chosenPart` of `ripe.Config`: the background or a drag lowlights and gives no part;
   * otherwise the part at the index, `null` (`None`) past the end of the list.
   */
  function ChosenPart(down: bool, partsList: seq<string>, index: nat): Pointer
  {
    if index == 0 || down then Lowlight else Choose(PartAt(partsList, index))
  }

  /** The background selects nothing on a click and lowlights on a hover. */
  lemma BackgroundSelectsNothing(busy: bool, down: bool, partsList: seq<string>, hidden: Option<seq<string>>)
    ensures Click(busy, partsList, hidden, 0) == Ignore
    ensures !busy ==> Hover(busy, down, partsList, hidden, 0) == Lowlight
    ensures ChosenPart(down, partsList, 0) == Lowlight
  {
  }

  /**
   * An idle click on index `k` selects exactly the `k`-th part of the list when that part is
   * not hidden.
   */
  lemma ClickSelects(partsList: seq<string>, hidden: seq<string>, index: nat, part: string)
    requires 1 <= index <= |partsList|
    ensures Click(false, partsList, Some(hidden), index) == Choose(Some(part))
      <==> part == partsList[index - 1] && part !in hidden
    ensures partsList[index - 1] in hidden ==> Click(false, partsList, Some(hidden), index) == Ignore
  {
  }

  /** A hover without a drag highlights exactly what a click at the same place would select. */
  lemma HoverMatchesClick(busy: bool, partsList: seq<string>, hidden: Option<seq<string>>, index: nat)
    requires index != 0
    ensures Hover(busy, false, partsList, hidden, index) == Click(busy, partsList, hidden, index)
  {
  }

  /** `_chosenPart` past the end of the list gives `null`, within the list the indexed part. */
  lemma ChosenPartIndex(partsList: seq<string>, index: nat)
    requires index != 0
    ensures index > |partsList| ==> ChosenPart(false, partsList, index) == Choose(None)
    ensures index <= |partsList| ==> ChosenPart(false, partsList, index) == Choose(Some(partsList[index - 1]))
    ensures ChosenPart(true, partsList, index) == Lowlight
  {
  }

  /** The sorted list holds exactly the default parts. */
  lemma SortedPartsListed(keys: seq<string>, part: string)
    ensures part in SortStrings(keys) <==> part in keys
  {
    assert part in SortStrings(keys) <==> part in multiset(SortStrings(keys));
    assert part in keys <==> part in multiset(keys);
  }
}
