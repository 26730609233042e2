/**
 * A JavaScript plain object used as a dictionary: string keys kept in insertion order, each
 * key at most once. `for … in` and `Object.keys` visit keys in that order only when none is
 * an array index ("0", "1", …), which JavaScript lists first in ascending order; the keys
 * modelled here are part, view and parameter names, which are not numeric.
 */
module Dicts {
  import opened Wrappers

  type Dict<V> = seq<(string, V)>

  function Keys<V>(d: Dict<V>): (ks: seq<string>)
    ensures |ks| == |d|
    ensures forall i :: 0 <= i < |d| ==> ks[i] == d[i].0
  {
    if d == [] then [] else [d[0].0] + Keys(d[1..])
  }

  /** Every key occurs once. */
  predicate Wf<V>(d: Dict<V>)
  {
    forall i, j :: 0 <= i < j < |d| ==> d[i].0 != d[j].0
  }

  predicate Has<V>(d: Dict<V>, k: string)
  {
    k in Keys(d)
  }

  /** `d[k]`, with `None` for `undefined`. */
  function Get<V>(d: Dict<V>, k: string): (r: Option<V>)
    ensures r.None? <==> !Has(d, k)
  {
    if d == [] then None else if d[0].0 == k then Some(d[0].1) else Get(d[1..], k)
  }

  /** `d[k] = v`: an existing key keeps its place, a new key goes last. */
  function Put<V>(d: Dict<V>, k: string, v: V): Dict<V>
  {
    if d == [] then [(k, v)]
    else if d[0].0 == k then [(k, v)] + d[1..]
    else [d[0]] + Put(d[1..], k, v)
  }

  /** `Object.assign(target, source)`: the source's entries are written in the source's order. */
  function Assign<V>(target: Dict<V>, source: Dict<V>): Dict<V>
    decreases |source|
  {
    if source == [] then target else Assign(Put(target, source[0].0, source[0].1), source[1..])
  }

  lemma {:induction false} GetPut<V>(d: Dict<V>, k: string, v: V, k': string)
    ensures Get(Put(d, k, v), k') == if k' == k then Some(v) else Get(d, k')
    decreases |d|
  {
    if d != [] && d[0].0 != k {
      GetPut(d[1..], k, v, k');
      assert Put(d, k, v)[1..] == Put(d[1..], k, v);
    }
  }

  lemma {:induction false} KeysPut<V>(d: Dict<V>, k: string, v: V)
    ensures Keys(Put(d, k, v)) == if Has(d, k) then Keys(d) else Keys(d) + [k]
    decreases |d|
  {
    if d != [] && d[0].0 != k {
      KeysPut(d[1..], k, v);
      assert Put(d, k, v)[1..] == Put(d[1..], k, v);
      assert Keys(d) == [d[0].0] + Keys(d[1..]);
    }
  }

  lemma {:induction false} WfPut<V>(d: Dict<V>, k: string, v: V)
    requires Wf(d)
    ensures Wf(Put(d, k, v))
    decreases |d|
  {
    var r := Put(d, k, v);
    KeysPut(d, k, v);
    var ks := Keys(r);
    forall i, j | 0 <= i < j < |r|
      ensures r[i].0 != r[j].0
    {
      assert ks[i] == r[i].0 && ks[j] == r[j].0;
      if Has(d, k) {
        assert ks == Keys(d);
        assert Keys(d)[i] == d[i].0 && Keys(d)[j] == d[j].0;
      } else {
        if j < |d| {
          assert Keys(d)[i] == d[i].0 && Keys(d)[j] == d[j].0;
        } else {
          assert ks[j] == k;
          assert Keys(d)[i] == d[i].0;
        }
      }
    }
  }

  /** After `Object.assign`, a key the source has reads as the source's value, any other as before. */
  lemma {:induction false} GetAssign<V>(target: Dict<V>, source: Dict<V>, k: string)
    requires Wf(source)
    ensures Get(Assign(target, source), k) == if Has(source, k) then Get(source, k) else Get(target, k)
    decreases |source|
  {
    if source != [] {
      var rest := source[1..];
      assert Wf(rest) by {
        forall i, j | 0 <= i < j < |rest| ensures rest[i].0 != rest[j].0 {
          assert rest[i] == source[i + 1] && rest[j] == source[j + 1];
        }
      }
      GetAssign(Put(target, source[0].0, source[0].1), rest, k);
      GetPut(target, source[0].0, source[0].1, k);
      assert Keys(source) == [source[0].0] + Keys(rest);
    }
  }
}
