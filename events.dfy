/**
 * `ripe.Observable`: a registry from event names to the callbacks bound to them. Callbacks are
 * opaque; a callback is known by its identity, which is all `indexOf` compares.
 */
module Events {
  import opened Wrappers

  /** The identity of a callback function. */
  type Callback = nat

  /** `callbacks.indexOf(c)`: the first position holding `c`, or -1. */
  function IndexOfCallback(s: seq<Callback>, c: Callback): (r: int)
    ensures r == -1 <==> c !in s
    ensures r != -1 ==> 0 <= r < |s| && s[r] == c && c !in s[..r]
  {
    if s == [] then -1
    else if s[0] == c then 0
    else
      var k := IndexOfCallback(s[1..], c);
      if k == -1 then -1
      else
        assert s[..k + 1] == [s[0]] + s[1..][..k];
        k + 1
  }

  /** `callbacks.splice(indexOf(c), 1)` when `c` is present; the list as it is otherwise. */
  function RemoveFirst(s: seq<Callback>, c: Callback): (r: seq<Callback>)
    ensures c !in s ==> r == s
    ensures c in s ==> |r| == |s| - 1 && multiset(r) == multiset(s) - multiset{c}
  {
    var i := IndexOfCallback(s, c);
    if i == -1 then s
    else
      assert s == s[..i] + [s[i]] + s[i + 1..];
      s[..i] + s[i + 1..]
  }

  /** Binding a callback that is not yet bound and unbinding it again restores the list. */
  lemma RemoveAfterAdd(s: seq<Callback>, c: Callback)
    requires c !in s
    ensures RemoveFirst(s + [c], c) == s
  {
    assert IndexOfCallback(s + [c], c) == |s| by {
      assert (s + [c])[|s|] == c;
      assert (s + [c])[..|s|] == s;
    }
    assert (s + [c])[..|s|] == s;
  }

  /** Unbinding removes the earliest binding only: the later ones keep their order. */
  lemma {:induction false} RemoveFirstKeepsLater(a: seq<Callback>, c: Callback, b: seq<Callback>)
    requires c !in a
    ensures RemoveFirst(a + [c] + b, c) == a + b
  {
    var s := a + [c] + b;
    assert s[|a|] == c;
    assert s[..|a|] == a;
    assert IndexOfCallback(s, c) == |a|;
    assert s[|a| + 1..] == b;
  }

  class Observable {
    /** `this.callbacks`: the bound callbacks of each event, in binding order. */
    var callbacks: map<string, seq<Callback>>

    /** `this.callbacks[event] || []`. */
    function Bound(event: string): seq<Callback>
      reads this
    {
      if event in callbacks then callbacks[event] else []
    }

    constructor()
      ensures callbacks == map[]
    {
      callbacks := map[];
    }

    /** `addCallback` (`bind`): appends the callback to the event's list. */
    method AddCallback(event: string, callback: Callback)
      modifies this
      ensures callbacks == old(callbacks)[event := old(Bound(event)) + [callback]]
    {
      var list := Bound(event);
      list := list + [callback];
      callbacks := callbacks[event := list];
    }

    /**
     * `removeCallback` (`unbind`): with no callback the event's entry is deleted; otherwise the
     * first binding of the callback is spliced out, and nothing changes when it is not bound.
     */
    method RemoveCallback(event: string, callback: Option<Callback>)
      modifies this
      ensures callback.None? ==> callbacks == old(callbacks) - {event}
      ensures callback.Some? && callback.value !in old(Bound(event)) ==> callbacks == old(callbacks)
      ensures callback.Some? && callback.value in old(Bound(event)) ==>
        callbacks == old(callbacks)[event := RemoveFirst(old(Bound(event)), callback.value)]
    {
      var list := Bound(event);
      if callback.None? {
        callbacks := callbacks - {event};
        return;
      }
      var index := IndexOfCallback(list, callback.value);
      if index == -1 {
        return;
      }
      list := list[..index] + list[index + 1..];
      callbacks := callbacks[event := list];
    }

    /**
     * `runCallbacks` (`trigger`): calls the event's callbacks in binding order. The calls are
     * returned, in order, as the identities of the callbacks invoked.
     */
    method RunCallbacks(event: string) returns (invoked: seq<Callback>)
      ensures invoked == Bound(event)
    {
      var list := Bound(event);
      invoked := [];
      var index := 0;
      while index < |list|
        invariant 0 <= index <= |list|
        invariant invoked == list[..index]
      {
        invoked := invoked + [list[index]];
        index := index + 1;
        assert list[..index] == list[..index - 1] + [list[index - 1]];
      }
      assert list[..index] == list;
    }
  }
}
