/** endHook: a process's end reaches exactly one callback, once
    (internal/cli/process_end.go).  Every method holds the hook's mutex; the
    callback runs after it, so what matters is which call was told to deliver. */
module EndHook {
  import opened Wrappers

  /** A callback and an end, each by an identity. */
  type Callback = nat
  type End = nat

  datatype Hook = Hook(fn: Option<Callback>, end: Option<End>, delivered: bool)

  const NEW_HOOK := Hook(None, None, false)

  datatype Call = SetOnEnd(fn: Option<Callback>) | FireEnd(end: End)

  datatype Delivery = Delivery(to: Callback, end: End)

  class EndHookObject {
    var fn: Option<Callback>
    var end: Option<End>
    var delivered: bool

    ghost function View(): Hook
      reads this
    {
      Hook(fn, end, delivered)
    }

    constructor ()
      ensures View() == NEW_HOOK
    {
      fn, end, delivered := None, None, false;
    }

    /** takeLocked: the end to deliver now, if any. */
    method Take() returns (out: Option<End>)
      modifies this`delivered
      ensures out == (if end.Some? && fn.Some? && !old(delivered) then end else None)
      ensures delivered == (old(delivered) || out.Some?)
    {
      if end.None? || fn.None? || delivered { return None; }
      delivered := true;
      return end;
    }

    method DoSetOnEnd(callback: Option<Callback>) returns (deliver: Option<Delivery>)
      modifies this
      ensures View() == After(old(View()), SetOnEnd(callback)) && deliver == Delivers(old(View()), SetOnEnd(callback))
    {
      fn := callback;
      var out := Take();
      if out.Some? { return Some(Delivery(callback.value, out.value)); }
      return None;
    }

    method DoFireEnd(e: End) returns (deliver: Option<Delivery>)
      modifies this
      ensures View() == After(old(View()), FireEnd(e)) && deliver == Delivers(old(View()), FireEnd(e))
    {
      end := Some(e);
      var out := Take();
      if out.Some? { return Some(Delivery(fn.value, out.value)); }
      return None;
    }
  }

  function Rebound(h: Hook, call: Call): Hook {
    match call
    case SetOnEnd(fn) => h.(fn := fn)
    case FireEnd(end) => h.(end := Some(end))
  }

  function Delivers(h: Hook, call: Call): Option<Delivery> {
    var h1 := Rebound(h, call);
    if h1.end.Some? && h1.fn.Some? && !h1.delivered then Some(Delivery(h1.fn.value, h1.end.value)) else None
  }

  function After(h: Hook, call: Call): Hook {
    Rebound(h, call).(delivered := h.delivered || Delivers(h, call).Some?)
  }

  // ---------- every order of calls ----------

  function Deliveries(h: Hook, calls: seq<Call>): seq<Delivery>
    decreases |calls|
  {
    if calls == [] then []
    else (var d := Delivers(h, calls[0]); if d.Some? then [d.value] else []) + Deliveries(After(h, calls[0]), calls[1..])
  }

  function RunCalls(h: Hook, calls: seq<Call>): Hook
    decreases |calls|
  {
    if calls == [] then h else After(RunCalls(h, calls[..|calls| - 1]), calls[|calls| - 1])
  }

  lemma {:induction false} RunCallsCons(h: Hook, calls: seq<Call>)
    requires calls != []
    ensures RunCalls(h, calls) == RunCalls(After(h, calls[0]), calls[1..])
    decreases |calls|
  {
    var init := calls[..|calls| - 1];
    if |calls| == 1 {
      assert init == [] && calls[1..] == [];
    } else {
      RunCallsCons(h, init);
      assert calls[1..][..|calls[1..]| - 1] == init[1..];
    }
  }

  lemma {:induction false} DeliveriesSnoc(h: Hook, calls: seq<Call>, call: Call)
    ensures Deliveries(h, calls + [call])
         == Deliveries(h, calls)
            + (var d := Delivers(RunCalls(h, calls), call); if d.Some? then [d.value] else [])
    decreases |calls|
  {
    if calls == [] {
      assert (calls + [call])[1..] == [];
    } else {
      assert (calls + [call])[1..] == calls[1..] + [call];
      DeliveriesSnoc(After(h, calls[0]), calls[1..], call);
      RunCallsCons(h, calls);
    }
  }

  /** What the calls themselves say: the callback bound last, and the end. */
  function BoundBy(calls: seq<Call>): Option<Callback> {
    if calls == [] then None
    else if calls[|calls| - 1].SetOnEnd? then calls[|calls| - 1].fn
    else BoundBy(calls[..|calls| - 1])
  }

  function EndedBy(calls: seq<Call>): Option<End> {
    if calls == [] then None
    else if calls[|calls| - 1].FireEnd? then Some(calls[|calls| - 1].end)
    else EndedBy(calls[..|calls| - 1])
  }

  /** After the first n calls both a callback and the end are there. */
  predicate Met(calls: seq<Call>, n: nat)
    requires n <= |calls|
  {
    BoundBy(calls[..n]).Some? && EndedBy(calls[..n]).Some?
  }

  predicate FirstMet(calls: seq<Call>, n: nat)
    requires n <= |calls|
  {
    Met(calls, n) && forall m: nat :: m < n ==> !Met(calls, m)
  }

  lemma {:induction false} FieldsFollowCalls(calls: seq<Call>)
    ensures RunCalls(NEW_HOOK, calls).fn == BoundBy(calls) && RunCalls(NEW_HOOK, calls).end == EndedBy(calls)
    decreases |calls|
  {
    if calls != [] { FieldsFollowCalls(calls[..|calls| - 1]); }
  }

  lemma MetPrefix(calls: seq<Call>, k: nat, n: nat)
    requires n <= k <= |calls|
    ensures Met(calls[..k], n) <==> Met(calls, n)
  {
    assert calls[..k][..n] == calls[..n];
  }

  lemma MetNow(calls: seq<Call>)
    requires calls != []
    ensures Met(calls, |calls|) <==> BoundBy(calls).Some? && EndedBy(calls).Some?
  {
    assert calls[..|calls|] == calls;
  }

  lemma MetPrefixes(calls: seq<Call>, k: nat)
    requires k <= |calls|
    ensures forall n: nat :: n <= k ==> (Met(calls[..k], n) <==> Met(calls, n))
  {
    forall n: nat | n <= k ensures Met(calls[..k], n) <==> Met(calls, n) { MetPrefix(calls, k, n); }
  }

  lemma {:induction false} DeliveredIffMet(calls: seq<Call>)
    ensures RunCalls(NEW_HOOK, calls).delivered <==> exists n: nat :: n <= |calls| && Met(calls, n)
    decreases |calls|
  {
    if calls != [] {
      var k := |calls| - 1;
      DeliveredIffMet(calls[..k]);
      MetPrefixes(calls, k);
      FieldsFollowCalls(calls);
      MetNow(calls);
      if exists n: nat :: n <= |calls| && Met(calls, n) {
        var n: nat :| n <= |calls| && Met(calls, n);
        assert n <= k ==> Met(calls[..k], n);
      }
    }
  }

  /** However SetOnEnd (with or without a callback) and the end interleave:
      nothing is delivered while a callback and the end were never there
      together, and otherwise exactly one delivery is made, of that end to that
      callback, at the first moment they were. */
  lemma {:induction false} DeliveredOnceAtFirstMeeting(calls: seq<Call>)
    ensures (forall n: nat :: n <= |calls| ==> !Met(calls, n)) ==> Deliveries(NEW_HOOK, calls) == []
    ensures forall n: nat :: n <= |calls| && FirstMet(calls, n) ==>
      Deliveries(NEW_HOOK, calls) == [Delivery(BoundBy(calls[..n]).value, EndedBy(calls[..n]).value)]
    decreases |calls|
  {
    if calls != [] {
      var k := |calls| - 1;
      var init := calls[..k];
      DeliveredOnceAtFirstMeeting(init);
      DeliveredIffMet(init);
      DeliveriesSnoc(NEW_HOOK, init, calls[k]);
      assert calls == init + [calls[k]];
      FieldsFollowCalls(calls);
      MetPrefixes(calls, k);
      MetNow(calls);
      forall n: nat | n <= |calls| && FirstMet(calls, n)
        ensures Deliveries(NEW_HOOK, calls) == [Delivery(BoundBy(calls[..n]).value, EndedBy(calls[..n]).value)]
      {
        if n <= k { FirstMetEarlier(calls, k, n); } else { assert calls[..n] == calls; }
      }
    }
  }

  lemma FirstMetEarlier(calls: seq<Call>, k: nat, n: nat)
    requires n <= k <= |calls| && FirstMet(calls, n)
    ensures FirstMet(calls[..k], n) && calls[..k][..n] == calls[..n]
    ensures Met(calls[..k], n)
  {
    MetPrefixes(calls, k);
  }
}
