/** drainStaleEvents: a Send clears the event queue of what earlier turns left
    behind (internal/cli/process_turn.go).  The queue has no producer meanwhile;
    the settle timer may fire and the context may be cancelled at any select. */
module Drain {
  import opened Wrappers
  import opened TurnState
  import opened TurnProtocol

  /** What stays of queue `q`: the events later than the cutoff, except the
      first result when a settle wait consumes it. */
  function Kept(q: seq<Event>, cutoff: nat, settling: bool): seq<Event> {
    if q == [] then []
    else if settling && q[0].kind.ResultFrame? then Kept(q[1..], cutoff, false)
    else (if q[0].recvAt > cutoff then [q[0]] else []) + Kept(q[1..], cutoff, settling)
  }

  /** The results that do not stay. */
  function Removed(q: seq<Event>, cutoff: nat, settling: bool): seq<Event> {
    if q == [] then []
    else if settling && q[0].kind.ResultFrame? then [q[0]] + Removed(q[1..], cutoff, false)
    else (if q[0].kind.ResultFrame? && q[0].recvAt <= cutoff then [q[0]] else []) + Removed(q[1..], cutoff, settling)
  }

  predicate HasResult(q: seq<Event>) { exists i :: 0 <= i < |q| && q[i].kind.ResultFrame? }

  // ---------- what Kept and Removed mean ----------

  function Fresh(q: seq<Event>, cutoff: nat): seq<Event> {
    if q == [] then [] else (if q[0].recvAt > cutoff then [q[0]] else []) + Fresh(q[1..], cutoff)
  }

  function Results(q: seq<Event>): seq<Event> {
    if q == [] then [] else (if q[0].kind.ResultFrame? then [q[0]] else []) + Results(q[1..])
  }

  function FirstResult(q: seq<Event>): (m: nat)
    ensures m <= |q| && (m < |q| ==> q[m].kind.ResultFrame?)
    ensures forall i :: 0 <= i < m ==> !q[i].kind.ResultFrame?
  {
    if q == [] || q[0].kind.ResultFrame? then 0 else FirstResult(q[1..]) + 1
  }

  lemma {:induction false} KeptWithoutSettling(q: seq<Event>, cutoff: nat)
    ensures Kept(q, cutoff, false) == Fresh(q, cutoff)
    ensures Removed(q, cutoff, false) == Results(Stale(q, cutoff))
  {
    if q != [] {
      KeptWithoutSettling(q[1..], cutoff);
      ResultsAppend(if q[0].recvAt <= cutoff then [q[0]] else [], Stale(q[1..], cutoff));
    }
  }

  function Stale(q: seq<Event>, cutoff: nat): seq<Event> {
    if q == [] then [] else (if q[0].recvAt <= cutoff then [q[0]] else []) + Stale(q[1..], cutoff)
  }

  lemma {:induction false} ResultsAppend(a: seq<Event>, b: seq<Event>)
    ensures Results(a + b) == Results(a) + Results(b)
  {
    if a == [] {
      assert a + b == b;
    } else {
      ResultsAppend(a[1..], b);
      assert (a + b)[1..] == a[1..] + b;
      Regroup(if a[0].kind.ResultFrame? then [a[0]] else [], Results(a[1..]), Results(b));
    }
  }

  /** The queue splits at its first result, which the settle wait consumes: the
      rest keeps its order. */
  lemma {:induction false} KeptWhenSettling(q: seq<Event>, cutoff: nat)
    requires HasResult(q)
    ensures var m := FirstResult(q);
      && m < |q|
      && Kept(q, cutoff, true) == Fresh(q[..m] + q[m + 1..], cutoff)
      && Removed(q, cutoff, true) == [q[m]] + Results(Stale(q[m + 1..], cutoff))
  {
    var m := FirstResult(q);
    if q[0].kind.ResultFrame? {
      KeptWithoutSettling(q[1..], cutoff);
      assert q[..0] + q[1..] == q[1..];
    } else {
      assert HasResult(q[1..]) by {
        var i :| 0 <= i < |q| && q[i].kind.ResultFrame?;
        assert q[1..][i - 1] == q[i];
      }
      KeptWhenSettling(q[1..], cutoff);
      WithoutOne(q, m);
    }
  }

  lemma WithoutOne(q: seq<Event>, m: nat)
    requires 0 < m < |q|
    ensures (q[..m] + q[m + 1..])[1..] == q[1..][..m - 1] + q[1..][m..] && q[1..][m..] == q[m + 1..]
    ensures (q[..m] + q[m + 1..])[0] == q[0]
  {
  }

  lemma {:induction false} KeptSplit(a: seq<Event>, b: seq<Event>, cutoff: nat, settling: bool)
    ensures Kept(a + b, cutoff, settling) == Kept(a, cutoff, settling) + Kept(b, cutoff, settling && !HasResult(a))
    ensures |Kept(a, cutoff, settling)| <= |a|
  {
    if a == [] {
      assert a + b == b;
    } else {
      assert (a + b)[1..] == a[1..] + b;
      var still := settling && !a[0].kind.ResultFrame?;
      KeptSplit(a[1..], b, cutoff, still);
      assert HasResult(a) <==> a[0].kind.ResultFrame? || HasResult(a[1..]) by {
        if HasResult(a) && !a[0].kind.ResultFrame? {
          var i :| 0 <= i < |a| && a[i].kind.ResultFrame?;
          assert a[1..][i - 1] == a[i];
        }
      }
    }
  }

  /** One event later the same events stay and go. */
  lemma TakeOne(q: seq<Event>, held: seq<Event>, rest: seq<Event>, cutoff: nat, settling: bool)
    requires q != [] && rest == q[1..]
    ensures var ev, still := q[0], settling && !q[0].kind.ResultFrame?;
      var held' := if ev.recvAt > cutoff && still == settling then held + [ev] else held;
      && held' + Kept(rest, cutoff, still) == held + Kept(q, cutoff, settling)
      && Removed(q, cutoff, settling) ==
           (if ev.kind.ResultFrame? && (settling || ev.recvAt <= cutoff) then [ev] else []) + Removed(rest, cutoff, still)
  {
  }

  lemma HasResultGrows(q: seq<Event>, from: nat, taken: nat)
    requires from <= taken <= |q| && HasResult(q[..from])
    ensures HasResult(q[..taken])
  {
    var i :| 0 <= i < from && q[..from][i].kind.ResultFrame?;
    assert q[..taken][i].kind.ResultFrame?;
  }

  /** What the drain holds after `taken` events is what stays of those. */
  lemma HeldSoFar(q: seq<Event>, taken: nat, held: seq<Event>, cutoff: nat, settled: bool)
    requires taken <= |q| && held + Kept(q[taken..], cutoff, false) == Kept(q, cutoff, settled)
    requires settled ==> HasResult(q[..taken])
    ensures held == Kept(q[..taken], cutoff, settled)
  {
    KeptSplit(q[..taken], q[taken..], cutoff, settled);
    assert q[..taken] + q[taken..] == q;
    var rest := Kept(q[taken..], cutoff, false);
    assert |held| == |Kept(q[..taken], cutoff, settled)|;
    assert held == (held + rest)[..|held|];
  }

  // ---------- the method ----------

  datatype Outcome = Drained | CancelledInSettle | CancelledInSweep

  class EventQueue {
    var eventCh: seq<Event>
    var closed: bool                 // done and eventCh: the read loop has gone
    var interrupted: bool
    var interruptedRun: bool
    var booked: seq<Event>           // results handed to the unowned-result hook
    const abort: AbortMarker

    constructor (events: seq<Event>)
      ensures eventCh == events && !closed && !interrupted && !interruptedRun && booked == [] && fresh(abort)
    {
      eventCh, closed, interrupted, interruptedRun, booked := events, false, false, false, [];
      abort := new AbortMarker();
    }

    method BookDroppedResult(ev: Event)
      modifies this`booked, abort
      ensures booked == old(booked) + (if ev.kind.ResultFrame? then [ev] else [])
      ensures abort.View() == if ev.kind.ResultFrame? then Release(old(abort.View())) else old(abort.View())
    {
      if ev.kind.ResultFrame? {
        abort.DoRelease();
        booked := booked + [ev];
      }
    }

    method SafeReenqueue(ev: Event)
      modifies this`eventCh
      ensures eventCh == if !closed && |old(eventCh)| < EVENT_CAPACITY then old(eventCh) + [ev] else old(eventCh)
    {
      if !closed && |eventCh| < EVENT_CAPACITY {
        eventCh := eventCh + [ev];
      }
    }

    /** Puts `held` back while the queue has room. */
    method ReenqueueAll(held: seq<Event>)
      requires |eventCh| + |held| <= EVENT_CAPACITY
      modifies this`eventCh
      ensures eventCh == if closed then old(eventCh) else old(eventCh) + held
    {
      if closed { return; }
      for i := 0 to |held|
        invariant eventCh == old(eventCh) + held[..i]
      {
        SafeReenqueue(held[i]);
      }
    }

    /** The drain.  `settled` says whether the settle wait consumed a result and
        `taken` how many events had left the queue when it returned. */
    method DrainStaleEvents(cutoff: nat) returns (outcome: Outcome, ghost settled: bool, ghost taken: nat)
      requires |eventCh| <= EVENT_CAPACITY
      modifies this, abort
      ensures !interrupted && !interruptedRun && closed == old(closed)
      ensures settled ==> old(interrupted && interruptedRun && HasResult(eventCh))
      ensures taken <= |old(eventCh)|
      // a normal return: what had arrived by the cutoff is gone, the rest is back in its order
      ensures outcome.Drained? && !closed ==> eventCh == Kept(old(eventCh), cutoff, settled)
      ensures outcome.Drained? && closed ==> eventCh == []
      ensures outcome.Drained? ==> booked == old(booked) + Removed(old(eventCh), cutoff, settled)
      // cancelled: what was held back is behind the rest, or lost
      ensures outcome.CancelledInSweep? && !closed ==>
        eventCh == old(eventCh)[taken..] + Kept(old(eventCh)[..taken], cutoff, settled)
      ensures outcome.CancelledInSettle? || (closed && outcome.CancelledInSweep?) ==> eventCh == old(eventCh)[taken..]
      // a booked result lifts the orphan mark, and only that
      ensures abort.View() == if booked == old(booked) then old(abort.View()) else Release(old(abort.View()))
    {
      ghost var q := eventCh;
      var wasInterrupted, wasRunning := interrupted, interruptedRun;
      interrupted, interruptedRun := false, false;
      var held: seq<Event> := [];
      settled, taken := false, 0;
      assert q[0..] == q;
      if wasInterrupted && wasRunning {
        outcome, held, settled, taken := Settle(cutoff);
        if settled {
          HasResultGrows(q, taken, |q|);
          assert q[..|q|] == q;
        }
        if outcome.CancelledInSettle? { return; }
      }
      outcome, taken := SweepAndReenqueue(q, cutoff, held, settled, taken);
    }

    /** The settle wait, up to a result, the timer, a closed queue or the
        context. */
    method Settle(cutoff: nat) returns (outcome: Outcome, held: seq<Event>, ghost settled: bool, ghost taken: nat)
      modifies this`eventCh, this`booked, abort
      ensures !outcome.CancelledInSweep?
      ensures taken <= |old(eventCh)| && eventCh == old(eventCh)[taken..]
      ensures settled ==> outcome.Drained? && HasResult(old(eventCh)[..taken])
      ensures held + Kept(eventCh, cutoff, false) == Kept(old(eventCh), cutoff, settled)
      ensures |held| <= taken
      ensures booked + Removed(eventCh, cutoff, false) == old(booked) + Removed(old(eventCh), cutoff, settled)
      ensures booked == old(booked) + (if settled then [old(eventCh)[taken - 1]] else []) && (settled ==> taken > 0)
      ensures abort.View() == if settled then Release(old(abort.View())) else old(abort.View())
    {
      ghost var q := eventCh;
      held, settled, taken := [], false, 0;
      assert q[0..] == q;
      while true
        invariant !settled && taken <= |q| && eventCh == q[taken..] && booked == old(booked) && |held| <= taken
        invariant held + Kept(eventCh, cutoff, true) == Kept(q, cutoff, true)
        invariant held + Kept(eventCh, cutoff, false) == Kept(q, cutoff, false)
        invariant Removed(eventCh, cutoff, true) == Removed(q, cutoff, true)
        invariant Removed(eventCh, cutoff, false) == Removed(q, cutoff, false)
        invariant abort.View() == old(abort.View())
        decreases |eventCh|
      {
        var receive: bool, timer: bool := *, *;
        if eventCh != [] && receive {
          var ev := eventCh[0];
          TakeOne(eventCh, held, eventCh[1..], cutoff, true);
          TakeOne(eventCh, held, eventCh[1..], cutoff, false);
          eventCh := eventCh[1..];
          taken := taken + 1;
          if ev.kind.ResultFrame? {
            BookDroppedResult(ev);
            settled := true;
            assert q[..taken][taken - 1] == ev;
            outcome := Drained;
            return;
          }
          if ev.recvAt > cutoff { held := held + [ev]; }
        } else if timer {
          outcome := Drained;                      // the timer, or the queue closed
          return;
        } else {
          outcome := CancelledInSettle;
          return;
        }
      }
    }

    /** The non-blocking sweep: until the queue is empty, or cancelled. */
    method Sweep(cutoff: nat, before: seq<Event>) returns (cancelled: bool, held: seq<Event>, ghost taken: nat)
      modifies this`eventCh, this`booked, abort
      ensures taken <= |old(eventCh)| && eventCh == old(eventCh)[taken..] && |held| <= |before| + taken
      ensures held + Kept(eventCh, cutoff, false) == before + Kept(old(eventCh), cutoff, false)
      ensures booked + Removed(eventCh, cutoff, false) == old(booked) + Removed(old(eventCh), cutoff, false)
      ensures !cancelled ==> eventCh == []
      ensures old(booked) <= booked
      ensures abort.View() == if |booked| == |old(booked)| then old(abort.View()) else Release(old(abort.View()))
    {
      held, taken, cancelled := before, 0, false;
      ghost var was, marker := eventCh, abort.View();
      while eventCh != []
        invariant taken <= |was| && eventCh == was[taken..] && |held| <= |before| + taken
        invariant held + Kept(eventCh, cutoff, false) == before + Kept(was, cutoff, false)
        invariant booked + Removed(eventCh, cutoff, false) == old(booked) + Removed(was, cutoff, false)
        invariant old(booked) <= booked
        invariant abort.View() == if |booked| == |old(booked)| then marker else Release(marker)
        decreases |eventCh|
      {
        cancelled := *;
        if cancelled { return; }
        var ev := eventCh[0];
        TakeOne(eventCh, held, eventCh[1..], cutoff, false);
        eventCh := eventCh[1..];
        taken := taken + 1;
        if ev.recvAt > cutoff { held := held + [ev]; } else { BookDroppedResult(ev); }
      }
      cancelled := *;
    }

    /** What follows the settle wait; `q` is the queue the drain began with. */
    method SweepAndReenqueue(ghost q: seq<Event>, cutoff: nat, before: seq<Event>, ghost settled: bool, ghost from: nat)
      returns (outcome: Outcome, ghost taken: nat)
      requires |q| <= EVENT_CAPACITY && from <= |q| && eventCh == q[from..] && |before| <= from
      requires before + Kept(eventCh, cutoff, false) == Kept(q, cutoff, settled)
      requires settled ==> HasResult(q[..from])
      modifies this`eventCh, this`booked, abort
      ensures !outcome.CancelledInSettle? && taken <= |q|
      ensures outcome.Drained? ==> eventCh == if closed then [] else Kept(q, cutoff, settled)
      ensures outcome.Drained? ==> booked == old(booked) + Removed(old(eventCh), cutoff, false)
      ensures outcome.CancelledInSweep? ==> eventCh == q[taken..] + if closed then [] else Kept(q[..taken], cutoff, settled)
      ensures old(booked) <= booked
      ensures abort.View() == if |booked| == |old(booked)| then old(abort.View()) else Release(old(abort.View()))
    {
      var cancelled, held;
      cancelled, held, taken := Sweep(cutoff, before);
      taken := taken + from;
      assert eventCh == q[taken..];
      if settled { HasResultGrows(q, from, taken); }
      HeldSoFar(q, taken, held, cutoff, settled);
      outcome := if cancelled then CancelledInSweep else Drained;
      ReenqueueAll(held);
    }
  }
}
