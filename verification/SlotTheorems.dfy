/** What every run of the passthrough protocol guarantees. */
module SlotTheorems {
  import opened Wrappers
  import opened SlotQueue
  import opened SlotChannel
  import opened SlotProtocol
  import opened SlotSafety
  import opened SlotExits

  /** The queue in every run: bounded, distinct, marked exactly when claimed,
      and in the order its slots took the write lock, which is also the order
      in which their lines reach the socket. */
  lemma QueueInvariant(s: State)
    requires Reachable(s)
    ensures |s.q.pending| <= MAX_PENDING_SLOTS
    ensures Distinct(Ids(s.q.pending)) && Distinct(s.q.current)
    ensures forall e :: e in s.q.pending ==> (e.replayed <==> e.id in s.q.current)
    ensures InTicketOrder(Ids(s.q.pending), s.tickets) && InTicketOrder(s.wire, s.tickets)
  {
    ReachableOk(s);
  }

  /** Two lines on the socket whose slots are still pending stand in the same
      order in both places. */
  lemma QueueFollowsWire(s: State, a: nat, b: nat, x: nat, y: nat)
    requires Reachable(s)
    requires a < |s.wire| && b < |s.wire| && x < |s.q.pending| && y < |s.q.pending|
    requires s.wire[a] == s.q.pending[x].id && s.wire[b] == s.q.pending[y].id
    ensures a < b <==> x < y
  {
    QueueInvariant(s);
    var ids := Ids(s.q.pending);
    assert ids[x] == s.wire[a] && ids[y] == s.wire[b];
    if a < b { assert s.tickets[s.wire[a]] < s.tickets[s.wire[b]]; }
    if b < a { assert s.tickets[s.wire[b]] < s.tickets[s.wire[a]]; }
    if x < y { assert s.tickets[ids[x]] < s.tickets[ids[y]]; }
    if y < x { assert s.tickets[ids[y]] < s.tickets[ids[x]]; }
  }

  /** No slot is claimed twice, by two turns or by one. */
  lemma ClaimedOnce(s: State, k: nat, i: nat, l: nat, j: nat)
    requires Reachable(s)
    requires k < |s.turns| && i < |s.turns[k].owners|
    requires l < |s.turns| && j < |s.turns[l].owners|
    requires s.turns[k].owners[i] == s.turns[l].owners[j]
    ensures k == l && i == j
  {
    ReachableOk(s);
    assert OwnersOf(k, s.turns[k].owners, s.fate);
    assert OwnersOf(l, s.turns[l].owners, s.fate);
  }

  /** Over a whole run a slot gets at most one result, and never a result and
      an error. */
  lemma OneOutcome(s: State, id: nat)
    requires Reachable(s) && id in s.chans
    ensures |s.chans[id].results| <= 1
    ensures s.chans[id].results == [] || s.chans[id].errors == 0
  {
    ReachableOk(s);
    SlotAt(s, id);
  }

  /** deliverSlotResult never finds the channel full: it refuses exactly the
      canceled slots. */
  lemma ChannelNeverFull(s: State)
    requires Reachable(s) && CanDeliver(s)
    ensures var c := s.chans[s.turns[|s.turns| - 1].owners[s.fan.value.next]];
      c.resultCh.None? && (Accepts(c) <==> !c.canceled)
  {
    ReachableOk(s);
    var id := FanDeliverSlots(s);
    assert OwnersOf(|s.turns| - 1, s.turns[|s.turns| - 1].owners, s.fate);
    SlotAt(s, id);
    FanDeliverChan(s, id);
  }

  /** Once a discard has finished, each of its victims has an error waiting,
      was canceled, or has left already. */
  lemma DiscardTellsAll(s: State, k: nat, id: nat)
    requires Reachable(s)
    requires k < |s.discards| && s.discards[k].next == |s.discards[k].victims| && id in s.discards[k].victims
    ensures id in s.chans && id in s.callers
    ensures s.chans[id].canceled || s.chans[id].errCh.Some? || s.callers[id].Left?
  {
    ReachableOk(s);
    assert DiscardOk(k, s.discards[k], s.fate, s.chans);
    var i :| 0 <= i < |s.discards[k].victims| && s.discards[k].victims[i] == id;
    assert Told(s.chans, s.discards[k].victims[i]);
    SlotAt(s, id);
  }

  lemma StepKeepsVictims(s: State, step: Step, k: nat)
    requires Enabled(s, step) && k < |s.discards|
    ensures k < |Apply(s, step).discards| && Apply(s, step).discards[k].victims == s.discards[k].victims
  {
    if !DiscardStep(step) { assert Apply(s, step).discards == s.discards; }
  }

  lemma {:induction false} RunKeepsVictims(s: State, steps: seq<Step>, s': State, k: nat)
    requires Run(s, steps, s') && k < |s.discards|
    ensures k < |s'.discards| && s'.discards[k].victims == s.discards[k].victims
    decreases |steps|
  {
    if steps != [] {
      StepKeepsVictims(s, steps[0], k);
      RunKeepsVictims(Apply(s, steps[0]), steps[1..], s', k);
    }
  }

  /** A discard reaches everybody: whoever was pending or claimed when it began
      has, once it is done, an error waiting, or was canceled, or has left,
      whatever else happened meanwhile. */
  lemma DiscardReachesAll(s: State, reason: string, steps: seq<Step>, s': State, id: nat)
    requires Reachable(s) && InQueue(s.q, id) && Run(Apply(s, StartDiscard(reason)), steps, s')
    ensures |s.discards| < |s'.discards|
    ensures s'.discards[|s.discards|].next == |s'.discards[|s.discards|].victims| ==>
      && id in s'.chans && id in s'.callers
      && (s'.chans[id].canceled || s'.chans[id].errCh.Some? || s'.callers[id].Left?)
  {
    var s1, k := Apply(s, StartDiscard(reason)), |s.discards|;
    ReachableNext(s, StartDiscard(reason));
    RunReachable(s1, steps, s');
    RunKeepsVictims(s1, steps, s', k);
    assert id in s1.discards[k].victims;
    if s'.discards[k].next == |s'.discards[k].victims| { DiscardTellsAll(s', k, id); }
  }

  // ---------- giving up ----------

  predicate GivesUp(move: Move) { move.CtxDone? || move.BailAbandon? }

  ghost predicate Tombstoned(s: State, id: nat, results: seq<SendResult>) {
    id in s.chans && s.chans[id].canceled && s.chans[id].resultCh.None? && s.chans[id].results == results
  }

  lemma StepKeepsTombstone(s: State, step: Step, id: nat, results: seq<SendResult>)
    requires DomainOk(s.chans.Keys, s.callers.Keys, s.fate.Keys, s.nextId) && Enabled(s, step) && Tombstoned(s, id, results)
    ensures Tombstoned(Apply(s, step), id, results)
  {
  }

  lemma {:induction false} RunKeepsTombstone(s: State, steps: seq<Step>, s': State, id: nat, results: seq<SendResult>)
    requires Inv(s) && Run(s, steps, s') && Tombstoned(s, id, results)
    ensures Tombstoned(s', id, results)
    decreases |steps|
  {
    if steps != [] {
      StepOk(s, steps[0]);
      StepKeepsTombstone(s, steps[0], id, results);
      RunKeepsTombstone(Apply(s, steps[0]), steps[1..], s', id, results);
    }
  }

  /** What a caller that gives up is told of a result it has: everything, except
      that a canceled follower drops its own, which cost nothing. */
  ghost predicate InHand(w: Caller, r: SendResult) {
    w == Booking(r) || w == Left(Answered(r)) || (w == Left(Canceled) && r.mergedWithHead != 0)
  }

  /** Between the fan-out and a caller that gives up no result is lost: one
      delivered before is in the caller's hand, and none is delivered after, in
      any continuation. */
  lemma GivingUpTakesOrRefuses(s: State, id: nat, move: Move, steps: seq<Step>, s': State)
    requires Reachable(s) && Enabled(s, Own(id, move)) && GivesUp(move) && Run(Apply(s, Own(id, move)), steps, s')
    ensures Tombstoned(s', id, s.chans[id].results)
    ensures s.chans[id].results != [] ==>
      && s.chans[id].results == [s.chans[id].results[0]]
      && InHand(Apply(s, Own(id, move)).callers[id], s.chans[id].results[0])
  {
    ReachableOk(s);
    GivingUpTakes(s, id, move);
    StepOk(s, Own(id, move));
    RunKeepsTombstone(Apply(s, Own(id, move)), steps, s', id, s.chans[id].results);
  }

  lemma GivingUpTakes(s: State, id: nat, move: Move)
    requires Inv(s) && Enabled(s, Own(id, move)) && GivesUp(move)
    ensures Tombstoned(Apply(s, Own(id, move)), id, s.chans[id].results)
    ensures s.chans[id].results != [] ==>
      && s.chans[id].results == [s.chans[id].results[0]]
      && InHand(Apply(s, Own(id, move)).callers[id], s.chans[id].results[0])
  {
    SlotAt(s, id);
  }

  /** The discard still has to tell this victim. */
  ghost predicate StillToTell(d: Discard, id: nat) {
    exists i :: d.next <= i < |d.victims| && d.victims[i] == id
  }

  /** No caller is ever stranded: one that waits is still queued, or a fan-out
      or a discard has yet to reach it, or its answer is in its channel. */
  lemma NobodyStranded(s: State, id: nat)
    requires Reachable(s) && id in s.callers && Inside(s.callers[id])
    ensures Known(s, id)
    ensures
      || InQueue(s.q, id)
      || (s.fate[id].Owner? && !Served(s.turns, s.fan, s.fate[id].turn, s.fate[id].pos))
      || (s.fate[id].Dropped? && s.fate[id].discard < |s.discards| && StillToTell(s.discards[s.fate[id].discard], id))
      || s.chans[id].resultCh.Some?
      || s.chans[id].errCh.Some?
  {
    ReachableOk(s);
    SlotAt(s, id);
    if s.fate[id].Dropped? {
      var k := s.fate[id].discard;
      var d := s.discards[k];
      assert DiscardOk(k, d, s.fate, s.chans);
      var i :| 0 <= i < |d.victims| && d.victims[i] == id;
      if i < d.next { assert Told(s.chans, d.victims[i]); }
    }
  }

  // ---------- cost ----------

  /** The turn's frame reached its head's caller. */
  ghost predicate AnsweredBy(s: State, h: nat, k: nat) {
    h in s.callers && s.callers[h].Left? && s.callers[h].outcome.Answered? && s.callers[h].outcome.res.turn == k
  }

  /** The three exits that leave without looking at the result channel again
      and without tombstoning the slot. */
  predicate LeavesUnread(o: Outcome) { o == TimedOut || o == Exited || o == WriteError }

  /** Where a turn's cost ends up, once its fan-out is over and its head has
      left: with the caller or with the hook, exactly once, if and only if the
      head did not leave through one of the three unread exits. */
  lemma CostReachesOnePlace(s: State, k: nat)
    requires Reachable(s) && k < |s.turns| && (s.fan.None? || k + 1 < |s.turns|)
    requires s.turns[k].owners != [] && s.turns[k].owners[0] in s.callers && s.callers[s.turns[k].owners[0]].Left?
    ensures var h := s.turns[k].owners[0];
      CountTurn(s.booked, k) + (if AnsweredBy(s, h, k) then 1 else 0)
      == (if LeavesUnread(s.callers[h].outcome) then 0 else 1)
  {
    ReachableOk(s);
    var h := s.turns[k].owners[0];
    assert OwnersOf(k, s.turns[k].owners, s.fate);
    SlotAt(s, h);
    assert TurnBooked(k, s.turns[k].owners, |s.turns|, s.booked, s.chans, s.callers, s.fan);
  }

  /** And it is the frame's cost that arrives: whoever gets a result gets the
      whole cost if it heads its turn and none of it if it follows; the hook
      only ever gets heads' results. */
  lemma HeadPaysFollowersDoNot(s: State, id: nat, k: nat, j: nat)
    requires Reachable(s) && k < |s.turns| && j < |s.turns[k].owners| && s.turns[k].owners[j] == id
    ensures id in s.chans && id in s.callers
    ensures forall r :: r in s.chans[id].results ==>
      r.turn == k && r.costUSD == (if j == 0 then s.turns[k].ev.costUSD else 0.0)
      && (r.mergedWithHead == 0 <==> j == 0) && (j > 0 ==> r.mergedWithHead == s.turns[k].owners[0])
    ensures AnsweredBy(s, id, k) ==> s.callers[id].outcome.res in s.chans[id].results
    ensures forall b :: b in s.booked && b.turn == k ==> b == HeadResult(k, s.turns[k])
  {
    ReachableOk(s);
    assert OwnersOf(k, s.turns[k].owners, s.fate);
    SlotAt(s, id);
    assert s.turns[k].owners[0] in s.chans;
  }

  /** While the process lives, the line having reached it is enough: the cost of
      a turn whose head has left reaches exactly one place. */
  lemma CostArrivesWhileAlive(s: State, k: nat)
    requires Reachable(s) && s.alive && k < |s.turns| && (s.fan.None? || k + 1 < |s.turns|)
    requires s.turns[k].owners != [] && s.turns[k].owners[0] in s.wire
    requires s.turns[k].owners[0] in s.callers && s.callers[s.turns[k].owners[0]].Left?
    ensures CountTurn(s.booked, k) + (if AnsweredBy(s, s.turns[k].owners[0], k) then 1 else 0) == 1
  {
    var h := s.turns[k].owners[0];
    CostReachesOnePlace(s, k);
    ReachableOk(s);
    assert OwnersOf(k, s.turns[k].owners, s.fate);
    ReachableExits(s);
    var i :| 0 <= i < |s.wire| && s.wire[i] == h;
    assert Sent(s.callers[s.wire[i]]);
  }

  lemma ReachableNext(s: State, step: Step)
    requires Reachable(s) && Enabled(s, step)
    ensures Reachable(Apply(s, step))
  {
    var steps: seq<Step> :| Run(INIT, steps, s);
    RunLast(INIT, steps, s, step);
  }

  lemma {:induction false} RunLast(s: State, steps: seq<Step>, m: State, step: Step)
    requires Run(s, steps, m) && Enabled(m, step)
    ensures Run(s, steps + [step], Apply(m, step))
    decreases |steps|
  {
    if steps == [] {
      assert (steps + [step])[1..] == [];
    } else {
      assert (steps + [step])[1..] == steps[1..] + [step];
      RunLast(Apply(s, steps[0]), steps[1..], m, step);
    }
  }

  lemma {:induction false} RunReachable(s: State, steps: seq<Step>, s': State)
    requires Reachable(s) && Run(s, steps, s')
    ensures Reachable(s')
    decreases |steps|
  {
    if steps != [] {
      ReachableNext(s, steps[0]);
      RunReachable(Apply(s, steps[0]), steps[1..], s');
    }
  }

  /** A run to one sent message that its turn has claimed. */
  lemma OneClaimed() returns (s: State)
    ensures Reachable(s) && s.turns == [] && s.fan.None? && s.alive && s.booked == []
    ensures Known(s, 1) && Is(s, 1, Waiting) && s.chans[1] == FreshChan
    ensures s.q == Queue([Entry(1, "u", true)], [1])
  {
    assert Run(INIT, [], INIT);
    ReachableNext(INIT, Draft);
    s := Apply(INIT, Draft);
    ReachableNext(s, TakeLock(1, "u"));
    s := Apply(s, TakeLock(1, "u"));
    assert s.q == Queue([Entry(1, "u", false)], []);
    ReachableNext(s, WriteDone(1, true));
    s := Apply(s, WriteDone(1, true));
    OneReplayed(s);
    ReachableNext(s, ReplayFrame("u"));
    s := Apply(s, ReplayFrame("u"));
  }

  /** ... whose caller's watchdog fires, and whose turn's result is then read. */
  lemma OneRead(ev: ResultEvent) returns (s: State)
    ensures Reachable(s) && s.turns == [Turn(ev, [1])] && s.fan == Some(Fan(0, false)) && s.alive
    ensures Known(s, 1) && Is(s, 1, Dying) && s.booked == [] && s.chans[1] == FreshChan
  {
    s := OneClaimed();
    ReachableNext(s, Own(1, Watchdog));
    s := Apply(s, Own(1, Watchdog));
    ReachableNext(s, ResultFrame(ev));
    s := Apply(s, ResultFrame(ev));
    assert s.turns == [Turn(ev, [1])];
  }

  /** ... and fanned out: nothing taken yet. */
  lemma OneAnsweredTurn(ev: ResultEvent) returns (s: State)
    ensures Reachable(s) && s.turns == [Turn(ev, [1])] && s.fan.None? && s.alive
    ensures Known(s, 1) && Is(s, 1, Dying) && s.booked == []
    ensures s.chans[1] == Deliver(FreshChan, HeadResult(0, Turn(ev, [1])))
  {
    s := OneRead(ev);
    ReachableNext(s, FanDeliver);
    s := Apply(s, FanDeliver);
    ReachableNext(s, FanEnd);
    s := Apply(s, FanEnd);
  }

  lemma OneReplayed(s: State)
    requires s.q == Queue([Entry(1, "u", false)], [])
    ensures Replay(s.q, "u") == Queue([Entry(1, "u", true)], [1])
  {
    assert IndexOfUuid(s.q.pending, "u") == 0;
  }

  /** A lost cost exists: the head's watchdog fires while its slot is queued, the
      read loop answers it before the discard, and the second select picks the
      process's death although the result is in the channel. */
  lemma UnreadExitLosesCost() returns (s: State)
    ensures Reachable(s) && s.turns == [Turn(ResultEvent("done", 1.0), [1])] && s.fan.None?
    ensures Is(s, 1, Left(TimedOut)) && s.booked == []
    ensures 1 in s.chans && s.chans[1].resultCh == Some(HeadResult(0, s.turns[0]))
  {
    s := OneAnsweredTurn(ResultEvent("done", 1.0));
    ReachableNext(s, Die);
    s := Apply(s, Die);
    ReachableNext(s, Own(1, LeaveDying));
    s := Apply(s, Own(1, LeaveDying));
  }
}
