/** Cost conservation as one sum: in every reachable state the cost of all the
    results that claimed slots equals what callers hold, what waits in
    channels, what the fan-out carries and what the hook has booked. */
module SlotMoney {
  import opened Wrappers
  import opened SlotQueue
  import opened SlotChannel
  import opened SlotProtocol
  import opened SlotSafety

  ghost function OnCaller(w: Caller): real {
    match w
    case Booking(r) => r.costUSD
    case Left(Answered(r)) => r.costUSD
    case _ => 0.0
  }

  ghost function Weight(c: Chan, w: Caller): real {
    (if c.resultCh.Some? then c.resultCh.value.costUSD else 0.0) + OnCaller(w)
  }

  /** Cost held by the slots with ids below n. */
  ghost function Held(chans: map<nat, Chan>, callers: map<nat, Caller>, n: nat): real {
    if n == 0 then 0.0
    else (if n - 1 in chans && n - 1 in callers then Weight(chans[n - 1], callers[n - 1]) else 0.0)
         + Held(chans, callers, n - 1)
  }

  ghost function Booked(rs: seq<SendResult>): real {
    if rs == [] then 0.0 else Booked(rs[..|rs| - 1]) + rs[|rs| - 1].costUSD
  }

  ghost function Charged(turns: seq<Turn>): real {
    if turns == [] then 0.0 else Charged(turns[..|turns| - 1]) + turns[|turns| - 1].ev.costUSD
  }

  ghost function Carried(turns: seq<Turn>, fan: Option<Fan>): real {
    if turns != [] && fan.Some? && (fan.value.next == 0 || fan.value.bookHead)
    then turns[|turns| - 1].ev.costUSD else 0.0
  }

  ghost predicate Conserved(s: State) {
    Charged(s.turns) == Carried(s.turns, s.fan) + Booked(s.booked) + Held(s.chans, s.callers, s.nextId)
  }

  lemma {:induction false} HeldUpdate(chans: map<nat, Chan>, callers: map<nat, Caller>, n: nat, id: nat, c: Chan, w: Caller)
    requires id in chans && id in callers
    ensures Held(chans[id := c], callers[id := w], n)
         == Held(chans, callers, n) + (if id < n then Weight(c, w) - Weight(chans[id], callers[id]) else 0.0)
  {
    if n > 0 { HeldUpdate(chans, callers, n - 1, id, c, w); }
  }

  lemma {:induction false} HeldNew(chans: map<nat, Chan>, callers: map<nat, Caller>, n: nat, id: nat, c: Chan, w: Caller)
    requires id >= n
    ensures Held(chans[id := c], callers[id := w], n) == Held(chans, callers, n)
  {
    if n > 0 { HeldNew(chans, callers, n - 1, id, c, w); }
  }

  /** One slot changed hands for the difference `d`. */
  lemma SlotShift(s: State, id: nat, c: Chan, w: Caller)
    requires DomainOk(s.chans.Keys, s.callers.Keys, s.fate.Keys, s.nextId) && Known(s, id)
    ensures Held(s.chans[id := c], s.callers[id := w], s.nextId)
         == Held(s.chans, s.callers, s.nextId) + Weight(c, w) - Weight(s.chans[id], s.callers[id])
  {
    HeldUpdate(s.chans, s.callers, s.nextId, id, c, w);
  }

  /** A caller's own moves keep its weight: what it takes it holds, and the only
      result it throws away is a follower's, which costs nothing. */
  lemma MoveWeight(move: Move, id: nat, c: Chan, w: Caller, alive: bool, f: Fate,
                   turns: seq<Turn>, fan: Option<Fan>, discards: seq<Discard>)
    requires MoveGuard(move, c, w, alive) && SlotOk(id, c, w, f, turns, fan, discards)
    requires forall k :: 0 <= k < |turns| ==> turns[k].owners != []
    ensures Weight(MoveChan(move, c), MoveCaller(move, c, w)) == Weight(c, w)
  {
  }

  lemma OwnConserves(s: State, id: nat, move: Move)
    requires Inv(s) && Conserved(s) && Enabled(s, Own(id, move))
    ensures Conserved(Apply(s, Own(id, move)))
  {
    SlotAt(s, id);
    forall k | 0 <= k < |s.turns| ensures s.turns[k].owners != [] {
      assert OwnersOf(k, s.turns[k].owners, s.fate);
    }
    MoveWeight(move, id, s.chans[id], s.callers[id], s.alive, s.fate[id], s.turns, s.fan, s.discards);
    SlotShift(s, id, MoveChan(move, s.chans[id]), MoveCaller(move, s.chans[id], s.callers[id]));
  }

  /** Steps that touch no result: a caller moves on empty-handed. */
  lemma EmptyHanded(s: State, id: nat, w: Caller)
    requires DomainOk(s.chans.Keys, s.callers.Keys, s.fate.Keys, s.nextId) && Known(s, id)
    requires OnCaller(s.callers[id]) == OnCaller(w)
    ensures Held(s.chans, s.callers[id := w], s.nextId) == Held(s.chans, s.callers, s.nextId)
  {
    assert s.chans[id := s.chans[id]] == s.chans;
    SlotShift(s, id, s.chans[id], w);
  }

  lemma FanDeliverConserves(s: State)
    requires Inv(s) && Conserved(s) && CanDeliver(s)
    ensures Conserved(DoFanDeliver(s))
  {
    var id := FanDeliverSlots(s);
    var k := |s.turns| - 1;
    assert OwnersOf(k, s.turns[k].owners, s.fate);
    SlotAt(s, id);
    FanDeliverChan(s, id);
    var s' := DoFanDeliver(s);
    assert s.callers[id := s.callers[id]] == s.callers;
    SlotShift(s, id, s'.chans[id], s.callers[id]);
  }

  lemma DiscardSendConserves(s: State, k: nat)
    requires Inv(s) && Conserved(s) && HasVictim(s, k) && s.discards[k].checked
    ensures Conserved(DoDiscardSend(s, k))
  {
    var id, c := DiscardSendSlot(s, k);
    assert s.callers[id := s.callers[id]] == s.callers;
    SlotShift(s, id, c, s.callers[id]);
  }

  lemma BookAbandonedConserves(s: State, id: nat)
    requires Inv(s) && Conserved(s) && Enabled(s, BookAbandoned(id))
    ensures Conserved(Apply(s, BookAbandoned(id)))
  {
    var r := s.callers[id].res;
    BookedLast(s.booked, r);
    BookingReleased(s, id);
  }

  lemma BookedLast(rs: seq<SendResult>, r: SendResult)
    ensures Booked(rs + [r]) == Booked(rs) + r.costUSD
  {
    assert (rs + [r])[..|rs|] == rs;
  }

  lemma BookingReleased(s: State, id: nat)
    requires DomainOk(s.chans.Keys, s.callers.Keys, s.fate.Keys, s.nextId) && Known(s, id) && s.callers[id].Booking?
    ensures Held(s.chans, s.callers[id := Left(Canceled)], s.nextId)
         == Held(s.chans, s.callers, s.nextId) - s.callers[id].res.costUSD
  {
    assert s.chans[id := s.chans[id]] == s.chans;
    SlotShift(s, id, s.chans[id], Left(Canceled));
  }

  lemma FanBookConserves(s: State)
    requires Inv(s) && Conserved(s) && CanBook(s)
    ensures Conserved(DoFanBook(s))
  {
    BookedLast(s.booked, HeadResult(|s.turns| - 1, s.turns[|s.turns| - 1]));
    assert s.fan.value.next == 1;
  }

  lemma ResultFrameConserves(s: State, ev: ResultEvent)
    requires Inv(s) && Conserved(s) && s.fan.None?
    ensures Conserved(DoResultFrame(s, ev))
  {
    var s' := DoResultFrame(s, ev);
    if s.q.current != [] {
      assert s'.turns[..|s.turns|] == s.turns;
    }
  }

  /** Drafting, queueing, writing and failing to write move no money. */
  lemma SendingConserves(s: State, step: Step)
    requires DomainOk(s.chans.Keys, s.callers.Keys, s.fate.Keys, s.nextId) && Conserved(s) && Enabled(s, step)
    requires step.Draft? || step.TakeLock? || step.WriteDone? || step.RemoveFailed?
    ensures Conserved(Apply(s, step))
  {
    match step
    case Draft => HeldNew(s.chans, s.callers, s.nextId, s.nextId, FreshChan, Drafted);
    case TakeLock(id, uuid) => EmptyHanded(s, id, DoTakeLock(s, id, uuid).callers[id]);
    case WriteDone(id, ok) => EmptyHanded(s, id, DoWriteDone(s, id, ok).callers[id]);
    case RemoveFailed(id) => EmptyHanded(s, id, Left(WriteError));
  }

  /** A caller's own moves keep its weight and a booking moves it to the hook. */
  lemma CallerStepConserves(s: State, step: Step)
    requires Inv(s) && Conserved(s) && Enabled(s, step) && !LoopStep(step) && !DiscardStep(step)
    ensures Conserved(Apply(s, step))
  {
    match step
    case BookAbandoned(id) => BookAbandonedConserves(s, id);
    case Own(id, move) => OwnConserves(s, id, move);
    case _ => SendingConserves(s, step);
  }

  /** The sum looks at results and callers only, so claims, discards and
      death, which touch neither, keep it. */
  lemma QuietConserves(s: State, s': State)
    requires Conserved(s)
    requires s'.turns == s.turns && s'.fan == s.fan && s'.booked == s.booked
    requires s'.chans == s.chans && s'.callers == s.callers && s'.nextId == s.nextId
    ensures Conserved(s')
  {
  }

  lemma DiscardStepConserves(s: State, step: Step)
    requires Inv(s) && Conserved(s) && Enabled(s, step) && DiscardStep(step)
    ensures Conserved(Apply(s, step))
  {
    match step
    case StartDiscard(reason) => SnapshotConserves(s, reason);
    case DiscardCheck(k) => CheckConserves(s, k);
    case DiscardSend(k) => DiscardSendConserves(s, k);
  }

  lemma SnapshotConserves(s: State, reason: string)
    requires Conserved(s)
    ensures Conserved(DoStartDiscard(s, reason))
  {
    QuietConserves(s, DoStartDiscard(s, reason));
  }

  lemma CheckConserves(s: State, k: nat)
    requires Conserved(s) && HasVictim(s, k)
    ensures Conserved(DoDiscardCheck(s, k))
  {
    QuietConserves(s, DoDiscardCheck(s, k));
  }

  lemma LoopStepConserves(s: State, step: Step)
    requires Inv(s) && Conserved(s) && Enabled(s, step) && LoopStep(step)
    ensures Conserved(Apply(s, step))
  {
    match step
    case ReplayFrame(uuid) => QuietConserves(s, s.(q := Replay(s.q, uuid)));
    case ResultFrame(ev) => ResultFrameConserves(s, ev);
    case FanDeliver => FanDeliverConserves(s);
    case FanBook => FanBookConserves(s);
    case FanEnd => FanEndConserves(s);
    case Die => QuietConserves(s, s.(alive := false));
  }

  lemma StepConserves(s: State, step: Step)
    requires Inv(s) && Conserved(s) && Enabled(s, step)
    ensures Conserved(Apply(s, step))
  {
    if LoopStep(step) {
      LoopStepConserves(s, step);
    } else if DiscardStep(step) {
      DiscardStepConserves(s, step);
    } else {
      CallerStepConserves(s, step);
    }
  }

  lemma FanEndConserves(s: State)
    requires Inv(s) && Conserved(s) && CanEnd(s)
    ensures Conserved(s.(fan := None))
  {
    assert OwnersOf(|s.turns| - 1, s.turns[|s.turns| - 1].owners, s.fate);
  }

  lemma {:induction false} RunConserves(s: State, steps: seq<Step>, s': State)
    requires Inv(s) && Conserved(s) && Run(s, steps, s')
    ensures Conserved(s')
    decreases |steps|
  {
    if steps != [] {
      StepOk(s, steps[0]);
      StepConserves(s, steps[0]);
      RunConserves(Apply(s, steps[0]), steps[1..], s');
    }
  }

  /** No interleaving of cancels, orphan exits, deaths and fan-outs creates or
      destroys cost. */
  lemma CostConserved(s: State)
    requires Reachable(s)
    ensures Charged(s.turns) == Carried(s.turns, s.fan) + Booked(s.booked) + Held(s.chans, s.callers, s.nextId)
  {
    var steps: seq<Step> :| Run(INIT, steps, s);
    InitOk();
    assert Held(map[], map[], 1) == Held(map[], map[], 0) == 0.0;
    RunConserves(INIT, steps, s);
  }
}
