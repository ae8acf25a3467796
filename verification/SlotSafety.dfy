/** The inductive invariant of SlotProtocol.  Every conjunct names only the
    components it speaks of, so a step that leaves them alone keeps it. */
module SlotSafety {
  import opened Wrappers
  import opened SlotQueue
  import opened SlotChannel
  import opened SlotProtocol

  /** Owner `j` of turn `k` has been served by the fan-out. */
  ghost predicate Served(turns: seq<Turn>, fan: Option<Fan>, k: nat, j: nat) {
    k + 1 < |turns| || fan.None? || j < fan.value.next
  }

  /** A caller that has taken nothing from its channels and has not tombstoned
      its slot. */
  ghost predicate Untouched(w: Caller) {
    Inside(w) || w == Left(WriteError) || w == Left(TimedOut) || w == Left(Exited)
  }

  /** A caller still inside SendPassthrough with its slot queued. */
  ghost predicate Inside(w: Caller) {
    w.Writing? || w.WriteFailed? || w.Waiting? || w.Dying? || w.Polled? || w.Expiring?
  }

  ghost predicate DomainOk(ids: set<nat>, callers: set<nat>, fates: set<nat>, nextId: nat) {
    && ids == callers == fates
    && nextId >= 1
    && forall id :: id in ids ==> 1 <= id < nextId
  }

  ghost predicate InQueue(q: Queue, id: nat) { id in Ids(q.pending) || id in q.current }

  ghost predicate FateOk(q: Queue, fate: map<nat, Fate>) {
    && (forall id :: InQueue(q, id) ==> id in fate)
    && (forall id :: id in fate ==> (fate[id] == Queued <==> InQueue(q, id)))
  }

  ghost predicate OwnersOf(k: nat, owners: seq<nat>, fate: map<nat, Fate>) {
    && owners != []
    && forall j :: 0 <= j < |owners| ==> owners[j] in fate && fate[owners[j]] == Owner(k, j)
  }

  ghost predicate TurnsOk(turns: seq<Turn>, fate: map<nat, Fate>) {
    forall k :: 0 <= k < |turns| ==> OwnersOf(k, turns[k].owners, fate)
  }

  ghost predicate FanOk(turns: seq<Turn>, fan: Option<Fan>) {
    fan.Some? ==>
      && turns != []
      && fan.value.next <= |turns[|turns| - 1].owners|
      && (fan.value.bookHead ==> fan.value.next == 1)
  }

  /** A victim the discard has dealt with: tombstoned, or an error was sent. */
  ghost predicate Told(chans: map<nat, Chan>, id: nat) {
    id in chans && (chans[id].canceled || chans[id].errors > 0)
  }

  ghost predicate DiscardOk(k: nat, d: Discard, fate: map<nat, Fate>, chans: map<nat, Chan>) {
    && d.next <= |d.victims|
    && (d.checked ==> d.next < |d.victims|)
    && (forall i :: 0 <= i < |d.victims| ==> d.victims[i] in fate && fate[d.victims[i]] == Dropped(k))
    && (forall i :: 0 <= i < d.next ==> Told(chans, d.victims[i]))
  }

  ghost predicate DiscardsOk(discards: seq<Discard>, fate: map<nat, Fate>, chans: map<nat, Chan>) {
    forall k :: 0 <= k < |discards| ==> DiscardOk(k, discards[k], fate, chans)
  }

  ghost predicate WriterOk(writer: Option<nat>, callers: map<nat, Caller>) {
    && (writer.Some? ==> writer.value in callers)
    && forall id :: id in callers ==> (callers[id].Writing? <==> writer == Some(id))
  }

  /** What a slot's channels hold, by what became of the slot. */
  ghost predicate ChanOk(id: nat, c: Chan, f: Fate, turns: seq<Turn>, fan: Option<Fan>) {
    && (c.resultCh.Some? ==> c.results == [c.resultCh.value])
    && (c.errCh.Some? ==> c.errors > 0)
    && match f
       case Fresh => c == FreshChan
       case Queued => c.results == [] && c.errors == 0
       case Removed => c.results == [] && c.errors == 0
       case Dropped(_) => c.results == []
       case Owner(k, j) =>
         && c.errors == 0
         && k < |turns| && j < |turns[k].owners| && turns[k].owners[j] == id
         && (if Served(turns, fan, k, j) then c.results == [OwnerResult(k, turns[k], j)] || (c.results == [] && c.canceled)
             else c.results == [])
  }

  /** What a caller's progress says of its slot. */
  ghost predicate CallerOk(c: Chan, w: Caller, f: Fate) {
    && (w.Drafted? || w == Left(Rejected) <==> f == Fresh)
    && (f.Removed? ==> w == Left(WriteError))
    && (Untouched(w) ==> !c.canceled && (c.results != [] ==> c.resultCh.Some?))
    && (Inside(w) && c.errors > 0 ==> c.errCh.Some?)
    && match w
       case Booking(r) => c.canceled && c.results == [r] && c.resultCh.None? && r.mergedWithHead == 0
       case Left(Answered(r)) => c.results == [r] && c.resultCh.None?
       case Left(Canceled) => c.canceled && c.resultCh.None?
       case Left(Orphaned) => c.canceled && c.results == []
       case Left(Failed(_)) => c.errors > 0
       case _ => true
  }

  ghost predicate SlotOk(id: nat, c: Chan, w: Caller, f: Fate, turns: seq<Turn>, fan: Option<Fan>, discards: seq<Discard>) {
    && ChanOk(id, c, f, turns, fan)
    && CallerOk(c, w, f)
    && (f.Dropped? ==> f.discard < |discards| && id in discards[f.discard].victims)
  }

  ghost predicate SlotsOk(chans: map<nat, Chan>, callers: map<nat, Caller>, fate: map<nat, Fate>,
                          turns: seq<Turn>, fan: Option<Fan>, discards: seq<Discard>)
  {
    forall id :: id in chans && id in callers && id in fate ==>
      SlotOk(id, chans[id], callers[id], fate[id], turns, fan, discards)
  }

  /** Ranks by ticket: the pending queue and the socket agree on the order. */
  ghost predicate InTicketOrder(ids: seq<nat>, tickets: map<nat, nat>) {
    && (forall i :: 0 <= i < |ids| ==> ids[i] in tickets)
    && (forall i, j :: 0 <= i < j < |ids| ==> tickets[ids[i]] < tickets[ids[j]])
  }

  ghost predicate TicketsOk(tickets: map<nat, nat>, nextTicket: nat, q: Queue, wire: seq<nat>, writer: Option<nat>) {
    && (forall id :: id in tickets ==> tickets[id] < nextTicket)
    && InTicketOrder(Ids(q.pending), tickets)
    && InTicketOrder(wire, tickets)
    && (writer.Some? ==>
          && writer.value in tickets && tickets[writer.value] + 1 == nextTicket
          && forall i :: 0 <= i < |wire| ==> tickets[wire[i]] + 1 < nextTicket)
  }

  ghost predicate TicketFates(tickets: map<nat, nat>, fate: map<nat, Fate>) {
    forall id :: id in tickets ==> id in fate && fate[id] != Fresh
  }

  function CountTurn(rs: seq<SendResult>, k: nat): nat {
    if rs == [] then 0 else CountTurn(rs[..|rs| - 1], k) + (if rs[|rs| - 1].turn == k then 1 else 0)
  }

  /** The head `h` of turn `k` was refused or tombstoned, and its result has
      gone to the unowned-result hook. */
  ghost predicate HeadBooked(k: nat, n: nat, c: Chan, w: Caller, fan: Option<Fan>) {
    && (k + 1 < n || fan.None? || 0 < fan.value.next)
    && if c.results == [] then !(k + 1 == n && fan.Some? && fan.value.bookHead)
       else w == Left(Canceled)
  }

  ghost predicate TurnBooked(k: nat, owners: seq<nat>, n: nat, booked: seq<SendResult>,
                             chans: map<nat, Chan>, callers: map<nat, Caller>, fan: Option<Fan>)
  {
    owners != [] && owners[0] in chans && owners[0] in callers &&
    CountTurn(booked, k) == if HeadBooked(k, n, chans[owners[0]], callers[owners[0]], fan) then 1 else 0
  }

  ghost predicate BookedOk(booked: seq<SendResult>, turns: seq<Turn>, chans: map<nat, Chan>,
                           callers: map<nat, Caller>, fan: Option<Fan>)
  {
    forall k :: 0 <= k < |turns| ==> TurnBooked(k, turns[k].owners, |turns|, booked, chans, callers, fan)
  }

  /** Everything the hook received is the head's result of a turn. */
  ghost predicate BookingsOk(booked: seq<SendResult>, turns: seq<Turn>) {
    forall i :: 0 <= i < |booked| ==>
      booked[i].turn < |turns| && booked[i] == HeadResult(booked[i].turn, turns[booked[i].turn])
  }

  /** While the refused head's result waits to be booked, nothing was delivered. */
  ghost predicate PendingBookOk(turns: seq<Turn>, fan: Option<Fan>, chans: map<nat, Chan>) {
    fan.Some? && fan.value.bookHead && turns != [] && turns[|turns| - 1].owners != [] ==>
      turns[|turns| - 1].owners[0] in chans && chans[turns[|turns| - 1].owners[0]].results == []
  }

  ghost predicate Inv(s: State) {
    && DomainOk(s.chans.Keys, s.callers.Keys, s.fate.Keys, s.nextId)
    && QueueOk(s.q)
    && FateOk(s.q, s.fate)
    && TurnsOk(s.turns, s.fate)
    && FanOk(s.turns, s.fan)
    && DiscardsOk(s.discards, s.fate, s.chans)
    && WriterOk(s.writer, s.callers)
    && SlotsOk(s.chans, s.callers, s.fate, s.turns, s.fan, s.discards)
    && TicketsOk(s.tickets, s.nextTicket, s.q, s.wire, s.writer)
    && TicketFates(s.tickets, s.fate)
    && BookedOk(s.booked, s.turns, s.chans, s.callers, s.fan)
    && BookingsOk(s.booked, s.turns)
    && PendingBookOk(s.turns, s.fan, s.chans)
  }

  lemma InitOk()
    ensures Inv(INIT)
  {
  }

  // ---------- steps of one caller on its own slot ----------

  /** A caller moved on and perhaps took from its own channels: nothing was
      sent, and a booked head stays booked. */
  ghost predicate OwnMove(c: Chan, w: Caller, f: Fate, c': Chan, w': Caller) {
    && c'.results == c.results
    && c'.errors == c.errors
    && (c.canceled ==> c'.canceled)
    && (w.Writing? <==> w'.Writing?)
    && (f.Owner? && f.pos == 0 && c.results != [] ==> (w == Left(Canceled) <==> w' == Left(Canceled)))
  }

  lemma DiscardsKept(discards: seq<Discard>, fate: map<nat, Fate>, chans: map<nat, Chan>, id: nat, c: Chan)
    requires DiscardsOk(discards, fate, chans)
    requires id in chans && (chans[id].canceled ==> c.canceled) && c.errors >= chans[id].errors
    ensures DiscardsOk(discards, fate, chans[id := c])
  {
    forall k | 0 <= k < |discards| ensures DiscardOk(k, discards[k], fate, chans[id := c]) {
      assert DiscardOk(k, discards[k], fate, chans);
      forall i | 0 <= i < discards[k].next ensures Told(chans[id := c], discards[k].victims[i]) {
        assert Told(chans, discards[k].victims[i]);
      }
    }
  }

  lemma BookedKept(s: State, id: nat, c: Chan, w: Caller)
    requires TurnsOk(s.turns, s.fate) && BookedOk(s.booked, s.turns, s.chans, s.callers, s.fan)
    requires Known(s, id) && OwnMove(s.chans[id], s.callers[id], s.fate[id], c, w)
    ensures BookedOk(s.booked, s.turns, s.chans[id := c], s.callers[id := w], s.fan)
  {
    forall k | 0 <= k < |s.turns|
      ensures TurnBooked(k, s.turns[k].owners, |s.turns|, s.booked, s.chans[id := c], s.callers[id := w], s.fan)
    {
      assert TurnBooked(k, s.turns[k].owners, |s.turns|, s.booked, s.chans, s.callers, s.fan);
      assert OwnersOf(k, s.turns[k].owners, s.fate);
    }
  }

  lemma SlotsKept(s: State, id: nat, c: Chan, w: Caller)
    requires SlotsOk(s.chans, s.callers, s.fate, s.turns, s.fan, s.discards)
    requires Known(s, id) && SlotOk(id, c, w, s.fate[id], s.turns, s.fan, s.discards)
    ensures SlotsOk(s.chans[id := c], s.callers[id := w], s.fate, s.turns, s.fan, s.discards)
  {
    forall x | x in s.chans[id := c] && x in s.callers[id := w] && x in s.fate
      ensures SlotOk(x, s.chans[id := c][x], s.callers[id := w][x], s.fate[x], s.turns, s.fan, s.discards)
    {
      if x != id {
        assert SlotOk(x, s.chans[x], s.callers[x], s.fate[x], s.turns, s.fan, s.discards);
      }
    }
  }

  lemma PendingBookKept(s: State, id: nat, c: Chan)
    requires PendingBookOk(s.turns, s.fan, s.chans) && id in s.chans && c.results == s.chans[id].results
    ensures PendingBookOk(s.turns, s.fan, s.chans[id := c])
  {
  }

  lemma MoveDomain(s: State, id: nat, c: Chan, w: Caller)
    requires DomainOk(s.chans.Keys, s.callers.Keys, s.fate.Keys, s.nextId) && WriterOk(s.writer, s.callers)
    requires Known(s, id) && (s.callers[id].Writing? <==> w.Writing?)
    ensures DomainOk(s.chans[id := c].Keys, s.callers[id := w].Keys, s.fate.Keys, s.nextId)
    ensures WriterOk(s.writer, s.callers[id := w])
  {
    assert s.chans[id := c].Keys == s.chans.Keys && s.callers[id := w].Keys == s.callers.Keys;
  }

  lemma OwnMoveOk(s: State, id: nat, c: Chan, w: Caller)
    requires Inv(s) && Known(s, id)
    requires OwnMove(s.chans[id], s.callers[id], s.fate[id], c, w)
    requires SlotOk(id, c, w, s.fate[id], s.turns, s.fan, s.discards)
    ensures Inv(SetCaller(SetChan(s, id, c), id, w))
  {
    MoveDomain(s, id, c, w);
    DiscardsKept(s.discards, s.fate, s.chans, id, c);
    BookedKept(s, id, c, w);
    SlotsKept(s, id, c, w);
    PendingBookKept(s, id, c);
  }

  lemma MoveLocal(move: Move, id: nat, c: Chan, w: Caller, alive: bool, f: Fate,
                  turns: seq<Turn>, fan: Option<Fan>, discards: seq<Discard>)
    requires MoveGuard(move, c, w, alive)
    requires SlotOk(id, c, w, f, turns, fan, discards)
    ensures OwnMove(c, w, f, MoveChan(move, c), MoveCaller(move, c, w))
    ensures SlotOk(id, MoveChan(move, c), MoveCaller(move, c, w), f, turns, fan, discards)
  {
  }

  lemma OwnOk(s: State, id: nat, move: Move)
    requires Inv(s) && Enabled(s, Own(id, move))
    ensures Inv(Apply(s, Own(id, move)))
  {
    MoveLocal(move, id, s.chans[id], s.callers[id], s.alive, s.fate[id], s.turns, s.fan, s.discards);
    OwnMoveOk(s, id, MoveChan(move, s.chans[id]), MoveCaller(move, s.chans[id], s.callers[id]));
  }

  // ---------- what a change of fates, turns or discards keeps ----------

  /** Claimed and discarded slots stay so. */
  ghost predicate FatesGrow(fate: map<nat, Fate>, fate': map<nat, Fate>) {
    forall id :: id in fate ==> id in fate' && (fate[id].Owner? || fate[id].Dropped? ==> fate'[id] == fate[id])
  }

  lemma TurnsGrow(turns: seq<Turn>, fate: map<nat, Fate>, fate': map<nat, Fate>)
    requires TurnsOk(turns, fate) && FatesGrow(fate, fate')
    ensures TurnsOk(turns, fate')
  {
    forall k | 0 <= k < |turns| ensures OwnersOf(k, turns[k].owners, fate') {
      assert OwnersOf(k, turns[k].owners, fate);
    }
  }

  lemma DiscardsGrow(discards: seq<Discard>, fate: map<nat, Fate>, fate': map<nat, Fate>,
                     chans: map<nat, Chan>, chans': map<nat, Chan>)
    requires DiscardsOk(discards, fate, chans) && FatesGrow(fate, fate')
    requires forall id :: id in chans ==> id in chans' && (Told(chans, id) ==> Told(chans', id))
    ensures DiscardsOk(discards, fate', chans')
  {
    forall k | 0 <= k < |discards| ensures DiscardOk(k, discards[k], fate', chans') {
      assert DiscardOk(k, discards[k], fate, chans);
      forall i | 0 <= i < discards[k].next ensures Told(chans', discards[k].victims[i]) {
        assert Told(chans, discards[k].victims[i]);
      }
    }
  }

  // ---------- joining the queue ----------

  lemma DraftOk(s: State)
    requires Inv(s)
    ensures Inv(DoDraft(s))
  {
    var s' := DoDraft(s);
    DraftFates(s);
    TurnsGrow(s.turns, s.fate, s'.fate);
    DiscardsGrow(s.discards, s.fate, s'.fate, s.chans, s'.chans);
    DraftSlots(s);
    DraftBooked(s);
  }

  lemma DraftFates(s: State)
    requires DomainOk(s.chans.Keys, s.callers.Keys, s.fate.Keys, s.nextId)
    requires FateOk(s.q, s.fate) && WriterOk(s.writer, s.callers) && TicketFates(s.tickets, s.fate)
    ensures var s' := DoDraft(s);
      && DomainOk(s'.chans.Keys, s'.callers.Keys, s'.fate.Keys, s'.nextId)
      && FateOk(s.q, s'.fate) && WriterOk(s.writer, s'.callers) && TicketFates(s.tickets, s'.fate)
      && FatesGrow(s.fate, s'.fate)
      && (forall id :: id in s.chans ==> id in s'.chans && s'.chans[id] == s.chans[id])
  {
    var s', id := DoDraft(s), s.nextId;
    assert id !in s.chans && id !in s.callers && id !in s.fate;
    assert !InQueue(s.q, id);
    assert s'.chans.Keys == s.chans.Keys + {id};
    assert s'.callers.Keys == s.callers.Keys + {id};
    assert s'.fate.Keys == s.fate.Keys + {id};
  }

  lemma DraftSlots(s: State)
    requires SlotsOk(s.chans, s.callers, s.fate, s.turns, s.fan, s.discards)
    requires s.chans.Keys == s.callers.Keys == s.fate.Keys
    ensures var s' := DoDraft(s); SlotsOk(s'.chans, s'.callers, s'.fate, s.turns, s.fan, s.discards)
  {
    var s' := DoDraft(s);
    forall x | x in s'.chans && x in s'.callers && x in s'.fate
      ensures SlotOk(x, s'.chans[x], s'.callers[x], s'.fate[x], s.turns, s.fan, s.discards)
    {
      if x != s.nextId { assert SlotOk(x, s.chans[x], s.callers[x], s.fate[x], s.turns, s.fan, s.discards); }
    }
  }

  lemma DraftBooked(s: State)
    requires BookedOk(s.booked, s.turns, s.chans, s.callers, s.fan) && PendingBookOk(s.turns, s.fan, s.chans)
    requires s.nextId !in s.chans && s.nextId !in s.callers
    ensures var s' := DoDraft(s); BookedOk(s.booked, s.turns, s'.chans, s'.callers, s.fan) && PendingBookOk(s.turns, s.fan, s'.chans)
  {
    var s' := DoDraft(s);
    forall k | 0 <= k < |s.turns|
      ensures TurnBooked(k, s.turns[k].owners, |s.turns|, s.booked, s'.chans, s'.callers, s.fan)
    {
      assert TurnBooked(k, s.turns[k].owners, |s.turns|, s.booked, s.chans, s.callers, s.fan);
    }
  }

  /** A caller moved on while the fate of its slot changed to `f`. */
  lemma SlotsMoved(s: State, id: nat, w: Caller, f: Fate)
    requires SlotsOk(s.chans, s.callers, s.fate, s.turns, s.fan, s.discards)
    requires Known(s, id) && SlotOk(id, s.chans[id], w, f, s.turns, s.fan, s.discards)
    ensures SlotsOk(s.chans, s.callers[id := w], s.fate[id := f], s.turns, s.fan, s.discards)
  {
    forall x | x in s.chans && x in s.callers[id := w] && x in s.fate[id := f]
      ensures SlotOk(x, s.chans[x], s.callers[id := w][x], s.fate[id := f][x], s.turns, s.fan, s.discards)
    {
      if x != id { assert SlotOk(x, s.chans[x], s.callers[x], s.fate[x], s.turns, s.fan, s.discards); }
    }
  }

  lemma BookedMoved(s: State, id: nat, w: Caller)
    requires TurnsOk(s.turns, s.fate) && BookedOk(s.booked, s.turns, s.chans, s.callers, s.fan)
    requires Known(s, id) && OwnMoveCaller(s.chans[id], s.callers[id], s.fate[id], w)
    ensures BookedOk(s.booked, s.turns, s.chans, s.callers[id := w], s.fan)
  {
    forall k | 0 <= k < |s.turns|
      ensures TurnBooked(k, s.turns[k].owners, |s.turns|, s.booked, s.chans, s.callers[id := w], s.fan)
    {
      assert TurnBooked(k, s.turns[k].owners, |s.turns|, s.booked, s.chans, s.callers, s.fan);
      assert OwnersOf(k, s.turns[k].owners, s.fate);
    }
  }

  /** The part of OwnMove a booked head cares about. */
  ghost predicate OwnMoveCaller(c: Chan, w: Caller, f: Fate, w': Caller) {
    f.Owner? && f.pos == 0 && c.results != [] ==> (w == Left(Canceled) <==> w' == Left(Canceled))
  }

  lemma TakeLockFates(s: State, id: nat, uuid: string)
    requires DomainOk(s.chans.Keys, s.callers.Keys, s.fate.Keys, s.nextId)
    requires FateOk(s.q, s.fate) && WriterOk(s.writer, s.callers) && TicketFates(s.tickets, s.fate)
    requires Known(s, id) && Is(s, id, Drafted) && s.writer.None? && s.fate[id] == Fresh
    requires |s.q.pending| < MAX_PENDING_SLOTS
    ensures var s' := DoTakeLock(s, id, uuid);
      && DomainOk(s'.chans.Keys, s'.callers.Keys, s'.fate.Keys, s'.nextId)
      && FateOk(s'.q, s'.fate) && WriterOk(s'.writer, s'.callers) && TicketFates(s'.tickets, s'.fate)
      && FatesGrow(s.fate, s'.fate)
      && !InQueue(s.q, id)
  {
    var s' := DoTakeLock(s, id, uuid);
    assert s'.callers.Keys == s.callers.Keys && s'.fate.Keys == s.fate.Keys;
    assert !InQueue(s.q, id);
    assert Ids(s'.q.pending) == Ids(s.q.pending) + [id];
    assert forall x :: InQueue(s'.q, x) <==> InQueue(s.q, x) || x == id;
  }

  lemma TakeLockTickets(s: State, id: nat, uuid: string)
    requires TicketsOk(s.tickets, s.nextTicket, s.q, s.wire, s.writer) && TicketFates(s.tickets, s.fate)
    requires id in s.fate && s.fate[id] == Fresh && s.writer.None? && |s.q.pending| < MAX_PENDING_SLOTS
    ensures var s' := DoTakeLock(s, id, uuid); TicketsOk(s'.tickets, s'.nextTicket, s'.q, s'.wire, s'.writer)
  {
    var s' := DoTakeLock(s, id, uuid);
    assert id !in s.tickets;
    assert Ids(s'.q.pending) == Ids(s.q.pending) + [id];
  }

  lemma TakeLockOk(s: State, id: nat, uuid: string)
    requires Inv(s) && Known(s, id) && Is(s, id, Drafted) && s.writer.None?
    ensures Inv(DoTakeLock(s, id, uuid))
  {
    SlotAt(s, id);
    if |s.q.pending| >= MAX_PENDING_SLOTS {
      assert s.chans[id := s.chans[id]] == s.chans;
      OwnMoveOk(s, id, s.chans[id], Left(Rejected));
    } else {
      var s' := DoTakeLock(s, id, uuid);
      TakeLockFates(s, id, uuid);
      TakeLockTickets(s, id, uuid);
      EnqueueOk(s.q, id, uuid);
      TurnsGrow(s.turns, s.fate, s'.fate);
      DiscardsGrow(s.discards, s.fate, s'.fate, s.chans, s.chans);
      SlotsMoved(s, id, Writing, Queued);
      BookedMoved(s, id, Writing);
    }
  }

  lemma SlotAt(s: State, id: nat)
    requires SlotsOk(s.chans, s.callers, s.fate, s.turns, s.fan, s.discards) && Known(s, id)
    ensures SlotOk(id, s.chans[id], s.callers[id], s.fate[id], s.turns, s.fan, s.discards)
  {
  }

  lemma WriteDoneOk(s: State, id: nat, ok: bool)
    requires Inv(s) && Known(s, id) && Is(s, id, Writing)
    ensures Inv(DoWriteDone(s, id, ok))
  {
    var s' := DoWriteDone(s, id, ok);
    SlotAt(s, id);
    WriteDoneLock(s, id, ok);
    assert s.fate[id := s.fate[id]] == s.fate;
    SlotsMoved(s, id, s'.callers[id], s.fate[id]);
    BookedMoved(s, id, s'.callers[id]);
  }

  lemma WriteDoneLock(s: State, id: nat, ok: bool)
    requires WriterOk(s.writer, s.callers) && TicketsOk(s.tickets, s.nextTicket, s.q, s.wire, s.writer)
    requires Known(s, id) && Is(s, id, Writing)
    ensures var s' := DoWriteDone(s, id, ok);
      && s'.callers.Keys == s.callers.Keys
      && WriterOk(s'.writer, s'.callers) && TicketsOk(s'.tickets, s'.nextTicket, s'.q, s'.wire, s'.writer)
  {
    assert s.writer == Some(id);
  }

  lemma RemoveFailedOk(s: State, id: nat)
    requires Inv(s) && Known(s, id) && Is(s, id, WriteFailed)
    ensures Inv(DoRemoveFailed(s, id))
  {
    var s' := DoRemoveFailed(s, id);
    RemoveFailedSlot(s, id);
    RemoveFailedFates(s, id);
    RemoveFailedTickets(s, id);
    RemoveByIdOk(s.q, id);
    TurnsGrow(s.turns, s.fate, s'.fate);
    DiscardsGrow(s.discards, s.fate, s'.fate, s.chans, s.chans);
    BookedMoved(s, id, Left(WriteError));
  }

  lemma RemoveFailedSlot(s: State, id: nat)
    requires SlotsOk(s.chans, s.callers, s.fate, s.turns, s.fan, s.discards)
    requires Known(s, id) && Is(s, id, WriteFailed)
    ensures s.fate[id] != Fresh && OwnMoveCaller(s.chans[id], s.callers[id], s.fate[id], Left(WriteError))
    ensures var s' := DoRemoveFailed(s, id); SlotsOk(s'.chans, s'.callers, s'.fate, s'.turns, s'.fan, s'.discards)
  {
    var s' := DoRemoveFailed(s, id);
    SlotAt(s, id);
    assert s'.fate == s.fate[id := s'.fate[id]];
    SlotsMoved(s, id, Left(WriteError), s'.fate[id]);
  }

  lemma RemoveFailedFates(s: State, id: nat)
    requires DomainOk(s.chans.Keys, s.callers.Keys, s.fate.Keys, s.nextId)
    requires FateOk(s.q, s.fate) && WriterOk(s.writer, s.callers) && TicketFates(s.tickets, s.fate)
    requires Known(s, id) && Is(s, id, WriteFailed) && s.fate[id] != Fresh
    ensures var s' := DoRemoveFailed(s, id);
      && DomainOk(s'.chans.Keys, s'.callers.Keys, s'.fate.Keys, s'.nextId)
      && FateOk(s'.q, s'.fate) && WriterOk(s'.writer, s'.callers) && TicketFates(s'.tickets, s'.fate)
      && FatesGrow(s.fate, s'.fate)
  {
    var s' := DoRemoveFailed(s, id);
    assert s'.callers.Keys == s.callers.Keys && s'.fate.Keys == s.fate.Keys;
    forall x ensures InQueue(s'.q, x) <==> InQueue(s.q, x) && (x != id || id in s.q.current) {
      WithoutIds(s.q.pending, [id], x);
    }
  }

  /** A filtered queue keeps the ticket order. */
  lemma TicketOrderKept(es: seq<Entry>, victims: seq<nat>, tickets: map<nat, nat>)
    requires InTicketOrder(Ids(es), tickets)
    ensures InTicketOrder(Ids(Without(es, victims)), tickets)
  {
    var at := WithoutOrder(es, victims);
    var ids := Ids(Without(es, victims));
    forall i | 0 <= i < |ids| ensures ids[i] == Ids(es)[at[i]] {}
    forall i, j | 0 <= i < j < |ids| ensures tickets[ids[i]] < tickets[ids[j]] {
      assert tickets[Ids(es)[at[i]]] < tickets[Ids(es)[at[j]]];
    }
  }

  lemma RemoveFailedTickets(s: State, id: nat)
    requires TicketsOk(s.tickets, s.nextTicket, s.q, s.wire, s.writer)
    ensures TicketsOk(s.tickets, s.nextTicket, RemoveById(s.q, id), s.wire, s.writer)
  {
    TicketOrderKept(s.q.pending, [id], s.tickets);
  }

  // ---------- the read loop ----------

  lemma ReplayFrameOk(s: State, uuid: string)
    requires Inv(s)
    ensures Inv(s.(q := Replay(s.q, uuid)))
  {
    ReplayClaims(s.q, uuid);
    ReplayFates(s.q, uuid, s.fate);
    ReplayTickets(s, uuid);
  }

  lemma ReplayFates(q: Queue, uuid: string, fate: map<nat, Fate>)
    requires FateOk(q, fate) && QueueOk(q)
    ensures FateOk(Replay(q, uuid), fate)
  {
    ReplayClaims(q, uuid);
    var q' := Replay(q, uuid);
    forall x ensures InQueue(q', x) <==> InQueue(q, x) {}
  }

  lemma ReplayTickets(s: State, uuid: string)
    requires TicketsOk(s.tickets, s.nextTicket, s.q, s.wire, s.writer) && QueueOk(s.q)
    ensures TicketsOk(s.tickets, s.nextTicket, Replay(s.q, uuid), s.wire, s.writer)
  {
    ReplayClaims(s.q, uuid);
  }

  /** What a result does to the fates, as a plain map update per owner. */
  lemma ResultFates(s: State, ev: ResultEvent)
    requires DomainOk(s.chans.Keys, s.callers.Keys, s.fate.Keys, s.nextId)
    requires QueueOk(s.q) && FateOk(s.q, s.fate) && TicketFates(s.tickets, s.fate)
    requires s.q.current != []
    ensures var s' := DoResultFrame(s, ev);
      && DomainOk(s'.chans.Keys, s'.callers.Keys, s'.fate.Keys, s'.nextId)
      && FateOk(s'.q, s'.fate) && TicketFates(s'.tickets, s'.fate)
      && FatesGrow(s.fate, s'.fate)
      && OwnersOf(|s.turns|, s.q.current, s'.fate)
  {
    var s' := DoResultFrame(s, ev);
    var owners := s.q.current;
    assert s'.fate.Keys == s.fate.Keys;
    forall x ensures InQueue(s'.q, x) <==> InQueue(s.q, x) && x !in owners {
      WithoutIds(s.q.pending, owners, x);
    }
    forall j | 0 <= j < |owners| ensures owners[j] in s'.fate && s'.fate[owners[j]] == Owner(|s.turns|, j) {
      assert InQueue(s.q, owners[j]);
      PosOfAt(owners, j);
    }
  }

  lemma ResultSlots(s: State, ev: ResultEvent)
    requires SlotsOk(s.chans, s.callers, s.fate, s.turns, s.fan, s.discards)
    requires FateOk(s.q, s.fate) && s.q.current != [] && s.fan.None?
    ensures var s' := DoResultFrame(s, ev); SlotsOk(s'.chans, s'.callers, s'.fate, s'.turns, s'.fan, s'.discards)
  {
    var s' := DoResultFrame(s, ev);
    forall x | x in s.chans && x in s.callers && x in s'.fate
      ensures SlotOk(x, s.chans[x], s.callers[x], s'.fate[x], s'.turns, s'.fan, s.discards)
    {
      SlotAt(s, x);
      if x in s.q.current { assert InQueue(s.q, x); }
    }
  }

  lemma ResultBooked(s: State, ev: ResultEvent)
    requires DomainOk(s.chans.Keys, s.callers.Keys, s.fate.Keys, s.nextId)
    requires BookedOk(s.booked, s.turns, s.chans, s.callers, s.fan) && BookingsOk(s.booked, s.turns)
    requires FateOk(s.q, s.fate) && s.q.current != [] && s.fan.None?
    ensures var s' := DoResultFrame(s, ev); BookedOk(s.booked, s'.turns, s.chans, s.callers, s'.fan)
  {
    var s' := DoResultFrame(s, ev);
    var n := |s.turns|;
    forall k | 0 <= k < |s'.turns|
      ensures TurnBooked(k, s'.turns[k].owners, |s'.turns|, s.booked, s.chans, s.callers, s'.fan)
    {
      if k < n {
        assert TurnBooked(k, s.turns[k].owners, n, s.booked, s.chans, s.callers, s.fan);
      } else {
        assert InQueue(s.q, s.q.current[0]);
        CountNone(s.booked, n);
      }
    }
  }

  lemma {:induction false} CountNone(rs: seq<SendResult>, k: nat)
    requires forall i :: 0 <= i < |rs| ==> rs[i].turn != k
    ensures CountTurn(rs, k) == 0
  {
    if rs != [] { CountNone(rs[..|rs| - 1], k); }
  }

  lemma ResultFrameOk(s: State, ev: ResultEvent)
    requires Inv(s) && s.fan.None?
    ensures Inv(DoResultFrame(s, ev))
  {
    EndTurnOk(s.q);
    ResultTickets(s);
    if s.q.current == [] {
      EndTurnNobody(s.q);
    } else {
      var s' := DoResultFrame(s, ev);
      ResultFates(s, ev);
      TurnsGrow(s.turns, s.fate, s'.fate);
      DiscardsGrow(s.discards, s.fate, s'.fate, s.chans, s.chans);
      TurnsAppend(s.turns, s'.fate, Turn(ev, s.q.current));
      ResultSlots(s, ev);
      ResultBooked(s, ev);
      BookingsAppend(s.booked, s.turns, Turn(ev, s.q.current));
      assert FanOk(s'.turns, s'.fan) && PendingBookOk(s'.turns, s'.fan, s'.chans);
    }
  }

  lemma TurnsAppend(turns: seq<Turn>, fate: map<nat, Fate>, t: Turn)
    requires TurnsOk(turns, fate) && OwnersOf(|turns|, t.owners, fate)
    ensures TurnsOk(turns + [t], fate)
  {
  }

  lemma BookingsAppend(booked: seq<SendResult>, turns: seq<Turn>, t: Turn)
    requires BookingsOk(booked, turns)
    ensures BookingsOk(booked, turns + [t])
  {
  }

  lemma ResultTickets(s: State)
    requires TicketsOk(s.tickets, s.nextTicket, s.q, s.wire, s.writer)
    ensures TicketsOk(s.tickets, s.nextTicket, EndTurn(s.q), s.wire, s.writer)
  {
    TicketOrderKept(s.q.pending, s.q.current, s.tickets);
  }

  lemma EndTurnNobody(q: Queue)
    requires q.current == []
    ensures EndTurn(q) == q
  {
    WithoutNobody(q.pending);
  }

  // ---------- the fan-out ----------

  /** The last turn's fan-out moved on past one owner, whose channel became `c`. */
  lemma FanSlots(s: State, id: nat, c: Chan, fan': Option<Fan>)
    requires SlotsOk(s.chans, s.callers, s.fate, s.turns, s.fan, s.discards) && Known(s, id)
    requires SlotOk(id, c, s.callers[id], s.fate[id], s.turns, fan', s.discards)
    requires forall k: nat, j: nat :: k < |s.turns| && s.fate[id] != Owner(k, j) ==> (Served(s.turns, s.fan, k, j) <==> Served(s.turns, fan', k, j))
    ensures SlotsOk(s.chans[id := c], s.callers, s.fate, s.turns, fan', s.discards)
  {
    forall x | x in s.chans[id := c] && x in s.callers && x in s.fate
      ensures SlotOk(x, s.chans[id := c][x], s.callers[x], s.fate[x], s.turns, fan', s.discards)
    {
      SlotAt(s, x);
    }
  }

  lemma FanDeliverOk(s: State)
    requires Inv(s) && CanDeliver(s)
    ensures Inv(DoFanDeliver(s))
  {
    var id := FanDeliverSlots(s);
    DiscardsKept(s.discards, s.fate, s.chans, id, DoFanDeliver(s).chans[id]);
    FanDeliverBooked(s, id);
  }

  lemma FanDeliverSlots(s: State) returns (id: nat)
    requires DomainOk(s.chans.Keys, s.callers.Keys, s.fate.Keys, s.nextId)
    requires TurnsOk(s.turns, s.fate) && FanOk(s.turns, s.fan) && CanDeliver(s)
    requires SlotsOk(s.chans, s.callers, s.fate, s.turns, s.fan, s.discards)
    ensures id == s.turns[|s.turns| - 1].owners[s.fan.value.next] && Known(s, id)
    ensures var s' := DoFanDeliver(s);
      && SlotsOk(s'.chans, s.callers, s.fate, s.turns, s'.fan, s.discards)
      && FanOk(s.turns, s'.fan)
      && s'.chans == s.chans[id := s'.chans[id]]
      && DomainOk(s'.chans.Keys, s.callers.Keys, s.fate.Keys, s.nextId)
      && (s.chans[id].canceled ==> s'.chans[id].canceled) && s'.chans[id].errors == s.chans[id].errors
  {
    id := FanOwner(s);
    SlotAt(s, id);
    var s' := DoFanDeliver(s);
    FanDeliverChan(s, id);
    FanSlots(s, id, s'.chans[id], s'.fan);
    assert s'.chans.Keys == s.chans.Keys;
  }

  lemma FanOwner(s: State) returns (id: nat)
    requires DomainOk(s.chans.Keys, s.callers.Keys, s.fate.Keys, s.nextId)
    requires TurnsOk(s.turns, s.fate) && FanOk(s.turns, s.fan) && CanDeliver(s)
    ensures id == s.turns[|s.turns| - 1].owners[s.fan.value.next] && Known(s, id)
  {
    var k := |s.turns| - 1;
    id := s.turns[k].owners[s.fan.value.next];
    assert OwnersOf(k, s.turns[k].owners, s.fate);
  }

  /** An owner about to be served has had no result, so its channel is empty
      and the "channel full" branch of deliverSlotResult cannot be taken. */
  lemma FanDeliverChan(s: State, id: nat)
    requires FanOk(s.turns, s.fan) && CanDeliver(s) && Known(s, id)
    requires id == s.turns[|s.turns| - 1].owners[s.fan.value.next]
    requires s.fate[id] == Owner(|s.turns| - 1, s.fan.value.next)
    requires SlotOk(id, s.chans[id], s.callers[id], s.fate[id], s.turns, s.fan, s.discards)
    ensures s.chans[id].resultCh.None? && s.chans[id].results == []
    ensures var s' := DoFanDeliver(s);
      && SlotOk(id, s'.chans[id], s.callers[id], s.fate[id], s.turns, s'.fan, s.discards)
      && (s'.chans[id].results == [] <==> s.chans[id].canceled)
      && (s.chans[id].canceled ==> s'.chans[id].canceled) && s'.chans[id].errors == s.chans[id].errors
  {
    var c := s.chans[id];
    var r := OwnerResult(|s.turns| - 1, s.turns[|s.turns| - 1], s.fan.value.next);
    if Accepts(c) { assert Deliver(c, r).results == [r]; }
  }

  lemma FanDeliverBooked(s: State, id: nat)
    requires TurnsOk(s.turns, s.fate) && FanOk(s.turns, s.fan) && CanDeliver(s) && Known(s, id)
    requires id == s.turns[|s.turns| - 1].owners[s.fan.value.next]
    requires SlotsOk(s.chans, s.callers, s.fate, s.turns, s.fan, s.discards)
    requires BookedOk(s.booked, s.turns, s.chans, s.callers, s.fan)
    ensures var s' := DoFanDeliver(s);
      BookedOk(s.booked, s.turns, s'.chans, s.callers, s'.fan) && PendingBookOk(s.turns, s'.fan, s'.chans)
  {
    var s' := DoFanDeliver(s);
    var n := |s.turns|;
    var pos := s.fan.value.next;
    assert OwnersOf(n - 1, s.turns[n - 1].owners, s.fate);
    SlotAt(s, id);
    FanDeliverChan(s, id);
    forall k | 0 <= k < n
      ensures TurnBooked(k, s.turns[k].owners, n, s.booked, s'.chans, s.callers, s'.fan)
    {
      assert TurnBooked(k, s.turns[k].owners, n, s.booked, s.chans, s.callers, s.fan);
      assert OwnersOf(k, s.turns[k].owners, s.fate);
      if s.turns[k].owners[0] == id {
        assert s.fate[id] == Owner(k, 0) && s.fate[id] == Owner(n - 1, pos);
        FreshHeadNotLeft(s, id);
      }
    }
  }

  /** A slot that accepts a delivery has a caller that did not cancel. */
  lemma FreshHeadNotLeft(s: State, id: nat)
    requires SlotsOk(s.chans, s.callers, s.fate, s.turns, s.fan, s.discards) && Known(s, id)
    ensures !s.chans[id].canceled ==> s.callers[id] != Left(Canceled)
  {
    SlotAt(s, id);
  }

  lemma FanBookOk(s: State)
    requires Inv(s) && CanBook(s)
    ensures Inv(DoFanBook(s))
  {
    var s' := DoFanBook(s);
    FanSameServed(s, s'.fan);
    FanBookBooked(s);
  }

  lemma FanSameServed(s: State, fan': Option<Fan>)
    requires SlotsOk(s.chans, s.callers, s.fate, s.turns, s.fan, s.discards)
    requires forall k: nat, j: nat :: k < |s.turns| && j < |s.turns[k].owners| ==>
      (Served(s.turns, s.fan, k, j) <==> Served(s.turns, fan', k, j))
    ensures SlotsOk(s.chans, s.callers, s.fate, s.turns, fan', s.discards)
  {
    forall x | x in s.chans && x in s.callers && x in s.fate
      ensures SlotOk(x, s.chans[x], s.callers[x], s.fate[x], s.turns, fan', s.discards)
    {
      SlotAt(s, x);
    }
  }

  lemma FanBookBooked(s: State)
    requires TurnsOk(s.turns, s.fate) && FanOk(s.turns, s.fan) && CanBook(s)
    requires BookedOk(s.booked, s.turns, s.chans, s.callers, s.fan) && PendingBookOk(s.turns, s.fan, s.chans)
    requires BookingsOk(s.booked, s.turns)
    ensures var s' := DoFanBook(s);
      BookedOk(s'.booked, s.turns, s.chans, s.callers, s'.fan) && BookingsOk(s'.booked, s.turns)
  {
    var s' := DoFanBook(s);
    var n := |s.turns|;
    assert OwnersOf(n - 1, s.turns[n - 1].owners, s.fate);
    assert s'.booked[..|s.booked|] == s.booked;
    forall k | 0 <= k < n
      ensures TurnBooked(k, s.turns[k].owners, n, s'.booked, s.chans, s.callers, s'.fan)
    {
      assert TurnBooked(k, s.turns[k].owners, n, s.booked, s.chans, s.callers, s.fan);
    }
  }

  lemma FanEndOk(s: State)
    requires Inv(s) && CanEnd(s)
    ensures Inv(s.(fan := None))
  {
    FanEndServed(s);
    FanEndBooked(s);
  }

  lemma FanEndServed(s: State)
    requires SlotsOk(s.chans, s.callers, s.fate, s.turns, s.fan, s.discards)
    requires FanOk(s.turns, s.fan) && CanEnd(s)
    ensures SlotsOk(s.chans, s.callers, s.fate, s.turns, None, s.discards)
  {
    FanSameServed(s, None);
  }

  lemma FanEndBooked(s: State)
    requires TurnsOk(s.turns, s.fate) && FanOk(s.turns, s.fan) && CanEnd(s)
    requires BookedOk(s.booked, s.turns, s.chans, s.callers, s.fan)
    ensures BookedOk(s.booked, s.turns, s.chans, s.callers, None)
  {
    forall k | 0 <= k < |s.turns|
      ensures TurnBooked(k, s.turns[k].owners, |s.turns|, s.booked, s.chans, s.callers, None)
    {
      assert OwnersOf(k, s.turns[k].owners, s.fate);
      assert TurnBooked(k, s.turns[k].owners, |s.turns|, s.booked, s.chans, s.callers, s.fan);
    }
  }

  /** The canceler books the head's result it took back. */
  lemma BookAbandonedOk(s: State, id: nat)
    requires Inv(s) && Enabled(s, BookAbandoned(id))
    ensures Inv(Apply(s, BookAbandoned(id)))
  {
    BookAbandonedSlot(s, id);
    BookAbandonedBooked(s, id);
    BookAbandonedLock(s, id);
  }

  lemma BookAbandonedSlot(s: State, id: nat)
    requires SlotsOk(s.chans, s.callers, s.fate, s.turns, s.fan, s.discards)
    requires Known(s, id) && s.callers[id].Booking?
    ensures SlotsOk(s.chans, s.callers[id := Left(Canceled)], s.fate, s.turns, s.fan, s.discards)
  {
    SlotAt(s, id);
    assert s.fate[id := s.fate[id]] == s.fate;
    SlotsMoved(s, id, Left(Canceled), s.fate[id]);
  }

  lemma BookAbandonedLock(s: State, id: nat)
    requires WriterOk(s.writer, s.callers) && Known(s, id) && s.callers[id].Booking?
    ensures WriterOk(s.writer, s.callers[id := Left(Canceled)])
    ensures s.callers[id := Left(Canceled)].Keys == s.callers.Keys
  {
  }

  lemma BookAbandonedBooked(s: State, id: nat)
    requires TurnsOk(s.turns, s.fate) && Known(s, id) && s.callers[id].Booking?
    requires DomainOk(s.chans.Keys, s.callers.Keys, s.fate.Keys, s.nextId)
    requires SlotsOk(s.chans, s.callers, s.fate, s.turns, s.fan, s.discards)
    requires BookedOk(s.booked, s.turns, s.chans, s.callers, s.fan) && BookingsOk(s.booked, s.turns)
    ensures var b := s.booked + [s.callers[id].res];
      BookedOk(b, s.turns, s.chans, s.callers[id := Left(Canceled)], s.fan) && BookingsOk(b, s.turns)
  {
    var r := s.callers[id].res;
    var b := s.booked + [r];
    SlotAt(s, id);
    assert s.chans[id].results == [r];
    var k0, j0 := s.fate[id].turn, s.fate[id].pos;
    assert OwnersOf(k0, s.turns[k0].owners, s.fate);
    assert r == OwnerResult(k0, s.turns[k0], j0) && r.mergedWithHead == 0;
    var h := s.turns[k0].owners[0];
    assert h in s.chans && h >= 1;
    assert j0 == 0 && r == HeadResult(k0, s.turns[k0]);
    assert b[..|s.booked|] == s.booked;
    forall k | 0 <= k < |s.turns|
      ensures TurnBooked(k, s.turns[k].owners, |s.turns|, b, s.chans, s.callers[id := Left(Canceled)], s.fan)
    {
      assert OwnersOf(k, s.turns[k].owners, s.fate);
      assert TurnBooked(k, s.turns[k].owners, |s.turns|, s.booked, s.chans, s.callers, s.fan);
      assert s.turns[k].owners[0] == id ==> k == k0;
      assert Served(s.turns, s.fan, k0, 0);
    }
  }

  // ---------- discards ----------

  lemma StartDiscardOk(s: State, reason: string)
    requires Inv(s)
    ensures Inv(DoStartDiscard(s, reason))
  {
    var s' := DoStartDiscard(s, reason);
    StartDiscardFates(s, reason);
    TurnsGrow(s.turns, s.fate, s'.fate);
    DiscardsGrow(s.discards, s.fate, s'.fate, s.chans, s.chans);
    StartDiscardSlots(s, reason);
    StartDiscardNew(s, reason);
  }

  lemma StartDiscardFates(s: State, reason: string)
    requires DomainOk(s.chans.Keys, s.callers.Keys, s.fate.Keys, s.nextId)
    requires FateOk(s.q, s.fate) && TicketFates(s.tickets, s.fate)
    requires TicketsOk(s.tickets, s.nextTicket, s.q, s.wire, s.writer)
    ensures var s' := DoStartDiscard(s, reason);
      && DomainOk(s'.chans.Keys, s'.callers.Keys, s'.fate.Keys, s'.nextId)
      && QueueOk(s'.q) && FateOk(s'.q, s'.fate) && TicketFates(s'.tickets, s'.fate)
      && TicketsOk(s.tickets, s.nextTicket, s'.q, s.wire, s.writer)
      && FatesGrow(s.fate, s'.fate)
  {
    var s' := DoStartDiscard(s, reason);
    assert s'.fate.Keys == s.fate.Keys;
    assert forall x :: x in Ids(s.q.pending) + s.q.current <==> InQueue(s.q, x);
  }

  lemma StartDiscardSlots(s: State, reason: string)
    requires FateOk(s.q, s.fate)
    requires SlotsOk(s.chans, s.callers, s.fate, s.turns, s.fan, s.discards)
    ensures var s' := DoStartDiscard(s, reason); SlotsOk(s.chans, s.callers, s'.fate, s.turns, s.fan, s'.discards)
  {
    var s' := DoStartDiscard(s, reason);
    forall x | x in s.chans && x in s.callers && x in s'.fate
      ensures SlotOk(x, s.chans[x], s.callers[x], s'.fate[x], s.turns, s.fan, s'.discards)
    {
      SlotAt(s, x);
      assert x in Ids(s.q.pending) + s.q.current <==> InQueue(s.q, x);
    }
  }

  lemma StartDiscardNew(s: State, reason: string)
    requires FateOk(s.q, s.fate)
    requires DiscardsOk(s.discards, DoStartDiscard(s, reason).fate, s.chans)
    ensures var s' := DoStartDiscard(s, reason); DiscardsOk(s'.discards, s'.fate, s.chans)
  {
    var s' := DoStartDiscard(s, reason);
    var n := |s.discards|;
    forall k | 0 <= k < |s'.discards| ensures DiscardOk(k, s'.discards[k], s'.fate, s.chans) {
      if k == n {
        forall i | 0 <= i < |s'.discards[n].victims|
          ensures s'.discards[n].victims[i] in s'.fate && s'.fate[s'.discards[n].victims[i]] == Dropped(n)
        {
          assert InQueue(s.q, s'.discards[n].victims[i]);
        }
      } else {
        assert DiscardOk(k, s.discards[k], s'.fate, s.chans);
      }
    }
  }

  lemma DiscardCheckOk(s: State, k: nat)
    requires Inv(s) && HasVictim(s, k) && !s.discards[k].checked
    ensures Inv(DoDiscardCheck(s, k))
  {
    DiscardCheckAdvance(s, k);
    DiscardSlots(s, DoDiscardCheck(s, k).discards);
  }

  lemma DiscardCheckAdvance(s: State, k: nat)
    requires DiscardsOk(s.discards, s.fate, s.chans) && HasVictim(s, k) && !s.discards[k].checked
    ensures var ds := DoDiscardCheck(s, k).discards;
      && DiscardsOk(ds, s.fate, s.chans) && |ds| == |s.discards|
      && forall i :: 0 <= i < |ds| ==> ds[i].victims == s.discards[i].victims
  {
    DiscardAdvance(s.discards, s.fate, s.chans, k, DoDiscardCheck(s, k).discards[k]);
  }

  lemma DiscardAdvance(discards: seq<Discard>, fate: map<nat, Fate>, chans: map<nat, Chan>, k: nat, d: Discard)
    requires DiscardsOk(discards, fate, chans) && k < |discards|
    requires d.victims == discards[k].victims && discards[k].next < |d.victims|
    requires d.next == discards[k].next || (d.next == discards[k].next + 1 && Told(chans, d.victims[discards[k].next]) && !d.checked)
    ensures DiscardsOk(discards[k := d], fate, chans)
  {
    var ds := discards[k := d];
    forall i | 0 <= i < |ds| ensures DiscardOk(i, ds[i], fate, chans) {
      assert DiscardOk(i, discards[i], fate, chans);
    }
  }

  lemma DiscardSlots(s: State, discards: seq<Discard>)
    requires SlotsOk(s.chans, s.callers, s.fate, s.turns, s.fan, s.discards)
    requires |discards| == |s.discards|
    requires forall i :: 0 <= i < |discards| ==> discards[i].victims == s.discards[i].victims
    ensures SlotsOk(s.chans, s.callers, s.fate, s.turns, s.fan, discards)
  {
    forall x | x in s.chans && x in s.callers && x in s.fate
      ensures SlotOk(x, s.chans[x], s.callers[x], s.fate[x], s.turns, s.fan, discards)
    {
      SlotAt(s, x);
    }
  }

  lemma DiscardSendOk(s: State, k: nat)
    requires Inv(s) && HasVictim(s, k) && s.discards[k].checked
    ensures Inv(DoDiscardSend(s, k))
  {
    var id, c := DiscardSendSlot(s, k);
    OwnSendOk(s, id, c);
    DiscardSendAdvance(s, SetChan(s, id, c), k);
  }

  lemma DiscardSendSlot(s: State, k: nat) returns (id: nat, c: Chan)
    requires DomainOk(s.chans.Keys, s.callers.Keys, s.fate.Keys, s.nextId)
    requires SlotsOk(s.chans, s.callers, s.fate, s.turns, s.fan, s.discards)
    requires DiscardsOk(s.discards, s.fate, s.chans) && HasVictim(s, k) && s.discards[k].checked
    ensures id == s.discards[k].victims[s.discards[k].next] && Known(s, id)
    ensures c == PushError(s.chans[id], s.discards[k].reason) && c.errors > 0
    ensures c.results == s.chans[id].results && c.errors >= s.chans[id].errors && c.canceled == s.chans[id].canceled
    ensures SlotOk(id, c, s.callers[id], s.fate[id], s.turns, s.fan, s.discards)
  {
    var d := s.discards[k];
    id := d.victims[d.next];
    assert DiscardOk(k, d, s.fate, s.chans);
    SlotAt(s, id);
    c := PushError(s.chans[id], d.reason);
  }

  lemma DiscardSendAdvance(s: State, s1: State, k: nat)
    requires HasVictim(s, k) && s.discards[k].checked
    requires s1.discards == s.discards
    requires DiscardsOk(s1.discards, s1.fate, s1.chans)
    requires SlotsOk(s1.chans, s1.callers, s1.fate, s1.turns, s1.fan, s1.discards)
    requires Told(s1.chans, s.discards[k].victims[s.discards[k].next])
    ensures var ds := DoDiscardSend(s, k).discards;
      && DiscardsOk(ds, s1.fate, s1.chans)
      && SlotsOk(s1.chans, s1.callers, s1.fate, s1.turns, s1.fan, ds)
  {
    var d := s.discards[k];
    var d' := d.(next := d.next + 1, checked := false);
    DiscardAdvance(s1.discards, s1.fate, s1.chans, k, d');
    DiscardSlots(s1, s1.discards[k := d']);
  }

  /** An error sent to a slot no turn has claimed. */
  lemma OwnSendOk(s: State, id: nat, c: Chan)
    requires Inv(s) && Known(s, id)
    requires c.results == s.chans[id].results && c.errors >= s.chans[id].errors && c.canceled == s.chans[id].canceled
    requires SlotOk(id, c, s.callers[id], s.fate[id], s.turns, s.fan, s.discards)
    ensures Inv(SetChan(s, id, c))
  {
    assert s.callers[id := s.callers[id]] == s.callers;
    assert s.chans[id := c].Keys == s.chans.Keys;
    DiscardsKept(s.discards, s.fate, s.chans, id, c);
    BookedSent(s, id, c);
    SlotsKept(s, id, c, s.callers[id]);
    PendingBookKept(s, id, c);
  }

  lemma BookedSent(s: State, id: nat, c: Chan)
    requires BookedOk(s.booked, s.turns, s.chans, s.callers, s.fan)
    requires Known(s, id) && c.results == s.chans[id].results
    ensures BookedOk(s.booked, s.turns, s.chans[id := c], s.callers, s.fan)
  {
    forall k | 0 <= k < |s.turns|
      ensures TurnBooked(k, s.turns[k].owners, |s.turns|, s.booked, s.chans[id := c], s.callers, s.fan)
    {
      assert TurnBooked(k, s.turns[k].owners, |s.turns|, s.booked, s.chans, s.callers, s.fan);
    }
  }

  // ---------- every run ----------

  lemma LoopStepOk(s: State, step: Step)
    requires Inv(s) && Enabled(s, step)
    requires LoopStep(step)
    ensures Inv(Apply(s, step))
  {
    match step
    case ReplayFrame(uuid) => ReplayFrameOk(s, uuid);
    case ResultFrame(ev) => ResultFrameOk(s, ev);
    case FanDeliver => FanDeliverOk(s);
    case FanBook => FanBookOk(s);
    case FanEnd => FanEndOk(s);
    case Die =>
  }

  lemma DiscardStepOk(s: State, step: Step)
    requires Inv(s) && Enabled(s, step) && DiscardStep(step)
    ensures Inv(Apply(s, step))
  {
    match step
    case StartDiscard(reason) => StartDiscardOk(s, reason);
    case DiscardCheck(k) => DiscardCheckOk(s, k);
    case DiscardSend(k) => DiscardSendOk(s, k);
  }

  lemma CallerStepOk(s: State, step: Step)
    requires Inv(s) && Enabled(s, step) && !LoopStep(step) && !DiscardStep(step)
    ensures Inv(Apply(s, step))
  {
    match step
    case Draft => DraftOk(s);
    case TakeLock(id, uuid) => TakeLockOk(s, id, uuid);
    case WriteDone(id, ok) => WriteDoneOk(s, id, ok);
    case RemoveFailed(id) => RemoveFailedOk(s, id);
    case BookAbandoned(id) => BookAbandonedOk(s, id);
    case Own(id, move) => OwnOk(s, id, move);
  }

  lemma StepOk(s: State, step: Step)
    requires Inv(s) && Enabled(s, step)
    ensures Inv(Apply(s, step))
  {
    if LoopStep(step) {
      LoopStepOk(s, step);
    } else if DiscardStep(step) {
      DiscardStepOk(s, step);
    } else {
      CallerStepOk(s, step);
    }
  }

  lemma {:induction false} RunOk(s: State, steps: seq<Step>, s': State)
    requires Inv(s) && Run(s, steps, s')
    ensures Inv(s')
    decreases |steps|
  {
    if steps != [] {
      StepOk(s, steps[0]);
      RunOk(Apply(s, steps[0]), steps[1..], s');
    }
  }

  lemma ReachableOk(s: State)
    requires Reachable(s)
    ensures Inv(s)
  {
    var steps: seq<Step> :| Run(INIT, steps, s);
    InitOk();
    RunOk(INIT, steps, s);
  }
}
