/** Send-only runs: the inductive invariant behind turn ownership, fresh
    answers and abort attribution. */
module SendOwnership {
  import opened Wrappers
  import opened TurnState
  import opened TurnProtocol
  import opened TurnSafety

  /** An event some Send may still meet: its time is its frame's dispatch, and
      it was not taken under the orphan mark. */
  ghost predicate EventOk(e: Event, recv: map<nat, nat>, barred: set<nat>) {
    e.frame in recv && recv[e.frame] == e.recvAt && e.frame !in barred
  }

  /** Frames no Send may meet: those taken under the orphan mark, and the result
      in hand whose mark is not read yet. */
  ghost function Barred(loop: Loop, orphans: map<nat, string>): set<nat> {
    if loop.Dispatching? then orphans.Keys + {loop.ev.frame} else orphans.Keys
  }

  ghost predicate EventsOk(es: seq<Event>, recv: map<nat, nat>, barred: set<nat>) {
    forall i :: 0 <= i < |es| ==> EventOk(es[i], recv, barred)
  }

  /** An event a Send with this stale bound may return. */
  ghost predicate AnswerOk(a: Option<Event>, stale: Option<nat>, recv: map<nat, nat>, enders: set<nat>, barred: set<nat>) {
    a.Some? ==>
      && EventOk(a.value, recv, barred)
      && a.value.kind.ResultFrame? && a.value.frame !in enders
      && stale.Some? && a.value.recvAt > stale.value
  }

  function Held(pc: Pc): Option<Event> {
    match pc
    case Reading(held) => held
    case Clearing(held) => held
    case Deferring(_, held) => held
    case _ => None
  }

  function Answer(pc: Pc): Option<Event> {
    match pc
    case Deferring(answer, _) => answer
    case Releasing(answer) => answer
    case Returned(answer) => answer
    case _ => None
  }

  function Kept(pc: Pc): seq<Event> {
    match pc
    case SettleWait(_, kept) => kept
    case Sweeping(_, kept) => kept
    case Refilling(kept, _) => kept
    case _ => []
  }

  ghost predicate SendOk(send: Send, clock: nat, recv: map<nat, nat>, enders: set<nat>, barred: set<nat>) {
    && send.claimedAt <= clock
    && (send.stale.Some? <==> !send.pc.Claimed?)
    && (send.stale.Some? ==> send.claimedAt <= send.stale.value <= clock)
    && EventsOk(Kept(send.pc), recv, barred)
    && AnswerOk(Held(send.pc), send.stale, recv, enders, barred)
    && AnswerOk(Answer(send.pc), send.stale, recv, enders, barred)
  }

  ghost predicate SendsOk(sends: map<nat, Send>, clock: nat, recv: map<nat, nat>, enders: set<nat>, barred: set<nat>) {
    forall id :: id in sends ==> SendOk(sends[id], clock, recv, enders, barred)
  }

  /** At most one Send is between its claim and its end, and while it is, the
      turn is its own: Running and not unowned (or the process is dead). */
  ghost predicate OwnerOk(t: Turn, live: Option<nat>, sends: map<nat, Send>) {
    && (live.Some? ==> live.value in sends)
    && (forall id :: id in sends ==> (!sends[id].pc.Returned? <==> live == Some(id)))
    && (live.Some? ==> !t.unowned && (t.state == Running || t.state == Dead) && sends[live.value].run == t.runID)
  }

  /** While a reconnect's turn is in flight nobody has ever sent. */
  ghost predicate ReconnectOk(t: Turn, loop: Loop, sends: map<nat, Send>) {
    && (t.reconnected || loop.TurnEnding? ==> sends == map[] && !t.unowned && (t.state == Running || t.state == Dead))
    && (loop.TurnEnding? ==> !t.reconnected)
    && (loop.NotStarted? ==> sends == map[] && (t.reconnected || t.state == Spawning))
  }

  /** Results that ended a turn no Send owned are older than any Send now live. */
  ghost predicate EndersOk(enders: set<nat>, recv: map<nat, nat>, clock: nat, live: Option<nat>, sends: map<nat, Send>) {
    && (forall f :: f in enders ==> f in recv && recv[f] <= clock)
    && (live.Some? && live.value in sends && sends[live.value].stale.Some? ==>
          forall f :: f in enders ==> f in recv && recv[f] <= sends[live.value].stale.value)
  }

  ghost predicate NotAnswered(sends: map<nat, Send>, frame: nat) {
    forall id :: id in sends ==> !IsFrame(Answer(sends[id].pc), frame) && !IsFrame(Held(sends[id].pc), frame)
  }

  ghost predicate IsFrame(a: Option<Event>, frame: nat) { a.Some? && a.value.frame == frame }

  ghost predicate Holds(loop: Loop) {
    || loop.Starting? || loop.Dispatching? || loop.Asking? || loop.Taken? || loop.Logging? || loop.Owning? || loop.TurnEnding? || loop.Latching? || loop.Handing?
    || loop.Passing? || loop.Settling? || loop.SettlingTurn? || loop.BookingResult?
  }

  ghost predicate Orphaning(loop: Loop) { (loop.Taken? || loop.Logging? || loop.Owning?) && loop.orphaned }

  ghost predicate LoopOk(loop: Loop, recv: map<nat, nat>, orphans: map<nat, string>, clock: nat) {
    && (Holds(loop) ==> loop.ev.frame in recv && recv[loop.ev.frame] == loop.ev.recvAt && loop.ev.recvAt <= clock)
    && (Holds(loop) ==> (loop.ev.frame in orphans <==> Orphaning(loop)))
    && (Orphaning(loop) ==> orphans[loop.ev.frame] == loop.orphanRun)
  }

  /** While an unowned turn's result is in hand no Send has it. */
  ghost predicate HandOk(loop: Loop, unowned: bool, sends: map<nat, Send>) {
    && (unowned && (loop.Dispatching? || loop.Taken? || loop.Logging? || loop.Owning? || loop.Asking? || loop.Passing? || loop.Settling? || loop.SettlingTurn?) ==>
          NotAnswered(sends, loop.ev.frame))
    && (Orphaning(loop) ==> sends != map[])
  }

  /** The orphan mark names the run of the last Send that gave up and was
      replaced; sendAbandoned, the one that gave up last. */
  ghost predicate RunsOk(t: Turn, sends: map<nat, Send>, gaveUp: string, displaced: string) {
    && (t.abort.orphaned ==> sends != map[] && t.abort.orphanRun == displaced)
    && (if t.sendAbandoned then gaveUp == t.runID else gaveUp == displaced)
  }

  /** Every result taken under the orphan mark is in hand or booked, under the
      run displaced then and no other. */
  ghost predicate BookedOk(booked: seq<Booking>, orphans: map<nat, string>, loop: Loop, recv: map<nat, nat>) {
    && (forall f :: f in orphans ==> f in recv && ((Orphaning(loop) && loop.ev.frame == f) || Booking(f, orphans[f]) in booked))
    && (forall i :: 0 <= i < |booked| ==>
          && booked[i].frame in recv
          && (booked[i].frame in orphans ==> booked[i].run == orphans[booked[i].frame])
          && (loop.Dispatching? ==> booked[i].frame != loop.ev.frame))
  }

  ghost predicate Owned(s: State) {
    && (forall f :: f in s.h.recv ==> f < |s.h.recv|)
    && EventsOk(s.eventCh, s.h.recv, Barred(s.loop, s.h.orphans))
    && SendsOk(s.sends, s.clock, s.h.recv, s.h.enders, Barred(s.loop, s.h.orphans))
    && OwnerOk(s.t, s.h.live, s.sends)
    && ReconnectOk(s.t, s.loop, s.sends)
    && EndersOk(s.h.enders, s.h.recv, s.clock, s.h.live, s.sends)
    && LoopOk(s.loop, s.h.recv, s.h.orphans, s.clock)
    && HandOk(s.loop, s.t.unowned, s.sends)
    && RunsOk(s.t, s.sends, s.h.gaveUp, s.h.displaced)
    && BookedOk(s.booked, s.h.orphans, s.loop, s.h.recv)
  }

  lemma OwnedInit()
    ensures Owned(INIT)
  {
  }

  // ---------- the read loop ----------

  /** A new frame has a new number, and at most that one becomes barred. */
  lemma FrameGrows(s: State, kind: Kind)
    requires s.loop.Idle? && forall f :: f in s.h.recv ==> f < |s.h.recv|
    ensures var s' := DoFrame(s, kind);
      && (forall f :: f in s'.h.recv ==> f < |s'.h.recv|)
      && Grow(s.h.recv, Barred(s.loop, s.h.orphans), s'.h.recv, Barred(s'.loop, s'.h.orphans))
  {
    var s', frame := DoFrame(s, kind), |s.h.recv|;
    assert frame !in s.h.recv && |s'.h.recv| == frame + 1;
    assert Barred(s'.loop, s'.h.orphans) <= s.h.orphans.Keys + {frame};
  }

  /** So it disturbs nobody. */
  lemma GrowthKeeps(s: State, recv: map<nat, nat>, barred: set<nat>)
    requires Grow(s.h.recv, Barred(s.loop, s.h.orphans), recv, barred)
    requires EventsOk(s.eventCh, s.h.recv, Barred(s.loop, s.h.orphans))
    requires SendsOk(s.sends, s.clock, s.h.recv, s.h.enders, Barred(s.loop, s.h.orphans))
    requires EndersOk(s.h.enders, s.h.recv, s.clock, s.h.live, s.sends)
    ensures EventsOk(s.eventCh, recv, barred) && SendsOk(s.sends, s.clock, recv, s.h.enders, barred)
    ensures EndersOk(s.h.enders, recv, s.clock, s.h.live, s.sends)
  {
    EventsGrow(s.eventCh, s.h.recv, Barred(s.loop, s.h.orphans), recv, barred);
    SendsGrow(s.sends, s.clock, s.h.enders, s.h.recv, Barred(s.loop, s.h.orphans), recv, barred);
    EndersGrow(s.h.enders, s.h.recv, recv, s.clock, s.h.live, s.sends);
  }

  lemma EndersGrow(enders: set<nat>, recv: map<nat, nat>, recv': map<nat, nat>, clock: nat, live: Option<nat>, sends: map<nat, Send>)
    requires EndersOk(enders, recv, clock, live, sends) && forall f :: f in recv ==> f in recv' && recv'[f] == recv[f]
    ensures EndersOk(enders, recv', clock, live, sends)
  {
  }

  /** New frames are new keys, and only they may become barred. */
  ghost predicate Grow(recv: map<nat, nat>, barred: set<nat>, recv': map<nat, nat>, barred': set<nat>) {
    && (forall f :: f in recv ==> f in recv' && recv'[f] == recv[f])
    && (forall f :: f in recv && f in barred' ==> f in barred)
  }

  lemma EventsGrow(es: seq<Event>, recv: map<nat, nat>, barred: set<nat>, recv': map<nat, nat>, barred': set<nat>)
    requires EventsOk(es, recv, barred) && Grow(recv, barred, recv', barred')
    ensures EventsOk(es, recv', barred')
  {
    forall i | 0 <= i < |es| ensures EventOk(es[i], recv', barred') {
      assert EventOk(es[i], recv, barred);
    }
  }

  lemma SendsGrow(sends: map<nat, Send>, clock: nat, enders: set<nat>,
                  recv: map<nat, nat>, barred: set<nat>, recv': map<nat, nat>, barred': set<nat>)
    requires SendsOk(sends, clock, recv, enders, barred) && Grow(recv, barred, recv', barred')
    ensures SendsOk(sends, clock, recv', enders, barred')
  {
    forall id | id in sends ensures SendOk(sends[id], clock, recv', enders, barred') {
      assert SendOk(sends[id], clock, recv, enders, barred);
      EventsGrow(Kept(sends[id].pc), recv, barred, recv', barred');
    }
  }

  lemma FrameOwned(s: State, kind: Kind)
    requires Owned(s) && s.loop.Idle?
    ensures Owned(DoFrame(s, kind))
  {
    var s' := DoFrame(s, kind);
    FrameGrows(s, kind);
    GrowthKeeps(s, s'.h.recv, Barred(s'.loop, s'.h.orphans));
    FrameRest(s, kind);
  }

  lemma FrameNotAnswered(s: State, frame: nat)
    requires SendsOk(s.sends, s.clock, s.h.recv, s.h.enders, Barred(s.loop, s.h.orphans)) && frame !in s.h.recv
    ensures NotAnswered(s.sends, frame)
  {
    forall id | id in s.sends
      ensures !IsFrame(Answer(s.sends[id].pc), frame) && !IsFrame(Held(s.sends[id].pc), frame)
    {
      assert SendOk(s.sends[id], s.clock, s.h.recv, s.h.enders, Barred(s.loop, s.h.orphans));
    }
  }

  lemma FrameRest(s: State, kind: Kind)
    requires FrameRestOk(s) && s.loop.Idle? && forall f :: f in s.h.recv ==> f < |s.h.recv|
    requires SendsOk(s.sends, s.clock, s.h.recv, s.h.enders, Barred(s.loop, s.h.orphans))
    ensures FrameRestOk(DoFrame(s, kind))
  {
    var frame := |s.h.recv|;
    assert frame !in s.h.recv;
    FrameNotAnswered(s, frame);
  }

  ghost predicate FrameRestOk(s: State) {
    && OwnerOk(s.t, s.h.live, s.sends)
    && ReconnectOk(s.t, s.loop, s.sends)
    && LoopOk(s.loop, s.h.recv, s.h.orphans, s.clock)
    && HandOk(s.loop, s.t.unowned, s.sends)
    && RunsOk(s.t, s.sends, s.h.gaveUp, s.h.displaced)
    && BookedOk(s.booked, s.h.orphans, s.loop, s.h.recv)
  }

  /** The marker is read for the result in hand, which was barred until then. */
  lemma TakeMarkerOwned(s: State)
    requires Owned(s) && s.loop.Dispatching?
    ensures Owned(DoTakeMarker(s))
  {
    var s' := DoTakeMarker(s);
    var before, after := Barred(s.loop, s.h.orphans), Barred(s'.loop, s'.h.orphans);
    EventsGrow(s.eventCh, s.h.recv, before, s.h.recv, after);
    SendsGrow(s.sends, s.clock, s.h.enders, s.h.recv, before, s.h.recv, after);
    TakeMarkerRest(s);
  }

  lemma TakeMarkerRest(s: State)
    requires FrameRestOk(s) && s.loop.Dispatching?
    ensures FrameRestOk(DoTakeMarker(s))
  {
  }

  /** A result nobody has returned may become an ender. */
  lemma EnderJoins(s: State, f: nat)
    requires SendsOk(s.sends, s.clock, s.h.recv, s.h.enders, Barred(s.loop, s.h.orphans)) && NotAnswered(s.sends, f)
    ensures SendsOk(s.sends, s.clock, s.h.recv, s.h.enders + {f}, Barred(s.loop, s.h.orphans))
  {
    forall id | id in s.sends ensures SendOk(s.sends[id], s.clock, s.h.recv, s.h.enders + {f}, Barred(s.loop, s.h.orphans)) {
      assert SendOk(s.sends[id], s.clock, s.h.recv, s.h.enders, Barred(s.loop, s.h.orphans));
    }
  }

  lemma AttachOwned(s: State, step: Step)
    requires Owned(s) && LoopGuard(s, step) && AttachStep(step)
    ensures Owned(LoopStep(s, step))
  {
  }

  lemma InitOwned(s: State, replay: bool)
    requires Owned(s) && s.loop.Starting?
    ensures Owned(LoopStep(s, InitHook(replay)))
  {
  }

  lemma OwnResultOwned(s: State)
    requires Owned(s) && s.loop.Owning?
    ensures Owned(DoOwnResult(s))
  {
    OwnResultBooked(s);
    if s.t.reconnected {
      OwnReconnected(s);
    } else if s.loop.orphaned {
      OwnOrphan(s);
    }
  }

  lemma OwnOrphan(s: State)
    requires Owned(s) && s.loop.Owning? && !s.t.reconnected && s.loop.orphaned
    requires var s' := DoOwnResult(s); BookedOk(s'.booked, s.h.orphans, s'.loop, s.h.recv)
    ensures Owned(DoOwnResult(s))
  {
  }

  /** The one-shot flag: nobody has sent, so no result is an orphan. */
  lemma OwnReconnected(s: State)
    requires Owned(s) && s.loop.Owning? && s.t.reconnected
    ensures Owned(s.(t := s.t.(reconnected := false), loop := TurnEnding(s.loop.ev)))
  {
    assert !Orphaning(s.loop);
  }

  lemma OwnResultBooked(s: State)
    requires s.loop.Owning? && BookedOk(s.booked, s.h.orphans, s.loop, s.h.recv)
    requires LoopOk(s.loop, s.h.recv, s.h.orphans, s.clock) && (s.t.reconnected ==> !Orphaning(s.loop))
    ensures var s' := DoOwnResult(s); BookedOk(s'.booked, s.h.orphans, s'.loop, s.h.recv)
  {
    var s' := DoOwnResult(s);
    forall f | f in s.h.orphans ensures f in s.h.recv && Booking(f, s.h.orphans[f]) in s'.booked {
      if Orphaning(s.loop) && s.loop.ev.frame == f {
        assert s'.booked[|s.booked|] == Booking(f, s.h.orphans[f]);
      } else {
        assert Booking(f, s.h.orphans[f]) in s.booked;
      }
    }
  }

  /** The turn a reconnect found in flight ends with nobody sending. */
  lemma EndReconnectedOwned(s: State)
    requires Owned(s) && s.loop.TurnEnding?
    ensures Owned(LoopStep(s, EndReconnected))
  {
    EnderJoins(s, s.loop.ev.frame);
  }

  lemma DeliverEvents(s: State, next: Loop)
    requires EventsOk(s.eventCh, s.h.recv, Barred(s.loop, s.h.orphans)) && (s.loop.Handing? || s.loop.Passing?)
    requires LoopOk(s.loop, s.h.recv, s.h.orphans, s.clock)
    ensures EventsOk(Deliver(s, s.loop.ev, next).eventCh, s.h.recv, Barred(s.loop, s.h.orphans))
  {
  }

  lemma HandOverOwned(s: State)
    requires Owned(s) && s.loop.Handing?
    ensures Owned(Deliver(s, s.loop.ev, Idle))
  {
    DeliverEvents(s, Idle);
  }

  lemma PassOnOwned(s: State)
    requires Owned(s) && s.loop.Passing?
    ensures Owned(Deliver(s, s.loop.ev, Settling(s.loop.ev, s.loop.noLive, s.loop.run)))
  {
    DeliverEvents(s, Settling(s.loop.ev, s.loop.noLive, s.loop.run));
  }

  /** A turn the CLI started ends with nobody sending: unowned means no live
      Send, and its result is in nobody's hands. */
  lemma UnownedEndOwned(s: State)
    requires Owned(s) && s.loop.SettlingTurn? && s.t.unowned
    ensures Owned(EndUnownedTurn(s, s.loop.ev).(loop := BookingResult(s.loop.ev, s.loop.run)))
  {
    EnderJoins(s, s.loop.ev.frame);
  }

  lemma SettleLaterOwned(s: State, loop: Loop)
    requires Owned(s) && s.loop.SettlingTurn?
    requires loop == Idle || loop == BookingResult(s.loop.ev, s.loop.run)
    ensures Owned(s.(loop := loop))
  {
  }

  lemma SettleTurnOwned(s: State)
    requires Owned(s) && s.loop.SettlingTurn?
    ensures Owned(DoSettleTurn(s))
  {
    if s.t.unowned && s.loop.pending == 0 {
      UnownedEndOwned(s);
    } else {
      SettleLaterOwned(s, DoSettleTurn(s).loop);
    }
  }

  lemma BookUnownedOwned(s: State)
    requires Owned(s) && s.loop.BookingResult?
    ensures Owned(DoBookUnowned(s))
  {
    BookedMore(s.booked, Booking(s.loop.ev.frame, s.loop.run), s.h.orphans, s.loop, Idle, s.h.recv);
  }

  /** Booking a result that was not orphaned. */
  lemma BookedMore(booked: seq<Booking>, b: Booking, orphans: map<nat, string>, loop: Loop, loop': Loop, recv: map<nat, nat>)
    requires BookedOk(booked, orphans, loop, recv) && b.frame in recv && b.frame !in orphans
    requires Orphaning(loop) ==> loop' == loop
    requires loop'.Dispatching? ==> loop' == loop && b.frame != loop.ev.frame
    ensures BookedOk(booked + [b], orphans, loop', recv)
  {
    forall f | f in orphans
      ensures f in recv && ((Orphaning(loop') && loop'.ev.frame == f) || Booking(f, orphans[f]) in booked + [b])
    {
      if !(Orphaning(loop) && loop.ev.frame == f) { assert Booking(f, orphans[f]) in booked; }
    }
  }

  lemma QuietOwned(s: State, loop: Loop)
    requires Owned(s) && (loop == s.loop || Forwarded(s.loop, loop))
    ensures Owned(s.(loop := loop))
  {
  }

  /** The frame in hand moves on with what was read about it. */
  ghost predicate Forwarded(loop: Loop, loop': Loop) {
    || (loop.Taken? && loop' == Logging(loop.ev, loop.orphaned, loop.orphanRun))
    || (loop.Logging? && loop' == Owning(loop.ev, loop.orphaned, loop.orphanRun))
    || (loop.Latching? && loop' == Handing(loop.ev))
    || (loop.Unwinding? && loop'.DoneClosed?) || (loop.DoneClosed? && loop'.EventsClosed?) || (loop.EventsClosed? && loop'.Exited?)
    || (loop.Asking? && loop'.Passing? && loop'.ev == loop.ev)
    || (loop.Settling? && loop'.SettlingTurn? && loop'.ev == loop.ev)
  }

  lemma LogResultOwned(s: State)
    requires Owned(s) && s.loop.Logging?
    ensures Owned(DoLogResult(s))
  {
    var s' := DoLogResult(s);
    QuietOwned(s, s'.loop);
    assert s' == s.(loop := s'.loop, h := s.h.(logged := s'.h.logged));
  }

  lemma ClosingOwned(s: State, step: Step)
    requires Owned(s) && LoopGuard(s, step) && ClosingStep(step)
    ensures Owned(LoopStep(s, step))
  {
    var s' := LoopStep(s, step);
    QuietOwned(s, s'.loop);
    assert s' == s.(loop := s'.loop, done := s'.done, closed := s'.closed, latch := s'.latch);
  }

  lemma LoopEndsOwned(s: State)
    requires Owned(s) && s.loop.Idle?
    ensures Owned(LoopStep(s, LoopEnds))
  {
  }

  lemma LoopOwned(s: State, step: Step)
    requires Owned(s) && LoopGuard(s, step) && SendOnly(step)
    ensures Owned(LoopStep(s, step))
  {
    match step
    case Frame(kind) => FrameOwned(s, kind);
    case TakeMarker => TakeMarkerOwned(s);
    case InitHook(replay) => InitOwned(s, replay);
    case LogResult => LogResultOwned(s);
    case OwnResult => OwnResultOwned(s);
    case HandOver => HandOverOwned(s);
    case PassOn => PassOnOwned(s);
    case LoopEnds => LoopEndsOwned(s);
    case _ => RestOwned(s, step);
  }

  lemma RestOwned(s: State, step: Step)
    requires Owned(s) && LoopGuard(s, step)
    requires EndingStep(step) || ReadingStep(step) || AttachStep(step) || ClosingStep(step)
    ensures Owned(LoopStep(s, step))
  {
    if EndingStep(step) {
      EndingOwned(s, step);
    } else if ReadingStep(step) {
      QuietOwned(s, LoopStep(s, step).loop);
    } else if AttachStep(step) {
      AttachOwned(s, step);
    } else {
      ClosingOwned(s, step);
    }
  }

  predicate EndingStep(step: Step) { step.EndReconnected? || step.SettleTurn? || step.BookUnowned? }

  /** The steps that only read. */
  predicate ReadingStep(step: Step) { step.SlotsPass? || step.AskLive? || step.LatchResult? || step.ReadSlots? }

  lemma EndingOwned(s: State, step: Step)
    requires Owned(s) && LoopGuard(s, step) && EndingStep(step)
    ensures Owned(LoopStep(s, step))
  {
    match step
    case EndReconnected => EndReconnectedOwned(s);
    case SettleTurn => SettleTurnOwned(s);
    case BookUnowned => BookUnownedOwned(s);
  }

  // ---------- Send ----------

  /** What each move of a live Send keeps, by the parts it may touch. */
  lemma TakenEvents(es: seq<Event>, recv: map<nat, nat>, barred: set<nat>)
    requires EventsOk(es, recv, barred) && es != []
    ensures EventOk(es[0], recv, barred) && EventsOk(es[1..], recv, barred)
  {
    forall i | 0 <= i < |es[1..]| ensures EventOk(es[1..][i], recv, barred) {
      assert EventOk(es[i + 1], recv, barred);
    }
  }

  lemma EventsAppend(es: seq<Event>, e: Event, recv: map<nat, nat>, barred: set<nat>)
    requires EventsOk(es, recv, barred) && EventOk(e, recv, barred)
    ensures EventsOk(es + [e], recv, barred)
  {
  }

  /** The Send `id` moved to `send'`, still live, and the turn keeps its owner. */
  ghost predicate SendMove(s: State, id: nat, send': Send, t': Turn) {
    && id in s.sends && !s.sends[id].pc.Returned? && !send'.pc.Returned? && send'.run == s.sends[id].run
    && SendOk(send', s.clock, s.h.recv, s.h.enders, Barred(s.loop, s.h.orphans))
    && (send'.stale == s.sends[id].stale || send'.stale == Some(s.clock))
    && t'.state == s.t.state && t'.unowned == s.t.unowned && t'.runID == s.t.runID && t'.reconnected == s.t.reconnected
  }

  lemma SendMoved(s: State, id: nat, send': Send, t': Turn)
    requires SendsOk(s.sends, s.clock, s.h.recv, s.h.enders, Barred(s.loop, s.h.orphans))
    requires OwnerOk(s.t, s.h.live, s.sends) && ReconnectOk(s.t, s.loop, s.sends)
    requires EndersOk(s.h.enders, s.h.recv, s.clock, s.h.live, s.sends)
    requires HandOk(s.loop, s.t.unowned, s.sends)
    requires SendMove(s, id, send', t')
    ensures var sends' := s.sends[id := send'];
      && SendsOk(sends', s.clock, s.h.recv, s.h.enders, Barred(s.loop, s.h.orphans))
      && OwnerOk(t', s.h.live, sends') && ReconnectOk(t', s.loop, sends')
      && EndersOk(s.h.enders, s.h.recv, s.clock, s.h.live, sends')
      && HandOk(s.loop, t'.unowned, sends')
      && sends' != map[]
  {
    var sends' := s.sends[id := send'];
    assert s.h.live == Some(id);
    assert id in sends';
  }

  /** Everything else a live Send's move may touch. */
  ghost predicate MoveRest(s: State, s': State) {
    && s'.loop == s.loop && s'.clock == s.clock
    && s'.h == s.h.(gaveUp := s'.h.gaveUp)
    && EventsOk(s'.eventCh, s.h.recv, Barred(s.loop, s.h.orphans))
    && (s'.t.abort.orphaned ==> s'.t.abort == s.t.abort)
    && (if s'.t.sendAbandoned == s.t.sendAbandoned then s'.h.gaveUp == s.h.gaveUp || (s.t.sendAbandoned && s'.h.gaveUp == s.t.runID)
        else s'.t.sendAbandoned && s'.h.gaveUp == s.t.runID)
    && BookedOk(s'.booked, s.h.orphans, s.loop, s.h.recv)
  }

  lemma MoveOwned(s: State, id: nat, s': State)
    requires Owned(s) && Moved(s, id, s') && MoveRest(s, s')
    ensures Owned(s')
  {
    SendMoved(s, id, s'.sends[id], s'.t);
    assert RunsOk(s'.t, s'.sends, s'.h.gaveUp, s'.h.displaced);
  }

  /** The moves that leave the channel and the hook alone. */
  predicate OwnPcMove(move: Move) {
    !move.Take? && !move.SettleTake? && !move.SweepTake? && !move.Refill? && !move.EndSend?
  }

  predicate StampMove(move: Move) { move.Stamp? || move.ReadCutoff? }

  predicate SettleMove(move: Move) { move.BeginDrain? || move.SettleStop? }

  predicate SweepMove(move: Move) { move.SweepEnd? || move.DrainCancel? }

  predicate WriteMove(move: Move) { move.DrainDone? || move.Write? }

  predicate HeldMove(move: Move) { move.HeldOut? || move.ChannelClosed? }

  predicate KillMove(move: Move) { move.WatchdogKill? || move.ClearFlags? }

  ghost predicate Moved(s: State, id: nat, s': State) {
    id in s.sends && id in s'.sends && s'.sends == s.sends[id := s'.sends[id]] && SendMove(s, id, s'.sends[id], s'.t)
  }

  lemma StampMoveSend(s: State, id: nat, move: Move)
    requires CanMove(s, id, move) && StampMove(move)
    requires SendOk(s.sends[id], s.clock, s.h.recv, s.h.enders, Barred(s.loop, s.h.orphans))
    ensures Moved(s, id, SendStep(s, id, move))
  {
  }

  lemma SettleMoveSend(s: State, id: nat, move: Move)
    requires CanMove(s, id, move) && SettleMove(move)
    requires SendOk(s.sends[id], s.clock, s.h.recv, s.h.enders, Barred(s.loop, s.h.orphans))
    ensures Moved(s, id, SendStep(s, id, move))
  {
  }

  lemma SweepMoveSend(s: State, id: nat, move: Move)
    requires CanMove(s, id, move) && SweepMove(move)
    requires SendOk(s.sends[id], s.clock, s.h.recv, s.h.enders, Barred(s.loop, s.h.orphans))
    ensures Moved(s, id, SendStep(s, id, move))
  {
  }

  lemma WriteMoveSend(s: State, id: nat, move: Move)
    requires CanMove(s, id, move) && WriteMove(move)
    requires SendOk(s.sends[id], s.clock, s.h.recv, s.h.enders, Barred(s.loop, s.h.orphans))
    ensures Moved(s, id, SendStep(s, id, move))
  {
  }

  lemma HeldMoveSend(s: State, id: nat, move: Move)
    requires CanMove(s, id, move) && HeldMove(move)
    requires SendOk(s.sends[id], s.clock, s.h.recv, s.h.enders, Barred(s.loop, s.h.orphans))
    ensures Moved(s, id, SendStep(s, id, move))
  {
  }

  lemma KillMoveSend(s: State, id: nat, move: Move)
    requires CanMove(s, id, move) && KillMove(move)
    requires SendOk(s.sends[id], s.clock, s.h.recv, s.h.enders, Barred(s.loop, s.h.orphans))
    ensures Moved(s, id, SendStep(s, id, move))
  {
  }

  lemma AbandonSend(s: State, id: nat)
    requires CanMove(s, id, Abandon)
    requires SendOk(s.sends[id], s.clock, s.h.recv, s.h.enders, Barred(s.loop, s.h.orphans))
    ensures Moved(s, id, SendStep(s, id, Abandon))
  {
  }

  lemma RunDeferredSend(s: State, id: nat)
    requires CanMove(s, id, RunDeferred)
    requires SendOk(s.sends[id], s.clock, s.h.recv, s.h.enders, Barred(s.loop, s.h.orphans))
    ensures Moved(s, id, SendStep(s, id, RunDeferred))
  {
  }

  lemma PcMoveSend(s: State, id: nat, move: Move)
    requires CanMove(s, id, move) && OwnPcMove(move)
    requires SendOk(s.sends[id], s.clock, s.h.recv, s.h.enders, Barred(s.loop, s.h.orphans))
    ensures Moved(s, id, SendStep(s, id, move))
  {
    if StampMove(move) || SettleMove(move) {
      StartMoveSend(s, id, move);
    } else if SweepMove(move) || WriteMove(move) {
      EmptyMoveSend(s, id, move);
    } else {
      WaitMoveSend(s, id, move);
    }
  }

  lemma StartMoveSend(s: State, id: nat, move: Move)
    requires CanMove(s, id, move) && (StampMove(move) || SettleMove(move))
    requires SendOk(s.sends[id], s.clock, s.h.recv, s.h.enders, Barred(s.loop, s.h.orphans))
    ensures Moved(s, id, SendStep(s, id, move))
  {
    if StampMove(move) {
      StampMoveSend(s, id, move);
    } else {
      SettleMoveSend(s, id, move);
    }
  }

  lemma EmptyMoveSend(s: State, id: nat, move: Move)
    requires CanMove(s, id, move) && (SweepMove(move) || WriteMove(move))
    requires SendOk(s.sends[id], s.clock, s.h.recv, s.h.enders, Barred(s.loop, s.h.orphans))
    ensures Moved(s, id, SendStep(s, id, move))
  {
    if SweepMove(move) {
      SweepMoveSend(s, id, move);
    } else {
      WriteMoveSend(s, id, move);
    }
  }

  lemma WaitMoveSend(s: State, id: nat, move: Move)
    requires CanMove(s, id, move) && (HeldMove(move) || KillMove(move) || move.Abandon? || move.RunDeferred?)
    requires SendOk(s.sends[id], s.clock, s.h.recv, s.h.enders, Barred(s.loop, s.h.orphans))
    ensures Moved(s, id, SendStep(s, id, move))
  {
    if HeldMove(move) {
      HeldMoveSend(s, id, move);
    } else if KillMove(move) {
      KillMoveSend(s, id, move);
    } else if move.Abandon? {
      AbandonSend(s, id);
    } else {
      RunDeferredSend(s, id);
    }
  }

  lemma StartMoveRest(s: State, id: nat, move: Move)
    requires CanMove(s, id, move) && (StampMove(move) || SettleMove(move))
    requires EventsOk(s.eventCh, s.h.recv, Barred(s.loop, s.h.orphans)) && BookedOk(s.booked, s.h.orphans, s.loop, s.h.recv)
    ensures MoveRest(s, SendStep(s, id, move))
  {
  }

  lemma SweepMoveRest(s: State, id: nat, move: Move)
    requires CanMove(s, id, move) && (SweepMove(move) || WriteMove(move))
    requires EventsOk(s.eventCh, s.h.recv, Barred(s.loop, s.h.orphans)) && BookedOk(s.booked, s.h.orphans, s.loop, s.h.recv)
    ensures MoveRest(s, SendStep(s, id, move))
  {
  }

  lemma LeaveMoveRest(s: State, id: nat, move: Move)
    requires CanMove(s, id, move) && (HeldMove(move) || KillMove(move) || move.RunDeferred?)
    requires EventsOk(s.eventCh, s.h.recv, Barred(s.loop, s.h.orphans)) && BookedOk(s.booked, s.h.orphans, s.loop, s.h.recv)
    ensures MoveRest(s, SendStep(s, id, move))
  {
  }

  lemma AbandonRest(s: State, id: nat)
    requires CanMove(s, id, Abandon)
    requires EventsOk(s.eventCh, s.h.recv, Barred(s.loop, s.h.orphans)) && BookedOk(s.booked, s.h.orphans, s.loop, s.h.recv)
    requires s.sends[id].run == s.t.runID
    ensures MoveRest(s, SendStep(s, id, Abandon))
  {
  }

  lemma LiveSend(s: State, id: nat, move: Move)
    requires Owned(s) && CanMove(s, id, move)
    ensures !s.sends[id].pc.Returned? && s.h.live == Some(id) && s.sends[id].run == s.t.runID
    ensures SendOk(s.sends[id], s.clock, s.h.recv, s.h.enders, Barred(s.loop, s.h.orphans))
    ensures EventsOk(s.eventCh, s.h.recv, Barred(s.loop, s.h.orphans)) && BookedOk(s.booked, s.h.orphans, s.loop, s.h.recv)
  {
  }

  lemma PcMoveOwned(s: State, id: nat, move: Move)
    requires Owned(s) && CanMove(s, id, move) && OwnPcMove(move)
    ensures Owned(SendStep(s, id, move))
  {
    LiveSend(s, id, move);
    PcMoveSend(s, id, move);
    if StampMove(move) || SettleMove(move) {
      StartMoveRest(s, id, move);
    } else if SweepMove(move) || WriteMove(move) {
      SweepMoveRest(s, id, move);
    } else if move.Abandon? {
      AbandonRest(s, id);
    } else {
      LeaveMoveRest(s, id, move);
    }
    MoveOwned(s, id, SendStep(s, id, move));
  }

  lemma RefillOwned(s: State, id: nat)
    requires Owned(s) && CanMove(s, id, Refill)
    ensures Owned(SendStep(s, id, Refill))
  {
    LiveSend(s, id, Refill);
    RefillSend(s, id);
    RefillRest(s, id);
    MoveOwned(s, id, SendStep(s, id, Refill));
  }

  lemma RefillSend(s: State, id: nat)
    requires CanMove(s, id, Refill)
    requires SendOk(s.sends[id], s.clock, s.h.recv, s.h.enders, Barred(s.loop, s.h.orphans))
    ensures Moved(s, id, SendStep(s, id, Refill))
  {
    TakenEvents(s.sends[id].pc.kept, s.h.recv, Barred(s.loop, s.h.orphans));
  }

  lemma RefillRest(s: State, id: nat)
    requires CanMove(s, id, Refill) && EventsOk(s.sends[id].pc.kept, s.h.recv, Barred(s.loop, s.h.orphans))
    requires EventsOk(s.eventCh, s.h.recv, Barred(s.loop, s.h.orphans)) && BookedOk(s.booked, s.h.orphans, s.loop, s.h.recv)
    ensures MoveRest(s, SendStep(s, id, Refill))
  {
    EventsAppend(s.eventCh, s.sends[id].pc.kept[0], s.h.recv, Barred(s.loop, s.h.orphans));
  }

  /** A received event the Send drops, books or keeps. */
  lemma DroppedRest(s: State, ev: Event)
    requires BookedOk(s.booked, s.h.orphans, s.loop, s.h.recv) && EventOk(ev, s.h.recv, Barred(s.loop, s.h.orphans))
    ensures var d := Dropped(s, ev);
      && BookedOk(d.booked, s.h.orphans, s.loop, s.h.recv)
      && d == s.(t := d.t, booked := d.booked)
      && (d.t == s.t || d.t == s.t.(abort := Release(s.t.abort)))
  {
    if ev.kind.ResultFrame? { BookedMore(s.booked, Booking(ev.frame, ""), s.h.orphans, s.loop, s.loop, s.h.recv); }
  }

  lemma SettleTakeOwned(s: State, id: nat)
    requires Owned(s) && CanMove(s, id, SettleTake)
    ensures Owned(DoSettleTake(s, id))
  {
    LiveSend(s, id, SettleTake);
    SettleTakeLocal(s, id);
    MoveOwned(s, id, DoSettleTake(s, id));
  }

  lemma SettleTakeLocal(s: State, id: nat)
    requires CanMove(s, id, SettleTake)
    requires SendOk(s.sends[id], s.clock, s.h.recv, s.h.enders, Barred(s.loop, s.h.orphans))
    requires EventsOk(s.eventCh, s.h.recv, Barred(s.loop, s.h.orphans)) && BookedOk(s.booked, s.h.orphans, s.loop, s.h.recv)
    ensures Moved(s, id, DoSettleTake(s, id)) && MoveRest(s, DoSettleTake(s, id))
  {
    TakenEvents(s.eventCh, s.h.recv, Barred(s.loop, s.h.orphans));
    SettleTakeRest(s, id);
    SettleTakeMoved(s, id);
  }

  lemma SettleTakeRest(s: State, id: nat)
    requires CanMove(s, id, SettleTake) && EventOk(s.eventCh[0], s.h.recv, Barred(s.loop, s.h.orphans))
    requires EventsOk(s.eventCh[1..], s.h.recv, Barred(s.loop, s.h.orphans))
    requires BookedOk(s.booked, s.h.orphans, s.loop, s.h.recv)
    ensures MoveRest(s, DoSettleTake(s, id))
  {
    if s.eventCh[0].kind.ResultFrame? { DroppedRest(s.(eventCh := s.eventCh[1..]), s.eventCh[0]); }
  }

  lemma SettleTakeMoved(s: State, id: nat)
    requires CanMove(s, id, SettleTake) && EventOk(s.eventCh[0], s.h.recv, Barred(s.loop, s.h.orphans))
    requires SendOk(s.sends[id], s.clock, s.h.recv, s.h.enders, Barred(s.loop, s.h.orphans))
    ensures Moved(s, id, DoSettleTake(s, id))
  {
    var ev, send := s.eventCh[0], s.sends[id];
    EventsAppend(send.pc.kept, ev, s.h.recv, Barred(s.loop, s.h.orphans));
    if ev.kind.ResultFrame? {
      assert Kept(DoSettleTake(s, id).sends[id].pc) == send.pc.kept;
    } else if ev.recvAt > send.pc.cutoff {
      assert Kept(DoSettleTake(s, id).sends[id].pc) == send.pc.kept + [ev];
    } else {
      assert s.sends[id := send] == s.sends;
    }
  }

  lemma SweepTakeOwned(s: State, id: nat)
    requires Owned(s) && CanMove(s, id, SweepTake)
    ensures Owned(DoSweepTake(s, id))
  {
    LiveSend(s, id, SweepTake);
    SweepTakeLocal(s, id);
    MoveOwned(s, id, DoSweepTake(s, id));
  }

  lemma SweepTakeLocal(s: State, id: nat)
    requires CanMove(s, id, SweepTake)
    requires SendOk(s.sends[id], s.clock, s.h.recv, s.h.enders, Barred(s.loop, s.h.orphans))
    requires EventsOk(s.eventCh, s.h.recv, Barred(s.loop, s.h.orphans)) && BookedOk(s.booked, s.h.orphans, s.loop, s.h.recv)
    ensures Moved(s, id, DoSweepTake(s, id)) && MoveRest(s, DoSweepTake(s, id))
  {
    TakenEvents(s.eventCh, s.h.recv, Barred(s.loop, s.h.orphans));
    DroppedRest(s.(eventCh := s.eventCh[1..]), s.eventCh[0]);
    SweepTakeMoved(s, id);
  }

  lemma SweepTakeMoved(s: State, id: nat)
    requires CanMove(s, id, SweepTake) && EventOk(s.eventCh[0], s.h.recv, Barred(s.loop, s.h.orphans))
    requires SendOk(s.sends[id], s.clock, s.h.recv, s.h.enders, Barred(s.loop, s.h.orphans))
    ensures Moved(s, id, DoSweepTake(s, id))
  {
    assert s.sends[id := s.sends[id]] == s.sends;
    if s.eventCh[0].recvAt > s.sends[id].pc.cutoff { SweepHolds(s, id); }
  }

  lemma SweepHolds(s: State, id: nat)
    requires CanMove(s, id, SweepTake) && EventOk(s.eventCh[0], s.h.recv, Barred(s.loop, s.h.orphans))
    requires SendOk(s.sends[id], s.clock, s.h.recv, s.h.enders, Barred(s.loop, s.h.orphans))
    requires s.eventCh[0].recvAt > s.sends[id].pc.cutoff
    ensures Moved(s, id, DoSweepTake(s, id))
  {
    EventsAppend(s.sends[id].pc.kept, s.eventCh[0], s.h.recv, Barred(s.loop, s.h.orphans));
  }

  /** The receive of Send's own loop: what is not later than the claim is
      dropped, and what ended somebody else's turn is not later than the claim. */
  lemma TakeOwned(s: State, id: nat, hold: bool)
    requires Owned(s) && CanMove(s, id, Take(hold))
    ensures Owned(DoTake(s, id, hold))
  {
    LiveSend(s, id, Take(hold));
    FreshNotEnder(s, id);
    TakeLocal(s, id, hold);
    MoveOwned(s, id, DoTake(s, id, hold));
  }

  /** An event received after the claim ended nobody else's turn. */
  lemma FreshNotEnder(s: State, id: nat)
    requires Owned(s) && s.h.live == Some(id) && s.eventCh != [] && id in s.sends && s.sends[id].stale.Some?
    ensures s.eventCh[0].recvAt > s.sends[id].stale.value ==> s.eventCh[0].frame !in s.h.enders
  {
    assert EventOk(s.eventCh[0], s.h.recv, Barred(s.loop, s.h.orphans));
  }

  lemma TakeLocal(s: State, id: nat, hold: bool)
    requires CanMove(s, id, Take(hold))
    requires SendOk(s.sends[id], s.clock, s.h.recv, s.h.enders, Barred(s.loop, s.h.orphans))
    requires EventsOk(s.eventCh, s.h.recv, Barred(s.loop, s.h.orphans)) && BookedOk(s.booked, s.h.orphans, s.loop, s.h.recv)
    requires s.eventCh[0].recvAt > s.sends[id].stale.value ==> s.eventCh[0].frame !in s.h.enders
    ensures Moved(s, id, DoTake(s, id, hold)) && MoveRest(s, DoTake(s, id, hold))
  {
    TakenEvents(s.eventCh, s.h.recv, Barred(s.loop, s.h.orphans));
    TakeRest(s, id, hold);
    if s.eventCh[0].recvAt > s.sends[id].stale.value && s.eventCh[0].kind.ResultFrame? {
      AnswerTaken(s, id, hold);
    } else {
      StaleTaken(s, id, hold);
    }
  }

  /** Anything else leaves the Send where it was. */
  lemma StaleTaken(s: State, id: nat, hold: bool)
    requires CanMove(s, id, Take(hold))
    requires SendOk(s.sends[id], s.clock, s.h.recv, s.h.enders, Barred(s.loop, s.h.orphans))
    requires s.eventCh[0].recvAt <= s.sends[id].stale.value || !s.eventCh[0].kind.ResultFrame?
    ensures Moved(s, id, DoTake(s, id, hold))
  {
    assert s.sends[id := s.sends[id]] == s.sends;
  }

  lemma TakeRest(s: State, id: nat, hold: bool)
    requires CanMove(s, id, Take(hold)) && EventOk(s.eventCh[0], s.h.recv, Barred(s.loop, s.h.orphans))
    requires EventsOk(s.eventCh[1..], s.h.recv, Barred(s.loop, s.h.orphans))
    requires BookedOk(s.booked, s.h.orphans, s.loop, s.h.recv)
    ensures MoveRest(s, DoTake(s, id, hold))
  {
    if s.eventCh[0].recvAt <= s.sends[id].stale.value { DroppedRest(s.(eventCh := s.eventCh[1..]), s.eventCh[0]); }
  }

  /** The result a Send takes is one it may return. */
  lemma AnswerTaken(s: State, id: nat, hold: bool)
    requires CanMove(s, id, Take(hold))
    requires SendOk(s.sends[id], s.clock, s.h.recv, s.h.enders, Barred(s.loop, s.h.orphans))
    requires EventOk(s.eventCh[0], s.h.recv, Barred(s.loop, s.h.orphans)) && s.eventCh[0].kind.ResultFrame?
    requires s.eventCh[0].recvAt > s.sends[id].stale.value && s.eventCh[0].frame !in s.h.enders
    ensures Moved(s, id, DoTake(s, id, hold))
  {
    var ev, send := s.eventCh[0], s.sends[id];
    var pc := if hold then Reading(Some(ev)) else Deferring(Some(ev), send.pc.held);
    assert SendOk(send.(pc := pc), s.clock, s.h.recv, s.h.enders, Barred(s.loop, s.h.orphans));
  }

  lemma EndSendOwned(s: State, id: nat)
    requires Owned(s) && CanMove(s, id, EndSend)
    ensures Owned(SendStep(s, id, EndSend))
  {
    LiveSend(s, id, EndSend);
    EndSendSends(s, id);
    EndSendOwner(s, id);
    EndSendRest(s, id);
  }

  lemma EndSendOwner(s: State, id: nat)
    requires CanMove(s, id, EndSend) && s.h.live == Some(id)
    requires OwnerOk(s.t, s.h.live, s.sends) && ReconnectOk(s.t, s.loop, s.sends)
    ensures var s' := SendStep(s, id, EndSend); OwnerOk(s'.t, s'.h.live, s'.sends) && ReconnectOk(s'.t, s'.loop, s'.sends)
  {
  }

  lemma EndSendRest(s: State, id: nat)
    requires CanMove(s, id, EndSend) && s.h.live == Some(id)
    requires HandOk(s.loop, s.t.unowned, s.sends) && RunsOk(s.t, s.sends, s.h.gaveUp, s.h.displaced)
    requires EndersOk(s.h.enders, s.h.recv, s.clock, s.h.live, s.sends) && OwnerOk(s.t, s.h.live, s.sends)
    ensures var s' := SendStep(s, id, EndSend);
      && HandOk(s'.loop, s'.t.unowned, s'.sends) && RunsOk(s'.t, s'.sends, s'.h.gaveUp, s'.h.displaced)
      && EndersOk(s'.h.enders, s'.h.recv, s'.clock, s'.h.live, s'.sends)
  {
    assert id in SendStep(s, id, EndSend).sends;
  }

  lemma EndSendSends(s: State, id: nat)
    requires CanMove(s, id, EndSend) && SendsOk(s.sends, s.clock, s.h.recv, s.h.enders, Barred(s.loop, s.h.orphans))
    ensures SendsOk(SendStep(s, id, EndSend).sends, s.clock, s.h.recv, s.h.enders, Barred(s.loop, s.h.orphans))
  {
    assert SendOk(s.sends[id], s.clock, s.h.recv, s.h.enders, Barred(s.loop, s.h.orphans));
  }

  lemma SendingOwned(s: State, id: nat, move: Move)
    requires Owned(s) && CanMove(s, id, move)
    ensures Owned(SendStep(s, id, move))
  {
    if OwnPcMove(move) {
      PcMoveOwned(s, id, move);
    } else {
      match move
      case SettleTake => SettleTakeOwned(s, id);
      case SweepTake => SweepTakeOwned(s, id);
      case Take(hold) => TakeOwned(s, id, hold);
      case Refill => RefillOwned(s, id);
      case EndSend => EndSendOwned(s, id);
    }
  }

  /** A claim only succeeds while nobody is live and no turn is unowned. */
  lemma ClaimOwned(s: State, id: nat, run: string)
    requires Owned(s) && (s.t.unowned ==> s.t.state == Running) && id !in s.sends && !s.loop.NotStarted?
    ensures Owned(DoClaim(s, id, run))
  {
    if Moves(s.t, SendBegin) {
      ClaimAlone(s);
      ClaimHand(s, id, run);
    }
  }

  lemma ClaimAlone(s: State)
    requires OwnerOk(s.t, s.h.live, s.sends) && ReconnectOk(s.t, s.loop, s.sends) && (s.t.unowned ==> s.t.state == Running)
    requires Moves(s.t, SendBegin)
    ensures s.h.live.None? && !s.t.unowned && !s.t.reconnected && !s.loop.TurnEnding?
  {
  }

  lemma ClaimHand(s: State, id: nat, run: string)
    requires HandOk(s.loop, s.t.unowned, s.sends) && SendsOk(s.sends, s.clock, s.h.recv, s.h.enders, Barred(s.loop, s.h.orphans))
    requires id !in s.sends && Moves(s.t, SendBegin)
    ensures var s' := DoClaim(s, id, run);
      && HandOk(s.loop, s'.t.unowned, s'.sends) && SendsOk(s'.sends, s.clock, s.h.recv, s.h.enders, Barred(s.loop, s.h.orphans))
      && s'.sends != map[]
  {
    assert id in DoClaim(s, id, run).sends;
  }

  lemma TickOwned(s: State, d: nat)
    requires Owned(s)
    ensures Owned(s.(clock := s.clock + d))
  {
    forall id | id in s.sends ensures SendOk(s.sends[id], s.clock + d, s.h.recv, s.h.enders, Barred(s.loop, s.h.orphans)) {
      assert SendOk(s.sends[id], s.clock, s.h.recv, s.h.enders, Barred(s.loop, s.h.orphans));
    }
  }

  /** Interrupts change flags, and can only lift the orphan mark. */
  lemma FlagsOwned(s: State, t: Turn, onWire: nat, killed: bool, arms: nat)
    requires Owned(s)
    requires t.state == s.t.state && t.unowned == s.t.unowned && t.runID == s.t.runID && t.reconnected == s.t.reconnected
    requires t.sendAbandoned == s.t.sendAbandoned
    requires t.abort.orphaned ==> s.t.abort.orphaned && t.abort.orphanRun == s.t.abort.orphanRun
    ensures Owned(s.(t := t, onWire := onWire, killed := killed, h := s.h.(arms := arms)))
  {
  }

  lemma InterruptOwned(s: State)
    requires Owned(s)
    ensures Owned(DoInterrupt(s))
  {
    var s' := DoInterrupt(s);
    FlagsOwned(s, s'.t, s'.onWire, s.killed, s'.h.arms);
  }

  lemma InterruptFailsOwned(s: State, clear: bool, clearRun: bool)
    requires Owned(s) && s.onWire > 0
    ensures Owned(DoInterruptFails(s, clear, clearRun))
  {
    var s' := DoInterruptFails(s, clear, clearRun);
    FlagsOwned(s, s'.t, s'.onWire, s.killed, s.h.arms);
  }

  lemma StepOwned(s: State, step: Step)
    requires Owned(s) && (s.t.unowned ==> s.t.state == Running) && Enabled(s, step) && SendOnly(step)
    ensures Owned(Apply(s, step))
  {
    if LoopGuard(s, step) {
      LoopOwned(s, step);
    } else {
      OutsideOwned(s, step);
    }
  }

  lemma OutsideOwned(s: State, step: Step)
    requires Owned(s) && (s.t.unowned ==> s.t.state == Running) && OutsideGuard(s, step) && SendOnly(step)
    ensures Owned(OutsideStep(s, step))
  {
    match step
    case Tick(d) => TickOwned(s, d);
    case Claim(id, run) => ClaimOwned(s, id, run);
    case Sending(id, move) => SendingOwned(s, id, move);
    case Interrupt => InterruptOwned(s);
    case InterruptFails(clear, clearRun) => InterruptFailsOwned(s, clear, clearRun);
    case InterruptSent => FlagsOwned(s, s.t, s.onWire - 1, s.killed, s.h.arms);
    case KillProcess => FlagsOwned(s, s.t, s.onWire, true, s.h.arms);
  }
}
