/** Whose name a result's log entry carries, over Send-only runs: a second
    invariant of TurnProtocol, beside SendOwnership's. */
module TurnRuns {
  import opened Wrappers
  import opened TurnState
  import opened TurnProtocol
  import opened TurnSafety
  import opened SendOwnership

  predicate Unlogged(loop: Loop) { loop.Dispatching? || loop.Taken? || loop.Logging? }

  /** A result in hand is logged once, before anything else happens to it. */
  ghost predicate LoopLogged(loop: Loop, logged: map<nat, string>) {
    && (Unlogged(loop) ==> loop.ev.frame !in logged)
    && (Holds(loop) && !Unlogged(loop) && loop.ev.kind.ResultFrame? ==> loop.ev.frame in logged)
  }

  ghost predicate QueueLogged(es: seq<Event>, logged: map<nat, string>) {
    forall i :: 0 <= i < |es| && es[i].kind.ResultFrame? ==> es[i].frame in logged
  }

  ghost predicate NamedFor(a: Option<Event>, run: string, logged: map<nat, string>) {
    a.Some? ==> a.value.frame in logged && logged[a.value.frame] == run
  }

  ghost predicate SendLogged(send: Send, logged: map<nat, string>) {
    && QueueLogged(Kept(send.pc), logged)
    && NamedFor(Held(send.pc), send.run, logged)
    && NamedFor(Answer(send.pc), send.run, logged)
  }

  ghost predicate SendsLogged(sends: map<nat, Send>, logged: map<nat, string>) {
    forall id :: id in sends ==> SendLogged(sends[id], logged)
  }

  ghost predicate Leaving(pc: Pc) { pc.Deferring? || pc.Releasing? }

  /** Every result the live Send might still take names it. */
  ghost predicate FreshNamed(stale: Option<nat>, run: string, h: History) {
    stale.Some? ==>
      forall f :: f in h.logged && f in h.recv && f !in h.orphans && h.recv[f] > stale.value ==> h.logged[f] == run
  }

  ghost predicate LiveNamed(t: Turn, sends: map<nat, Send>, h: History) {
    h.live.Some? && h.live.value in sends ==>
      && (t.sendAbandoned ==> Leaving(sends[h.live.value].pc))
      && (!t.sendAbandoned ==> FreshNamed(sends[h.live.value].stale, sends[h.live.value].run, h))
  }

  /** Only the read loop's own end kills the turn. */
  ghost predicate DeadAfterLoop(t: Turn, loop: Loop) {
    t.state == Dead ==> loop.Unwinding? || loop.DoneClosed? || loop.EventsClosed? || loop.Exited?
  }

  ghost predicate TimesOk(h: History, clock: nat) {
    && (forall f :: f in h.logged ==> f in h.recv)
    && (forall f :: f in h.recv ==> h.recv[f] <= clock)
  }

  ghost predicate OrphansNamed(h: History) {
    forall f :: f in h.logged && f in h.orphans ==> h.logged[f] == h.orphans[f]
  }

  ghost predicate Named(s: State) {
    && LoopLogged(s.loop, s.h.logged)
    && QueueLogged(s.eventCh, s.h.logged)
    && SendsLogged(s.sends, s.h.logged)
    && LiveNamed(s.t, s.sends, s.h)
    && DeadAfterLoop(s.t, s.loop)
    && TimesOk(s.h, s.clock)
    && OrphansNamed(s.h)
  }

  lemma NamedInit()
    ensures Named(INIT)
  {
  }

  // ---------- the read loop ----------

  lemma FrameNamed(s: State, kind: Kind)
    requires Owned(s) && Named(s) && s.loop.Idle?
    ensures Named(DoFrame(s, kind))
  {
    assert |s.h.recv| !in s.h.recv;
  }

  lemma TakeMarkerNamed(s: State)
    requires Named(s) && s.loop.Dispatching?
    ensures Named(DoTakeMarker(s))
  {
  }

  lemma QueueGrows(es: seq<Event>, logged: map<nat, string>, f: nat, run: string)
    requires QueueLogged(es, logged) && f !in logged
    ensures QueueLogged(es, logged[f := run])
  {
  }

  lemma SendsGrowNamed(sends: map<nat, Send>, logged: map<nat, string>, f: nat, run: string)
    requires SendsLogged(sends, logged) && f !in logged
    ensures SendsLogged(sends, logged[f := run])
  {
    forall id | id in sends ensures SendLogged(sends[id], logged[f := run]) {
      assert SendLogged(sends[id], logged);
      QueueGrows(Kept(sends[id].pc), logged, f, run);
    }
  }

  /** While a Send is live and has not given up, the turn is its own, so a
      result that is no orphan is logged under its run. */
  lemma LiveRun(s: State)
    requires OwnerOk(s.t, s.h.live, s.sends) && DeadAfterLoop(s.t, s.loop) && s.loop.Logging?
    ensures s.h.live.Some? && !s.t.sendAbandoned ==> ResultRunID(s.t) == s.sends[s.h.live.value].run
  {
  }

  lemma LogNamesLive(s: State)
    requires Owned(s) && Named(s) && s.loop.Logging?
    ensures LiveNamed(s.t, s.sends, DoLogResult(s).h)
  {
    LiveRun(s);
  }

  lemma LogResultNamed(s: State)
    requires Owned(s) && Named(s) && s.loop.Logging?
    ensures Named(DoLogResult(s))
  {
    var f := s.loop.ev.frame;
    var run := DoLogResult(s).h.logged[f];
    QueueGrows(s.eventCh, s.h.logged, f, run);
    SendsGrowNamed(s.sends, s.h.logged, f, run);
    LogNamesLive(s);
  }

  lemma DeliverNamed(s: State, next: Loop)
    requires Named(s) && (s.loop.Handing? || s.loop.Passing?)
    requires next.Idle? || (next.Settling? && next.ev == s.loop.ev)
    ensures Named(Deliver(s, s.loop.ev, next))
  {
  }

  lemma AttachNamed(s: State, step: Step)
    requires Named(s) && LoopGuard(s, step) && (AttachStep(step) || step.InitHook?)
    ensures Named(LoopStep(s, step))
  {
  }

  /** The result in hand moves on, and nothing else does. */
  lemma LoopMoved(s: State, s': State)
    requires Named(s) && LoopLogged(s'.loop, s.h.logged) && DeadAfterLoop(s'.t, s'.loop)
    requires s'.eventCh == s.eventCh && s'.sends == s.sends && s'.h == s.h && s'.clock == s.clock
    requires s'.t.sendAbandoned == s.t.sendAbandoned
    ensures Named(s')
  {
  }

  lemma ReadingNamed(s: State, step: Step)
    requires Named(s) && LoopGuard(s, step) && ReadingStep(step)
    ensures Named(LoopStep(s, step))
  {
    LoopMoved(s, LoopStep(s, step));
  }

  lemma OwnResultNamed(s: State)
    requires Named(s) && s.loop.Owning?
    ensures Named(DoOwnResult(s))
  {
    LoopMoved(s, DoOwnResult(s));
  }

  lemma EndingNamed(s: State, step: Step)
    requires Named(s) && LoopGuard(s, step) && EndingStep(step)
    ensures Named(LoopStep(s, step))
  {
    if step.EndReconnected? {
      UnownedEndNamed(s, s.loop.ev, Latching(s.loop.ev));
    } else if step.SettleTurn? {
      SettleNamed(s);
    } else {
      BookUnownedNamed(s);
    }
  }

  lemma UnownedEndNamed(s: State, ev: Event, loop: Loop)
    requires Named(s) && LoopLogged(loop, s.h.logged) && DeadAfterLoop(s.t, loop)
    ensures Named(EndUnownedTurn(s, ev).(loop := loop))
  {
  }

  lemma SettleNamed(s: State)
    requires Named(s) && s.loop.SettlingTurn?
    ensures Named(DoSettleTurn(s))
  {
    if s.t.unowned && s.loop.pending == 0 { UnownedEndNamed(s, s.loop.ev, BookingResult(s.loop.ev, s.loop.run)); }
  }

  lemma BookUnownedNamed(s: State)
    requires Named(s) && s.loop.BookingResult?
    ensures Named(DoBookUnowned(s))
  {
  }

  lemma ClosingNamed(s: State, step: Step)
    requires Named(s) && LoopGuard(s, step) && (ClosingStep(step) || step.LoopEnds?)
    ensures Named(LoopStep(s, step))
  {
    LoopMoved(s, LoopStep(s, step));
  }

  lemma LoopNamed(s: State, step: Step)
    requires Owned(s) && Named(s) && LoopGuard(s, step) && SendOnly(step)
    ensures Named(LoopStep(s, step))
  {
    match step
    case Frame(kind) => FrameNamed(s, kind);
    case TakeMarker => TakeMarkerNamed(s);
    case LogResult => LogResultNamed(s);
    case OwnResult => OwnResultNamed(s);
    case HandOver => DeliverNamed(s, Idle);
    case PassOn => DeliverNamed(s, Settling(s.loop.ev, s.loop.noLive, s.loop.run));
    case _ => RestNamed(s, step);
  }

  lemma RestNamed(s: State, step: Step)
    requires Named(s) && LoopGuard(s, step) && SendOnly(step)
    requires !step.Frame? && !step.TakeMarker? && !step.LogResult? && !step.OwnResult? && !step.HandOver? && !step.PassOn?
    ensures Named(LoopStep(s, step))
  {
    if AttachStep(step) || step.InitHook? {
      AttachNamed(s, step);
    } else if ReadingStep(step) {
      ReadingNamed(s, step);
    } else if EndingStep(step) {
      EndingNamed(s, step);
    } else {
      ClosingNamed(s, step);
    }
  }

  // ---------- Send ----------

  /** What each move of a live Send does to what this invariant speaks of. */
  ghost predicate NamedMove(s: State, id: nat, s': State) {
    && id in s.sends && id in s'.sends && s'.sends == s.sends[id := s'.sends[id]]
    && s'.sends[id].run == s.sends[id].run
    && (s'.sends[id].stale == s.sends[id].stale || s'.sends[id].stale == Some(s.clock))
    && SendLogged(s'.sends[id], s.h.logged)
    && QueueLogged(s'.eventCh, s.h.logged)
    && (s'.t.sendAbandoned ==> Leaving(s'.sends[id].pc))
    && (s.t.sendAbandoned ==> s'.t.sendAbandoned)
  }

  lemma MoveNamed(s: State, id: nat, move: Move)
    requires Named(s) && s.h.live == Some(id) && CanMove(s, id, move) && !move.EndSend?
    requires NamedMove(s, id, SendStep(s, id, move))
    ensures Named(SendStep(s, id, move))
  {
    var s' := SendStep(s, id, move);
    SendFrame(s, id, move);
    assert s'.h == s.h.(gaveUp := s'.h.gaveUp);
    LiveMoved(s, id, s');
  }

  lemma LiveMoved(s: State, id: nat, s': State)
    requires Named(s) && s.h.live == Some(id) && NamedMove(s, id, s')
    requires s'.loop == s.loop && s'.clock == s.clock && s'.t.state == s.t.state && s'.h == s.h.(gaveUp := s'.h.gaveUp)
    ensures Named(s')
  {
    NamesMoved(s, id, s');
  }

  lemma NamesMoved(s: State, id: nat, s': State)
    requires SendsLogged(s.sends, s.h.logged) && LiveNamed(s.t, s.sends, s.h) && TimesOk(s.h, s.clock)
    requires s.h.live == Some(id) && NamedMove(s, id, s') && s'.h == s.h.(gaveUp := s'.h.gaveUp)
    ensures LiveNamed(s'.t, s'.sends, s'.h) && SendsLogged(s'.sends, s'.h.logged)
  {
  }

  /** What a move may rely on. */
  ghost predicate MayMove(s: State, id: nat, move: Move) {
    && CanMove(s, id, move)
    && SendLogged(s.sends[id], s.h.logged) && QueueLogged(s.eventCh, s.h.logged)
    && (s.t.sendAbandoned ==> Leaving(s.sends[id].pc))
  }

  lemma DrainNamed(s: State, id: nat, move: Move)
    requires MayMove(s, id, move) && (StampMove(move) || SettleMove(move))
    ensures NamedMove(s, id, SendStep(s, id, move))
  {
  }

  lemma SweepNamed(s: State, id: nat, move: Move)
    requires MayMove(s, id, move) && (SweepMove(move) || WriteMove(move))
    ensures NamedMove(s, id, SendStep(s, id, move))
  {
  }

  lemma HeldNamed(s: State, id: nat, move: Move)
    requires MayMove(s, id, move) && HeldMove(move)
    ensures NamedMove(s, id, SendStep(s, id, move))
  {
  }

  lemma KillNamed(s: State, id: nat, move: Move)
    requires MayMove(s, id, move) && KillMove(move)
    ensures NamedMove(s, id, SendStep(s, id, move))
  {
  }

  lemma LeaveNamed(s: State, id: nat, move: Move)
    requires MayMove(s, id, move) && (move.Abandon? || move.RunDeferred?)
    ensures NamedMove(s, id, SendStep(s, id, move))
  {
  }

  lemma RefillNamed(s: State, id: nat)
    requires MayMove(s, id, Refill)
    ensures NamedMove(s, id, SendStep(s, id, Refill))
  {
  }

  lemma SettleTakeNamed(s: State, id: nat)
    requires MayMove(s, id, SettleTake)
    ensures NamedMove(s, id, DoSettleTake(s, id))
  {
    if !s.eventCh[0].kind.ResultFrame? { SettleHoldNamed(s, id); }
  }

  lemma SettleHoldNamed(s: State, id: nat)
    requires MayMove(s, id, SettleTake) && !s.eventCh[0].kind.ResultFrame?
    ensures NamedMove(s, id, DoSettleTake(s, id))
  {
    assert s.sends[id := s.sends[id]] == s.sends;
  }

  lemma SweepTakeNamed(s: State, id: nat)
    requires MayMove(s, id, SweepTake)
    ensures NamedMove(s, id, DoSweepTake(s, id))
  {
    if s.eventCh[0].recvAt <= s.sends[id].pc.cutoff { SweepDropNamed(s, id); }
  }

  lemma SweepDropNamed(s: State, id: nat)
    requires MayMove(s, id, SweepTake) && s.eventCh[0].recvAt <= s.sends[id].pc.cutoff
    ensures NamedMove(s, id, DoSweepTake(s, id))
  {
    assert s.sends[id := s.sends[id]] == s.sends;
  }

  /** The result a live Send takes was logged under its run. */
  lemma TakenIsNamed(s: State, id: nat, hold: bool)
    requires Owned(s) && Named(s) && CanMove(s, id, Take(hold))
    ensures var ev := s.eventCh[0];
      ev.kind.ResultFrame? && ev.recvAt > s.sends[id].stale.value ==> NamedFor(Some(ev), s.sends[id].run, s.h.logged)
  {
    LiveSend(s, id, Take(hold));
    assert EventOk(s.eventCh[0], s.h.recv, Barred(s.loop, s.h.orphans));
  }

  lemma TakeNamed(s: State, id: nat, hold: bool)
    requires MayMove(s, id, Take(hold))
    requires var ev := s.eventCh[0];
      ev.kind.ResultFrame? && ev.recvAt > s.sends[id].stale.value ==> NamedFor(Some(ev), s.sends[id].run, s.h.logged)
    ensures NamedMove(s, id, DoTake(s, id, hold))
  {
    assert s.sends[id := s.sends[id]] == s.sends;
  }

  lemma EndSendNamed(s: State, id: nat)
    requires Named(s) && CanMove(s, id, EndSend)
    ensures Named(SendStep(s, id, EndSend))
  {
    EndSendKeepsNames(s, id);
    EndSendKeepsDead(s, id);
  }

  lemma EndSendKeepsNames(s: State, id: nat)
    requires SendsLogged(s.sends, s.h.logged) && CanMove(s, id, EndSend)
    ensures SendsLogged(SendStep(s, id, EndSend).sends, s.h.logged)
  {
    assert SendLogged(s.sends[id], s.h.logged);
  }

  lemma EndSendKeepsDead(s: State, id: nat)
    requires DeadAfterLoop(s.t, s.loop) && CanMove(s, id, EndSend)
    ensures var s' := SendStep(s, id, EndSend); DeadAfterLoop(s'.t, s'.loop) && s'.eventCh == s.eventCh && s'.h == s.h.(live := None)
  {
  }

  lemma OwnMoveNamed(s: State, id: nat, move: Move)
    requires MayMove(s, id, move) && OwnPcMove(move)
    ensures NamedMove(s, id, SendStep(s, id, move))
  {
    if StampMove(move) || SettleMove(move) {
      DrainNamed(s, id, move);
    } else if SweepMove(move) || WriteMove(move) {
      SweepNamed(s, id, move);
    } else if HeldMove(move) {
      HeldNamed(s, id, move);
    } else if KillMove(move) {
      KillNamed(s, id, move);
    } else {
      LeaveNamed(s, id, move);
    }
  }

  lemma MayMoveLive(s: State, id: nat, move: Move)
    requires Owned(s) && Named(s) && CanMove(s, id, move)
    ensures MayMove(s, id, move) && s.h.live == Some(id)
  {
    LiveSend(s, id, move);
  }

  lemma SendingNamed(s: State, id: nat, move: Move)
    requires Owned(s) && Named(s) && CanMove(s, id, move)
    ensures Named(SendStep(s, id, move))
  {
    MayMoveLive(s, id, move);
    if move.EndSend? {
      EndSendNamed(s, id);
    } else {
      if move.Take? { TakenIsNamed(s, id, move.hold); }
      LiveMoveNamed(s, id, move);
      MoveNamed(s, id, move);
    }
  }

  lemma LiveMoveNamed(s: State, id: nat, move: Move)
    requires MayMove(s, id, move) && !move.EndSend?
    requires move.Take? ==>
      var ev := s.eventCh[0];
      ev.kind.ResultFrame? && ev.recvAt > s.sends[id].stale.value ==> NamedFor(Some(ev), s.sends[id].run, s.h.logged)
    ensures NamedMove(s, id, SendStep(s, id, move))
  {
    match move
    case Take(hold) => TakeNamed(s, id, hold);
    case SettleTake => SettleTakeNamed(s, id);
    case SweepTake => SweepTakeNamed(s, id);
    case Refill => RefillNamed(s, id);
    case _ => OwnMoveNamed(s, id, move);
  }

  // ---------- everything else ----------

  lemma ClaimNamed(s: State, id: nat, run: string)
    requires Named(s) && id !in s.sends
    ensures Named(DoClaim(s, id, run))
  {
  }

  lemma OutsideNamed(s: State, step: Step)
    requires Named(s) && OutsideGuard(s, step) && SendOnly(step) && !step.Sending?
    ensures Named(OutsideStep(s, step))
  {
    match step
    case Claim(id, run) => ClaimNamed(s, id, run);
    case Tick(d) => StayNamed(s, s.t, s.clock + d, s.onWire, s.killed, s.h.arms);
    case Interrupt => InterruptNamed(s);
    case InterruptFails(clear, clearRun) => InterruptFailsNamed(s, clear, clearRun);
    case InterruptSent => StayNamed(s, s.t, s.clock, s.onWire - 1, s.killed, s.h.arms);
    case KillProcess => StayNamed(s, s.t, s.clock, s.onWire, true, s.h.arms);
  }

  lemma InterruptNamed(s: State)
    requires Named(s)
    ensures Named(DoInterrupt(s))
  {
    var s' := DoInterrupt(s);
    StayNamed(s, s'.t, s.clock, s'.onWire, s.killed, s'.h.arms);
  }

  lemma InterruptFailsNamed(s: State, clear: bool, clearRun: bool)
    requires Named(s) && s.onWire > 0
    ensures Named(DoInterruptFails(s, clear, clearRun))
  {
    var s' := DoInterruptFails(s, clear, clearRun);
    StayNamed(s, s'.t, s.clock, s'.onWire, s.killed, s.h.arms);
  }

  /** Clocks, interrupts and kills touch nothing the log speaks of. */
  lemma StayNamed(s: State, t: Turn, clock: nat, onWire: nat, killed: bool, arms: nat)
    requires Named(s) && t.state == s.t.state && t.sendAbandoned == s.t.sendAbandoned && clock >= s.clock
    ensures Named(s.(t := t, clock := clock, onWire := onWire, killed := killed, h := s.h.(arms := arms)))
  {
  }

  lemma StepNamed(s: State, step: Step)
    requires Owned(s) && Named(s) && Enabled(s, step) && SendOnly(step)
    ensures Named(Apply(s, step))
  {
    if LoopGuard(s, step) {
      LoopNamed(s, step);
    } else if step.Sending? {
      SendingNamed(s, step.id, step.move);
    } else {
      OutsideNamed(s, step);
    }
  }

  lemma {:induction false} RunNamed(s: State, steps: seq<Step>, s': State)
    requires General(s) && Owned(s) && Named(s) && Run(s, steps, s')
    requires forall i :: 0 <= i < |steps| ==> SendOnly(steps[i])
    ensures Named(s')
    decreases |steps|
  {
    if steps != [] {
      StepGeneral(s, steps[0]);
      StepOwned(s, steps[0]);
      StepNamed(s, steps[0]);
      RunNamed(Apply(s, steps[0]), steps[1..], s');
    }
  }

  lemma ReachableNamed(s: State)
    requires ReachableSendOnly(s)
    ensures Named(s)
  {
    var steps: seq<Step> :| Run(INIT, steps, s) && forall i :: 0 <= i < |steps| ==> SendOnly(steps[i]);
    GeneralInit();
    OwnedInit();
    NamedInit();
    RunNamed(INIT, steps, s);
  }
}
