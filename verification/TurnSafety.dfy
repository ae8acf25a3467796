/** The inductive invariant of every run of TurnProtocol.  As in SlotSafety,
    each conjunct names the components it speaks of. */
module TurnSafety {
  import opened Wrappers
  import opened TurnState
  import opened TurnProtocol

  // ---------- every run ----------

  ghost predicate AbortOk(a: Abort, arms: nat, marked: nat) {
    a.n >= 0 && marked + a.n <= arms
  }

  /** The result in hand was claimed by no slot, and no claim names a frame not
      yet seen. */
  ghost predicate ClaimsOk(loop: Loop, claimed: set<nat>, recv: map<nat, nat>) {
    && (forall f :: f in claimed ==> f in recv)
    && (forall f :: f in recv ==> f < |recv|)
    && (Unclaimed(loop) ==> loop.ev.frame in recv && loop.ev.frame !in claimed)
  }

  ghost predicate Unclaimed(loop: Loop) {
    loop.Dispatching? || loop.Taken? || loop.Logging? || loop.Owning? || loop.TurnEnding? || loop.Latching?
  }

  ghost predicate LatchOk(l: Latch, claimed: set<nat>, recv: map<nat, nat>) {
    && (l.out.Some? ==> l.armed)
    && (l.out.Some? && l.out.value.FromLoop? ==> l.out.value.frame in recv && l.out.value.frame !in claimed)
  }

  /** Everything in hand comes from a frame that is not claimed while a slot
      could still claim it. */
  ghost predicate General(s: State) {
    && (s.t.unowned ==> s.t.state == Running)
    && AbortOk(s.t.abort, s.h.arms, s.h.marked)
    && ClaimsOk(s.loop, s.h.claimed, s.h.recv)
    && LatchOk(s.latch, s.h.claimed, s.h.recv)
    && NotYetLatched(s.loop, s.latch)
    && (s.loop.Exited? && s.latch.armed ==> s.latch.out.Some?)
  }

  /** A frame slots may still claim is not the latched one. */
  ghost predicate NotYetLatched(loop: Loop, l: Latch) {
    (loop.Dispatching? || loop.Taken?) && l.out.Some? && l.out.value.FromLoop? ==> l.out.value.frame != loop.ev.frame
  }

  lemma GeneralInit()
    ensures General(INIT)
  {
  }

  lemma FrameGeneral(s: State, kind: Kind)
    requires General(s) && s.loop.Idle?
    ensures General(DoFrame(s, kind))
  {
    var frame := |s.h.recv|;
    assert frame !in s.h.recv;
    assert |s.h.recv[frame := s.clock]| == |s.h.recv| + 1;
  }

  lemma TakeMarkerGeneral(s: State)
    requires General(s) && s.loop.Dispatching?
    ensures General(DoTakeMarker(s))
  {
  }

  predicate AttachStep(step: Step) { step.AttachMidTurn? || step.AttachFinished? || step.StartLoop? }

  predicate TurnStep(step: Step) {
    || step.InitHook? || step.SlotsClaim? || step.SlotsPass? || step.LogResult? || step.OwnResult? || step.EndReconnected? || step.LatchResult?
  }

  predicate ClosingStep(step: Step) { step.CloseDone? || step.CloseEvents? || step.ExitLatch? }

  lemma AttachGeneral(s: State, step: Step)
    requires General(s) && LoopGuard(s, step) && AttachStep(step)
    ensures General(LoopStep(s, step))
  {
  }

  lemma TurnGeneral(s: State, step: Step)
    requires General(s) && LoopGuard(s, step) && TurnStep(step)
    ensures General(LoopStep(s, step))
  {
    if step.OwnResult? || step.EndReconnected? || step.LatchResult? { OwnGeneral(s, step); }
  }

  lemma OwnGeneral(s: State, step: Step)
    requires General(s) && LoopGuard(s, step) && (step.OwnResult? || step.EndReconnected? || step.LatchResult?)
    ensures General(LoopStep(s, step))
  {
    if step.EndReconnected? {
      EndReconnectedGeneral(s);
    } else if step.LatchResult? {
      LatchGeneral(s);
    } else {
      OwnResultGeneral(s);
    }
  }

  lemma OwnResultGeneral(s: State)
    requires General(s) && s.loop.Owning?
    ensures General(DoOwnResult(s))
  {
  }

  lemma EndReconnectedGeneral(s: State)
    requires General(s) && s.loop.TurnEnding?
    ensures General(LoopStep(s, EndReconnected))
  {
    UnownedEndGeneral(s, s.loop.ev, Latching(s.loop.ev));
  }

  lemma UnownedEndGeneral(s: State, ev: Event, loop: Loop)
    requires General(s) && ClaimsOk(loop, s.h.claimed, s.h.recv) && (loop.Latching? || loop.BookingResult?)
    ensures General(EndUnownedTurn(s, ev).(loop := loop))
  {
  }

  lemma LatchGeneral(s: State)
    requires General(s) && s.loop.Latching?
    ensures General(LoopStep(s, LatchResult))
  {
  }

  lemma TailGeneral(s: State, step: Step)
    requires General(s) && LoopGuard(s, step) && !AttachStep(step) && !TurnStep(step) && !step.Frame? && !step.TakeMarker?
    ensures General(LoopStep(s, step))
  {
    if step.HandOver? || step.PassOn? {
      DeliveryGeneral(s, step);
    } else if step.LoopEnds? || ClosingStep(step) {
      ClosingGeneral(s, step);
    } else if step.SettleTurn? {
      SettleGeneral(s);
    }
  }

  lemma SettleGeneral(s: State)
    requires General(s) && s.loop.SettlingTurn?
    ensures General(DoSettleTurn(s))
  {
    if s.t.unowned && s.loop.pending == 0 { UnownedEndGeneral(s, s.loop.ev, BookingResult(s.loop.ev, s.loop.run)); }
  }

  lemma DeliveryGeneral(s: State, step: Step)
    requires General(s) && LoopGuard(s, step) && (step.HandOver? || step.PassOn?)
    ensures General(LoopStep(s, step))
  {
  }

  lemma ClosingGeneral(s: State, step: Step)
    requires General(s) && LoopGuard(s, step) && (step.LoopEnds? || ClosingStep(step))
    ensures General(LoopStep(s, step))
  {
    if step.ExitLatch? { ExitGeneral(s); }
  }

  lemma ExitGeneral(s: State)
    requires General(s) && LoopGuard(s, ExitLatch)
    ensures General(LoopStep(s, ExitLatch))
  {
  }

  lemma LoopGeneral(s: State, step: Step)
    requires General(s) && LoopGuard(s, step)
    ensures General(LoopStep(s, step))
  {
    if step.Frame? {
      FrameGeneral(s, step.kind);
    } else if step.TakeMarker? {
      TakeMarkerGeneral(s);
    } else if AttachStep(step) {
      AttachGeneral(s, step);
    } else if TurnStep(step) {
      TurnGeneral(s, step);
    } else {
      TailGeneral(s, step);
    }
  }

  /** What a Send may do to the turn: it clears flags, drops an orphan mark or
      the whole marker, gives up its result, or ends the turn. */
  ghost predicate SendTouches(t: Turn, t': Turn, move: Move) {
    && (t'.abort == t.abort || t'.abort == NO_ABORT || t'.abort == Release(t.abort))
    && t'.runID == t.runID && t'.reconnected == t.reconnected
    && (if move.EndSend? then t'.state == Transition(t, SendEnd).state && t'.unowned == Transition(t, SendEnd).unowned
        else t'.state == t.state && t'.unowned == t.unowned)
  }

  ghost predicate SendKeeps(s: State, s': State, move: Move) {
    && s'.loop == s.loop && s'.latch == s.latch && s'.clock == s.clock && s'.slots == s.slots
    && s'.h == s.h.(gaveUp := s'.h.gaveUp, live := if move.EndSend? then None else s.h.live)
    && SendTouches(s.t, s'.t, move)
  }

  lemma TakeFrame(s: State, id: nat, move: Move)
    requires CanMove(s, id, move) && move.Take?
    ensures SendKeeps(s, SendStep(s, id, move), move)
  {
    if s.eventCh[0].recvAt <= s.sends[id].stale.value { StaleTakeFrame(s, id, move); }
  }

  lemma StaleTakeFrame(s: State, id: nat, move: Move)
    requires CanMove(s, id, move) && move.Take? && s.eventCh[0].recvAt <= s.sends[id].stale.value
    ensures SendKeeps(s, DoTake(s, id, move.hold), move)
  {
  }

  lemma SettleTakeFrame(s: State, id: nat)
    requires CanMove(s, id, SettleTake)
    ensures SendKeeps(s, DoSettleTake(s, id), SettleTake)
  {
    if s.eventCh[0].kind.ResultFrame? { SettleResultFrame(s, id); }
  }

  lemma SettleResultFrame(s: State, id: nat)
    requires CanMove(s, id, SettleTake) && s.eventCh[0].kind.ResultFrame?
    ensures SendKeeps(s, DoSettleTake(s, id), SettleTake)
  {
  }

  lemma SweepTakeFrame(s: State, id: nat)
    requires CanMove(s, id, SweepTake)
    ensures SendKeeps(s, DoSweepTake(s, id), SweepTake)
  {
  }

  lemma SendFrame(s: State, id: nat, move: Move)
    requires CanMove(s, id, move)
    ensures SendKeeps(s, SendStep(s, id, move), move)
  {
    if move.Take? {
      TakeFrame(s, id, move);
    } else if move.SettleTake? {
      SettleTakeFrame(s, id);
    } else if move.SweepTake? {
      SweepTakeFrame(s, id);
    } else if move.Abandon? || move.WatchdogKill? || move.ClearFlags? || move.ChannelClosed? {
      LeaveFrame(s, id, move);
    } else if move.RunDeferred? || move.EndSend? {
      EndFrame(s, id, move);
    }
  }

  lemma LeaveFrame(s: State, id: nat, move: Move)
    requires CanMove(s, id, move)
    requires move.Abandon? || move.WatchdogKill? || move.ClearFlags? || move.ChannelClosed?
    ensures SendKeeps(s, SendStep(s, id, move), move)
  {
  }

  lemma EndFrame(s: State, id: nat, move: Move)
    requires CanMove(s, id, move) && (move.RunDeferred? || move.EndSend?)
    ensures SendKeeps(s, SendStep(s, id, move), move)
  {
  }

  lemma SendGeneral(s: State, id: nat, move: Move)
    requires General(s) && CanMove(s, id, move)
    ensures General(SendStep(s, id, move))
  {
    SendFrame(s, id, move);
  }

  lemma StepGeneral(s: State, step: Step)
    requires General(s) && Enabled(s, step)
    ensures General(Apply(s, step))
  {
    if LoopGuard(s, step) {
      LoopGeneral(s, step);
    } else if step.Sending? {
      SendGeneral(s, step.id, step.move);
    } else {
      OutsideGeneral(s, step);
    }
  }

  /** Clocks, claims, interrupts, kills and passthrough sends. */
  lemma OutsideGeneral(s: State, step: Step)
    requires General(s) && OutsideGuard(s, step) && !step.Sending?
    ensures General(OutsideStep(s, step))
  {
    if step.Claim? {
      ClaimGeneral(s, step.id, step.run);
    } else if step.InterruptFails? {
      InterruptFailsGeneral(s, step.clear, step.clearRun);
    }
  }

  lemma ClaimGeneral(s: State, id: nat, run: string)
    requires General(s)
    ensures General(DoClaim(s, id, run))
  {
  }

  lemma InterruptFailsGeneral(s: State, clear: bool, clearRun: bool)
    requires General(s) && s.onWire > 0
    ensures General(DoInterruptFails(s, clear, clearRun))
  {
  }
}
