/** What every run of TurnProtocol keeps, and what every Send-only run keeps. */
module TurnTheorems {
  import opened Wrappers
  import opened TurnState
  import opened TurnProtocol
  import opened TurnSafety
  import opened SendOwnership
  import opened TurnRuns

  // ---------- every run ----------

  lemma {:induction false} RunGeneral(s: State, steps: seq<Step>, s': State)
    requires General(s) && Run(s, steps, s')
    ensures General(s')
    decreases |steps|
  {
    if steps != [] {
      StepGeneral(s, steps[0]);
      RunGeneral(Apply(s, steps[0]), steps[1..], s');
    }
  }

  lemma ReachableGeneral(s: State)
    requires Reachable(s)
    ensures General(s)
  {
    var steps: seq<Step> :| Run(INIT, steps, s);
    GeneralInit();
    RunGeneral(INIT, steps, s);
  }

  /** A turn no Send owns is a running one. */
  lemma UnownedIsRunning(s: State)
    requires Reachable(s) && s.t.unowned
    ensures s.t.state == Running
  {
    ReachableGeneral(s);
  }

  lemma SendKeepsDead(s: State, id: nat, move: Move)
    requires s.t.state == Dead && CanMove(s, id, move)
    ensures SendStep(s, id, move).t.state == Dead
  {
    SendFrame(s, id, move);
  }

  lemma LoopKeepsDead(s: State, step: Step)
    requires s.t.state == Dead && LoopGuard(s, step)
    ensures LoopStep(s, step).t.state == Dead
  {
    if step.HandOver? || step.PassOn? || step.SettleTurn? || step.BookUnowned? || step.LoopEnds? {
      TailKeepsDead(s, step);
    } else if AttachStep(step) || TurnStep(step) {
      assert LoopStep(s, step).t.state == Dead;
    }
  }

  lemma TailKeepsDead(s: State, step: Step)
    requires s.t.state == Dead && LoopGuard(s, step)
    requires step.HandOver? || step.PassOn? || step.SettleTurn? || step.BookUnowned? || step.LoopEnds?
    ensures LoopStep(s, step).t.state == Dead
  {
  }

  lemma StepKeepsDead(s: State, step: Step)
    requires s.t.state == Dead && Enabled(s, step)
    ensures Apply(s, step).t.state == Dead
  {
    if LoopGuard(s, step) {
      LoopKeepsDead(s, step);
    } else if step.Sending? {
      SendKeepsDead(s, step.id, step.move);
    }
  }

  /** Nothing brings a dead process back. */
  lemma {:induction false} DeadIsFinal(s: State, steps: seq<Step>, s': State)
    requires s.t.state == Dead && Run(s, steps, s')
    ensures s'.t.state == Dead
    decreases |steps|
  {
    if steps != [] {
      StepKeepsDead(s, steps[0]);
      DeadIsFinal(Apply(s, steps[0]), steps[1..], s');
    }
  }

  /** However interrupts, failed wires, kills and results interleave, no more
      results are marked aborted than abort requests were made. */
  lemma AbortsNeverOutnumberRequests(s: State)
    requires Reachable(s)
    ensures 0 <= s.t.abort.n && s.h.marked + s.t.abort.n <= s.h.arms
  {
    ReachableGeneral(s);
  }

  // ---------- the adopted latch ----------

  lemma StepKeepsLatch(s: State, step: Step)
    requires General(s) && Enabled(s, step) && s.latch.out.Some?
    ensures Apply(s, step).latch == s.latch
  {
    if step.Sending? {
      SendFrame(s, step.id, step.move);
    } else if LoopGuard(s, step) {
      LoopKeepsLatch(s, step);
    }
  }

  lemma LoopKeepsLatch(s: State, step: Step)
    requires LoopGuard(s, step) && s.latch.armed && s.latch.out.Some?
    ensures LoopStep(s, step).latch == s.latch
  {
    if step.HandOver? || step.PassOn? || step.SettleTurn? || step.BookUnowned? { TailKeepsLatch(s, step); }
  }

  lemma TailKeepsLatch(s: State, step: Step)
    requires LoopGuard(s, step) && (step.HandOver? || step.PassOn? || step.SettleTurn? || step.BookUnowned?)
    ensures LoopStep(s, step).latch == s.latch
  {
  }

  lemma {:induction false} RunKeepsLatch(s: State, steps: seq<Step>, s': State)
    requires General(s) && Run(s, steps, s') && s.latch.out.Some?
    ensures s'.latch == s.latch
    decreases |steps|
  {
    if steps != [] {
      StepGeneral(s, steps[0]);
      StepKeepsLatch(s, steps[0]);
      RunKeepsLatch(Apply(s, steps[0]), steps[1..], s');
    }
  }

  /** The latch settles at most once: what it holds at some moment it holds at
      every later one.  It is settled once the read loop has gone, and a result
      the read loop put there is claimed by no passthrough slot, then or later. */
  lemma LatchSettlesOnce(s: State, steps: seq<Step>, s': State)
    requires Reachable(s) && Run(s, steps, s')
    ensures s.latch.out.Some? ==> s'.latch == s.latch
    ensures s'.loop.Exited? && s'.latch.armed ==> s'.latch.out.Some?
    ensures s.latch.out.Some? && s.latch.out.value.FromLoop? ==> s.latch.out.value.frame !in s'.h.claimed
  {
    ReachableGeneral(s);
    RunGeneral(s, steps, s');
    if s.latch.out.Some? { RunKeepsLatch(s, steps, s'); }
  }

  // ---------- Send-only runs ----------

  lemma {:induction false} RunOwned(s: State, steps: seq<Step>, s': State)
    requires General(s) && Owned(s) && Run(s, steps, s')
    requires forall i :: 0 <= i < |steps| ==> SendOnly(steps[i])
    ensures General(s') && Owned(s')
    decreases |steps|
  {
    if steps != [] {
      StepGeneral(s, steps[0]);
      StepOwned(s, steps[0]);
      RunOwned(Apply(s, steps[0]), steps[1..], s');
    }
  }

  lemma ReachableOwned(s: State)
    requires ReachableSendOnly(s)
    ensures General(s) && Owned(s)
  {
    var steps: seq<Step> :| Run(INIT, steps, s) && forall i :: 0 <= i < |steps| ==> SendOnly(steps[i]);
    GeneralInit();
    OwnedInit();
    RunOwned(INIT, steps, s);
  }

  ghost predicate Live(s: State, id: nat) { id in s.sends && !s.sends[id].pc.Returned? }

  /** Two Sends never overlap, and the turn is the live one's: Running (unless
      the process died), not unowned, under its run id. */
  lemma SendsNeverOverlap(s: State, a: nat, b: nat)
    requires ReachableSendOnly(s) && Live(s, a)
    ensures Live(s, b) ==> a == b
    ensures (s.t.state == Running || s.t.state == Dead) && !s.t.unowned && !s.t.reconnected
    ensures s.t.runID == s.sends[a].run
  {
    ReachableOwned(s);
  }

  /** A claim succeeds only while no Send is live, no turn the CLI started and
      no turn a reconnect found is running; and exactly from Spawning or Ready. */
  lemma ClaimFindsNobody(s: State, id: nat, run: string)
    requires ReachableSendOnly(s) && Enabled(s, Claim(id, run))
    ensures id in Apply(s, Claim(id, run)).sends <==> s.t.state == Spawning || s.t.state == Ready
    ensures id in Apply(s, Claim(id, run)).sends ==>
      && (forall other :: !Live(s, other))
      && !s.t.unowned && !s.t.reconnected && !s.loop.TurnEnding?
  {
    ReachableOwned(s);
    if Moves(s.t, SendBegin) { ClaimAlone(s); }
  }

  lemma LoopEndsUnownedTurns(s: State, step: Step)
    requires LoopGuard(s, step) && SendOnly(step) && s.t.state == Running && LoopStep(s, step).t.state == Ready
    ensures step.EndReconnected? || (step.SettleTurn? && s.t.unowned)
  {
    if AttachStep(step) || TurnStep(step) || step.Frame? { assert LoopStep(s, step).t.state == Ready; }
  }

  lemma LoopEndsNoLiveTurn(s: State, step: Step)
    requires OwnerOk(s.t, s.h.live, s.sends) && ReconnectOk(s.t, s.loop, s.sends)
    requires LoopGuard(s, step) && SendOnly(step) && s.t.state == Running && LoopStep(s, step).t.state == Ready
    ensures s.h.live.None?
  {
    LoopEndsUnownedTurns(s, step);
  }

  /** Running becomes Ready only in two ways: the live Send's own evSendEnd, or
      a read-loop step while no Send is live.  So evTurnEnded ends nobody's Send. */
  lemma OnlyItsSendEndsATurn(s: State, step: Step)
    requires ReachableSendOnly(s) && Enabled(s, step) && SendOnly(step)
    requires s.t.state == Running && Apply(s, step).t.state == Ready
    ensures (step.Sending? && step.move.EndSend? && Live(s, step.id)) || forall id :: !Live(s, id)
  {
    ReachableOwned(s);
    if step.Sending? {
      SendFrame(s, step.id, step.move);
    } else if LoopGuard(s, step) {
      LoopEndsNoLiveTurn(s, step);
    }
  }

  /** No stale answers: what a Send returns is a result received after the Send
      claimed its turn.  It ended no turn but a Send's, and it was not an
      abandoned predecessor's. */
  lemma NoStaleAnswers(s: State, id: nat)
    requires ReachableSendOnly(s) && id in s.sends
    requires s.sends[id].pc.Returned? && s.sends[id].pc.answer.Some?
    ensures var send, e := s.sends[id], s.sends[id].pc.answer.value;
      && e.kind.ResultFrame?
      && e.frame in s.h.recv && s.h.recv[e.frame] == e.recvAt
      && send.stale.Some? && send.claimedAt <= send.stale.value < e.recvAt
      && e.frame !in s.h.enders && e.frame !in s.h.orphans
  {
    ReachableOwned(s);
    assert SendOk(s.sends[id], s.clock, s.h.recv, s.h.enders, Barred(s.loop, s.h.orphans));
  }

  /** What resultRunID says: the live Send's run; once that Send gave up, its
      run until a result of it is booked and nothing after; nothing for a turn
      the CLI started, nor while nobody sends. */
  lemma ResultRunNamesItsSend(s: State)
    requires ReachableSendOnly(s)
    ensures forall id :: Live(s, id) && s.t.state == Running && !s.t.sendAbandoned ==> ResultRunID(s.t) == s.sends[id].run
    ensures s.t.unowned ==> ResultRunID(s.t) == ""
    ensures s.t.sendAbandoned && !s.t.unowned ==> ResultRunID(s.t) == if s.t.abandonedBooked then "" else s.h.gaveUp
    ensures s.t.state != Running && !s.t.sendAbandoned ==> ResultRunID(s.t) == ""
  {
    ReachableOwned(s);
  }

  /** Log entries agree with outcomes: a result some Send returns was logged
      under that Send's run, and a logged orphan under the run it is booked for. */
  lemma LogNamesTheRun(s: State)
    requires ReachableSendOnly(s)
    ensures forall id :: id in s.sends && s.sends[id].pc.Returned? && s.sends[id].pc.answer.Some? ==>
      var f := s.sends[id].pc.answer.value.frame; f in s.h.logged && s.h.logged[f] == s.sends[id].run
    ensures forall f :: f in s.h.orphans && f in s.h.logged ==>
      && s.h.logged[f] == s.h.orphans[f]
      && forall b :: b in s.booked && b.frame == f ==> b.run == s.h.logged[f]
  {
    ReachableNamed(s);
    forall id | id in s.sends && s.sends[id].pc.Returned? && s.sends[id].pc.answer.Some?
      ensures var f := s.sends[id].pc.answer.value.frame; f in s.h.logged && s.h.logged[f] == s.sends[id].run
    {
      assert SendLogged(s.sends[id], s.h.logged);
    }
    forall f | f in s.h.orphans && f in s.h.logged
      ensures s.h.logged[f] == s.h.orphans[f] && forall b :: b in s.booked && b.frame == f ==> b.run == s.h.logged[f]
    {
      OrphansGoToTheirRun(s, f);
    }
  }

  /** A result taken under the orphan mark is never queued for a Send nor
      returned by one.  It is booked (once the step in hand is done), always
      under the run that had been displaced, and under no other. */
  lemma OrphansGoToTheirRun(s: State, f: nat)
    requires ReachableSendOnly(s) && f in s.h.orphans
    ensures forall i :: 0 <= i < |s.eventCh| ==> s.eventCh[i].frame != f
    ensures forall id :: id in s.sends ==> !IsFrame(Answer(s.sends[id].pc), f) && !IsFrame(Held(s.sends[id].pc), f)
    ensures Booking(f, s.h.orphans[f]) in s.booked || (Orphaning(s.loop) && s.loop.ev.frame == f)
    ensures forall b :: b in s.booked && b.frame == f ==> b.run == s.h.orphans[f]
  {
    ReachableOwned(s);
    forall i | 0 <= i < |s.eventCh| ensures s.eventCh[i].frame != f {
      assert EventOk(s.eventCh[i], s.h.recv, Barred(s.loop, s.h.orphans));
    }
    forall id | id in s.sends
      ensures !IsFrame(Answer(s.sends[id].pc), f) && !IsFrame(Held(s.sends[id].pc), f)
    {
      assert SendOk(s.sends[id], s.clock, s.h.recv, s.h.enders, Barred(s.loop, s.h.orphans));
    }
  }

  /** Whose run that is: the one the mark carries, which is the last Send to
      have given up exactly when the Send that displaced it has not itself given
      up meanwhile (or runs under the same id). */
  lemma OrphanIsLastToGiveUp(s: State)
    requires ReachableSendOnly(s) && Enabled(s, TakeMarker) && Orphaned(s.t.abort)
    ensures var s' := Apply(s, TakeMarker); var f := s.loop.ev.frame;
      && f in s'.h.orphans && s'.h.orphans[f] == s.t.abort.orphanRun
      && (s'.h.orphans[f] == s.h.gaveUp <==> !s.t.sendAbandoned || s.t.runID == s.t.abort.orphanRun)
  {
    ReachableOwned(s);
  }

  // ---------- the other case happens ----------

  lemma {:induction false} RunExtends(s: State, steps: seq<Step>, s': State, step: Step)
    requires Run(s, steps, s') && Enabled(s', step)
    ensures Run(s, steps + [step], Apply(s', step))
    decreases |steps|
  {
    if steps != [] {
      RunExtends(Apply(s, steps[0]), steps[1..], s', step);
      assert (steps + [step])[1..] == steps[1..] + [step];
    }
  }

  lemma StepReachable(s: State, step: Step)
    requires ReachableSendOnly(s) && Enabled(s, step) && SendOnly(step)
    ensures ReachableSendOnly(Apply(s, step))
  {
    var steps: seq<Step> :| Run(INIT, steps, s) && forall i :: 0 <= i < |steps| ==> SendOnly(steps[i]);
    RunExtends(INIT, steps, s, step);
    var longer := steps + [step];
    assert Run(INIT, longer, Apply(s, step)) && forall i :: 0 <= i < |longer| ==> SendOnly(longer[i]);
  }

  lemma Advance(s: State, id: nat, move: Move) returns (s': State)
    requires ReachableSendOnly(s) && CanMove(s, id, move)
    ensures s' == SendStep(s, id, move) && ReachableSendOnly(s')
  {
    StepReachable(s, Sending(id, move));
    s' := SendStep(s, id, move);
  }

  function At(s: State, id: nat, pc: Pc): Send
    requires id in s.sends
  {
    s.sends[id].(stale := if pc.Stamped? then Some(s.clock) else s.sends[id].stale, pc := pc)
  }

  lemma ReachStamped(s: State, id: nat, run: string) returns (s': State)
    requires ReachableSendOnly(s) && s.t.state == Ready && id !in s.sends && s.loop.Idle?
    ensures ReachableSendOnly(s') && s'.loop == s.loop && s'.eventCh == s.eventCh && s'.sends.Keys == s.sends.Keys + {id}
    ensures s'.sends[id] == Send(run, s.clock, Some(s.clock), Stamped) && s'.t == ClaimSend(s.t, run)
  {
    s' := ReachClaimed(s, id, run);
    s' := Advance(s', id, Stamp);
  }

  lemma ReachClaimed(s: State, id: nat, run: string) returns (s': State)
    requires ReachableSendOnly(s) && s.t.state == Ready && id !in s.sends && s.loop.Idle?
    ensures ReachableSendOnly(s') && s'.loop == s.loop && s'.eventCh == s.eventCh && s'.sends.Keys == s.sends.Keys + {id}
    ensures s'.clock == s.clock && s'.sends[id] == Send(run, s.clock, None, Claimed) && s'.t == ClaimSend(s.t, run)
  {
    StepReachable(s, Claim(id, run));
    s' := Apply(s, Claim(id, run));
    ClaimedAt(s, id, run);
  }

  lemma ClaimedAt(s: State, id: nat, run: string)
    requires Moves(s.t, SendBegin)
    ensures var s' := DoClaim(s, id, run);
      && s'.loop == s.loop && s'.eventCh == s.eventCh && s'.clock == s.clock && s'.sends.Keys == s.sends.Keys + {id}
      && s'.sends[id] == Send(run, s.clock, None, Claimed) && s'.t == ClaimSend(s.t, run)
  {
  }

  lemma ReachSweeping(s: State, id: nat) returns (s': State)
    requires ReachableSendOnly(s) && id in s.sends && s.sends[id].pc.Stamped? && s.sends[id].stale.Some?
    ensures ReachableSendOnly(s') && s'.loop == s.loop && s'.eventCh == s.eventCh && id in s'.sends
    ensures s'.sends == s.sends[id := s'.sends[id]] && s'.sends[id].pc == Sweeping(s.clock, []) && s'.sends[id].stale.Some?
    ensures s'.t == s.t.(interrupted := false, interruptedRun := false)
  {
    s' := Advance(s, id, ReadCutoff);
    assert s' == s.(sends := s.sends[id := At(s, id, CutoffRead(s.clock))]);
    s' := ReachDraining(s', id);
    if s'.sends[id].pc.SettleWait? { s' := Advance(s', id, SettleStop); }
  }

  lemma ReachDraining(s: State, id: nat) returns (s': State)
    requires ReachableSendOnly(s) && id in s.sends && s.sends[id].pc.CutoffRead? && s.sends[id].stale.Some?
    ensures ReachableSendOnly(s') && s'.loop == s.loop && s'.eventCh == s.eventCh && id in s'.sends
    ensures s'.sends == s.sends[id := s'.sends[id]] && s'.sends[id].stale == s.sends[id].stale
    ensures s'.sends[id].pc == SettleWait(s.sends[id].pc.cutoff, []) || s'.sends[id].pc == Sweeping(s.sends[id].pc.cutoff, [])
    ensures s'.t == s.t.(interrupted := false, interruptedRun := false)
  {
    s' := Advance(s, id, BeginDrain);
  }

  lemma ReachDrained(s: State, id: nat) returns (s': State)
    requires ReachableSendOnly(s) && id in s.sends && s.sends[id].pc.Sweeping? && s.sends[id].pc.kept == []
    requires s.sends[id].stale.Some? && s.eventCh == []
    ensures ReachableSendOnly(s') && s' == s.(sends := s.sends[id := At(s, id, Refilling([], true))])
  {
    s' := Advance(s, id, SweepEnd);
  }

  lemma ReachWritten(s: State, id: nat) returns (s': State)
    requires ReachableSendOnly(s) && id in s.sends && s.sends[id].pc == Refilling([], true) && s.sends[id].stale.Some?
    ensures ReachableSendOnly(s') && s' == s.(sends := s.sends[id := At(s, id, Reading(None))])
  {
    s' := Advance(s, id, DrainDone);
    assert s' == s.(sends := s.sends[id := At(s, id, WritingMessage)]);
    s' := Advance(s', id, Write(true));
  }

  /** A claim, an empty drain and a write, up to the answer wait. */
  lemma ReachReading(s: State, id: nat, run: string) returns (s': State)
    requires ReachableSendOnly(s) && s.t.state == Ready && id !in s.sends && s.loop.Idle? && s.eventCh == []
    ensures ReachableSendOnly(s') && s'.loop == s.loop && s'.eventCh == [] && s'.sends.Keys == s.sends.Keys + {id}
    ensures s'.sends[id].pc == Reading(None) && s'.sends[id].stale.Some?
    ensures s'.t == ClaimSend(s.t, run).(interrupted := false, interruptedRun := false)
  {
    s' := ReachStamped(s, id, run);
    s' := ReachSweeping(s', id);
    s' := ReachDrained(s', id);
    s' := ReachWritten(s', id);
  }

  lemma ReachAbandoned(s: State, id: nat) returns (s': State)
    requires ReachableSendOnly(s) && id in s.sends && s.sends[id].pc == Reading(None) && s.sends[id].stale.Some?
    ensures ReachableSendOnly(s') && s'.sends == s.sends[id := At(s, id, Deferring(None, None))]
    ensures s' == s.(t := s.t.(sendAbandoned := true), h := s.h.(gaveUp := s.sends[id].run), sends := s'.sends)
  {
    s' := Advance(s, id, Abandon);
  }

  lemma ReachReleasing(s: State, id: nat) returns (s': State)
    requires ReachableSendOnly(s) && id in s.sends && s.sends[id].pc == Deferring(None, None) && s.sends[id].stale.Some?
    ensures ReachableSendOnly(s') && s' == s.(sends := s.sends[id := At(s, id, Releasing(None))])
  {
    s' := Advance(s, id, RunDeferred);
  }

  lemma ReachEnded(s: State, id: nat) returns (s': State)
    requires ReachableSendOnly(s) && id in s.sends && s.sends[id].pc == Releasing(None) && s.sends[id].stale.Some?
    ensures ReachableSendOnly(s') && s'.loop == s.loop && s'.eventCh == s.eventCh && s'.sends.Keys == s.sends.Keys
    ensures s'.t == Transition(s.t, SendEnd)
  {
    s' := Advance(s, id, EndSend);
  }

  lemma ReachGivenUp(s: State, id: nat) returns (s': State)
    requires ReachableSendOnly(s) && id in s.sends && s.sends[id].pc == Reading(None) && s.sends[id].stale.Some?
    ensures ReachableSendOnly(s') && s'.loop == s.loop && s'.eventCh == s.eventCh && s'.sends.Keys == s.sends.Keys
    ensures s'.t == Transition(s.t.(sendAbandoned := true), SendEnd)
  {
    s' := ReachAbandoned(s, id);
    s' := ReachReleasing(s', id);
    s' := ReachEnded(s', id);
  }

  lemma InterruptReachable(s: State) returns (s': State)
    requires ReachableSendOnly(s) && s.t.state == Running
    ensures ReachableSendOnly(s') && s' == DoInterrupt(s)
  {
    StepReachable(s, Step.Interrupt);
    s' := DoInterrupt(s);
  }

  /** A Send gives up after an interrupt; the next one takes over and gives up
      too.  A result now is booked under the first one's run, not the last's. */
  lemma OrphanOfAnEarlierSend()
    ensures exists s :: ReachableSendOnly(s) && OrphanOfAnother(s)
  {
    assert Run(INIT, [], INIT);
    StepReachable(INIT, StartLoop);
    var s := ReachReading(Apply(INIT, StartLoop), 0, "a");
    assert s.t == Turn(Running, false, false, false, "a", NO_ABORT, false, false, false);
    ReachSecond(s);
  }

  lemma ReachSecond(s: State)
    requires ReachableSendOnly(s) && s.loop.Idle? && s.eventCh == [] && s.sends.Keys == {0}
    requires s.sends[0].pc == Reading(None) && s.sends[0].stale.Some?
    requires s.t == Turn(Running, false, false, false, "a", NO_ABORT, false, false, false)
    ensures exists s :: ReachableSendOnly(s) && OrphanOfAnother(s)
  {
    var s1 := InterruptReachable(s);
    var s2 := ReachGivenUp(s1, 0);
    ReachOrphan(s2);
  }

  lemma ReachOrphan(s: State)
    requires ReachableSendOnly(s) && s.t.state == Ready && s.loop.Idle? && s.eventCh == [] && 1 !in s.sends
    requires s.t.abort == Abort(1, false, "") && s.t.sendAbandoned && s.t.runID == "a"
    ensures exists s :: ReachableSendOnly(s) && OrphanOfAnother(s)
  {
    var s1 := ReachReading(s, 1, "b");
    assert s1.t.abort == Abort(1, true, "a") && s1.t.runID == "b";
    var s2 := ReachAbandoned(s1, 1);
    ReachTaken(s2);
  }

  lemma ReachTaken(s: State)
    requires ReachableSendOnly(s) && s.loop.Idle? && Orphaned(s.t.abort) && s.t.abort.orphanRun != s.t.runID && s.t.sendAbandoned
    ensures exists s :: ReachableSendOnly(s) && OrphanOfAnother(s)
  {
    StepReachable(s, Frame(ResultFrame));
    var s' := Apply(s, Frame(ResultFrame));
    OrphanIsLastToGiveUp(s');
    assert OrphanOfAnother(s');
  }

  ghost predicate OrphanOfAnother(s: State) {
    && Enabled(s, TakeMarker) && Orphaned(s.t.abort)
    && s.loop.ev.frame in DoTakeMarker(s).h.orphans
    && DoTakeMarker(s).h.orphans[s.loop.ev.frame] != s.h.gaveUp
  }
}
