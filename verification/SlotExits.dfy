/** How calls can end while the process lives, and what a line on the socket says
    of its call: a second invariant of SlotProtocol. */
module SlotExits {
  import opened SlotChannel
  import opened SlotProtocol
  import opened SlotSafety

  /** No call has found the process dead, and one that timed out took the error a
      discard left. */
  ghost predicate ExitsOk(alive: bool, callers: map<nat, Caller>, fate: map<nat, Fate>) {
    alive ==> forall id :: id in callers ==>
      callers[id] != Left(Exited) && (callers[id] == Left(TimedOut) ==> id in fate && fate[id].Dropped?)
  }

  /** The call has written its line and not failed to. */
  ghost predicate Sent(w: Caller) {
    !w.Drafted? && !w.Writing? && !w.WriteFailed? && w != Left(Rejected) && w != Left(WriteError)
  }

  ghost predicate WireOk(wire: seq<nat>, callers: map<nat, Caller>) {
    forall i :: 0 <= i < |wire| ==> wire[i] in callers && Sent(callers[wire[i]])
  }

  ghost predicate Exits(s: State) { ExitsOk(s.alive, s.callers, s.fate) && WireOk(s.wire, s.callers) }

  lemma WireKept(wire: seq<nat>, callers: map<nat, Caller>, id: nat, w: Caller)
    requires WireOk(wire, callers) && (id in callers && Sent(callers[id]) ==> Sent(w))
    ensures WireOk(wire, callers[id := w])
  {
    forall i | 0 <= i < |wire| ensures wire[i] in callers[id := w] && Sent(callers[id := w][wire[i]]) {
      assert Sent(callers[wire[i]]);
    }
  }

  lemma ExitsKept(alive: bool, callers: map<nat, Caller>, fate: map<nat, Fate>, fate': map<nat, Fate>, id: nat, w: Caller)
    requires ExitsOk(alive, callers, fate)
    requires forall x :: x in fate && fate[x].Dropped? ==> x in fate' && fate'[x].Dropped?
    requires alive ==> w != Left(Exited) && (w == Left(TimedOut) ==> id in fate' && fate'[id].Dropped?)
    ensures ExitsOk(alive, callers[id := w], fate')
  {
  }

  lemma OwnExits(s: State, id: nat, move: Move)
    requires Inv(s) && Exits(s) && Enabled(s, Own(id, move))
    ensures Exits(Apply(s, Own(id, move)))
  {
    SlotAt(s, id);
    OwnKeepsSent(s, id, move);
    var w := MoveCaller(move, s.chans[id], s.callers[id]);
    WireKept(s.wire, s.callers, id, w);
    ExitsKept(s.alive, s.callers, s.fate, s.fate, id, w);
  }

  /** The one caller that moves. */
  lemma OwnKeepsSent(s: State, id: nat, move: Move)
    requires Known(s, id) && MoveGuard(move, s.chans[id], s.callers[id], s.alive)
    requires SlotOk(id, s.chans[id], s.callers[id], s.fate[id], s.turns, s.fan, s.discards)
    ensures var w := MoveCaller(move, s.chans[id], s.callers[id]);
      && Sent(s.callers[id]) && Sent(w)
      && (s.alive ==> w != Left(Exited) && (w == Left(TimedOut) ==> s.fate[id].Dropped?))
  {
  }

  lemma DraftExits(s: State)
    requires Inv(s) && Exits(s)
    ensures Exits(DoDraft(s))
  {
    WireKept(s.wire, s.callers, s.nextId, Drafted);
    ExitsKept(s.alive, s.callers, s.fate, DoDraft(s).fate, s.nextId, Drafted);
  }

  lemma TakeLockExits(s: State, id: nat, uuid: string)
    requires Inv(s) && Exits(s) && Enabled(s, TakeLock(id, uuid))
    ensures Exits(DoTakeLock(s, id, uuid))
  {
    SlotAt(s, id);
    DraftedIsFresh(s, id);
    var s' := DoTakeLock(s, id, uuid);
    WireKept(s.wire, s.callers, id, s'.callers[id]);
    ExitsKept(s.alive, s.callers, s.fate, s'.fate, id, s'.callers[id]);
  }

  lemma DraftedIsFresh(s: State, id: nat)
    requires Known(s, id) && Is(s, id, Drafted)
    requires SlotOk(id, s.chans[id], s.callers[id], s.fate[id], s.turns, s.fan, s.discards)
    ensures !s.fate[id].Dropped?
  {
  }

  lemma WriteDoneExits(s: State, id: nat, ok: bool)
    requires Exits(s) && Enabled(s, WriteDone(id, ok))
    ensures Exits(DoWriteDone(s, id, ok))
  {
    var w := if ok then Waiting else WriteFailed;
    WireKept(s.wire, s.callers, id, w);
    ExitsKept(s.alive, s.callers, s.fate, s.fate, id, w);
  }

  lemma RemoveFailedExits(s: State, id: nat)
    requires Exits(s) && Enabled(s, RemoveFailed(id))
    ensures Exits(DoRemoveFailed(s, id))
  {
    WireKept(s.wire, s.callers, id, Left(WriteError));
    ExitsKept(s.alive, s.callers, s.fate, DoRemoveFailed(s, id).fate, id, Left(WriteError));
  }

  lemma BookAbandonedExits(s: State, id: nat)
    requires Exits(s) && Enabled(s, BookAbandoned(id))
    ensures Exits(Apply(s, BookAbandoned(id)))
  {
    WireKept(s.wire, s.callers, id, Left(Canceled));
    ExitsKept(s.alive, s.callers, s.fate, s.fate, id, Left(Canceled));
  }

  /** A claim or a discard only moves slots that were queued. */
  lemma ResultExits(s: State, ev: ResultEvent)
    requires FateOk(s.q, s.fate) && ExitsOk(s.alive, s.callers, s.fate)
    ensures ExitsOk(s.alive, s.callers, DoResultFrame(s, ev).fate)
  {
    forall x | x in s.fate && s.fate[x].Dropped? ensures x !in s.q.current { assert s.fate[x] != Queued; }
  }

  lemma DiscardExits(s: State, reason: string)
    requires ExitsOk(s.alive, s.callers, s.fate)
    ensures ExitsOk(s.alive, s.callers, DoStartDiscard(s, reason).fate)
  {
  }

  lemma FatesExits(s: State, step: Step)
    requires FateOk(s.q, s.fate) && Exits(s) && Enabled(s, step) && (step.ResultFrame? || step.StartDiscard?)
    ensures Exits(Apply(s, step))
  {
    match step
    case ResultFrame(ev) => ResultExits(s, ev);
    case StartDiscard(reason) => DiscardExits(s, reason);
  }

  lemma QuietExits(s: State, step: Step)
    requires Exits(s) && Enabled(s, step)
    requires step.ReplayFrame? || step.FanBook? || step.FanEnd? || step.Die?
    ensures Exits(Apply(s, step))
  {
  }

  lemma ChannelExits(s: State, step: Step)
    requires Exits(s) && Enabled(s, step)
    requires step.FanDeliver? || step.DiscardCheck? || step.DiscardSend?
    ensures Exits(Apply(s, step))
  {
    var s' := Apply(s, step);
    assert s'.alive == s.alive && s'.callers == s.callers && s'.fate == s.fate && s'.wire == s.wire;
  }

  lemma CallerExits(s: State, step: Step)
    requires Inv(s) && Exits(s) && Enabled(s, step) && !LoopStep(step) && !DiscardStep(step)
    ensures Exits(Apply(s, step))
  {
    match step
    case Draft => DraftExits(s);
    case TakeLock(id, uuid) => TakeLockExits(s, id, uuid);
    case WriteDone(id, ok) => WriteDoneExits(s, id, ok);
    case RemoveFailed(id) => RemoveFailedExits(s, id);
    case BookAbandoned(id) => BookAbandonedExits(s, id);
    case Own(id, move) => OwnExits(s, id, move);
  }

  lemma StepExits(s: State, step: Step)
    requires Inv(s) && Exits(s) && Enabled(s, step)
    ensures Exits(Apply(s, step))
  {
    if !LoopStep(step) && !DiscardStep(step) {
      CallerExits(s, step);
    } else if step.ResultFrame? || step.StartDiscard? {
      FatesExits(s, step);
    } else if step.FanDeliver? || step.DiscardCheck? || step.DiscardSend? {
      ChannelExits(s, step);
    } else {
      QuietExits(s, step);
    }
  }

  lemma {:induction false} RunExits(s: State, steps: seq<Step>, s': State)
    requires Inv(s) && Exits(s) && Run(s, steps, s')
    ensures Exits(s')
    decreases |steps|
  {
    if steps != [] {
      StepOk(s, steps[0]);
      StepExits(s, steps[0]);
      RunExits(Apply(s, steps[0]), steps[1..], s');
    }
  }

  /** In every run: while the process lives no call exits on finding it dead, and
      one that timed out did so on a discard; and a line on the socket belongs to
      a call whose write did not fail. */
  lemma ReachableExits(s: State)
    requires Reachable(s)
    ensures Exits(s)
  {
    var steps: seq<Step> :| Run(INIT, steps, s);
    InitOk();
    RunExits(INIT, steps, s);
  }
}
