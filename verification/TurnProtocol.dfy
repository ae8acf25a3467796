/** Who owns a turn, as a step system: Send callers, the read loop and
    interrupts, each advancing one locked section, one clock reading or one
    channel operation at a time (internal/cli/process_send.go,
    process_turn.go, process_readloop.go, adopted_turn.go).  Timers and
    cancellations are steps that may happen whenever their select is open. */
module TurnProtocol {
  import opened Wrappers
  import opened TurnState

  const EVENT_CAPACITY: nat := 1024

  datatype Kind = ResultFrame | InitFrame | OtherFrame

  /** A decoded frame.  `frame` numbers it; `recvAt` is the clock reading its
      dispatch began with. */
  datatype Event = Event(frame: nat, kind: Kind, recvAt: nat, aborted: bool)

  /** Where the read loop stands with the frame in hand. */
  datatype Loop =
    | NotStarted
    | Idle
    | Starting(ev: Event)                                     // system/init: its turn starts next
    | Dispatching(ev: Event)                                  // result; its clock reading was taken
    | Taken(ev: Event, orphaned: bool, orphanRun: string)     // result; the abort marker was read
    | Logging(ev: Event, orphaned: bool, orphanRun: string)   // no passthrough slot claimed it; its log entry is next
    | Owning(ev: Event, orphaned: bool, orphanRun: string)    // logged; whose is it?
    | TurnEnding(ev: Event)                                   // it ends the reconnect's turn
    | Latching(ev: Event)
    | Handing(ev: Event)                                      // eventCh is next
    | Asking(ev: Event)                                       // neither reconnect's nor orphan: noLiveSend is next
    | Passing(ev: Event, noLive: bool, run: string)           // noLiveSend read; eventCh is next
    | Settling(ev: Event, noLive: bool, run: string)          // queued; slots.mu is next
    | SettlingTurn(ev: Event, noLive: bool, run: string, pending: nat)
    | BookingResult(ev: Event, run: string)
    | Unwinding                                               // dead; channels still open
    | DoneClosed                                              // done closed, eventCh not yet
    | EventsClosed                                            // both closed; resolveExit is next
    | Exited

  /** Where a Send stands. */
  datatype Pc =
    | Claimed                                        // claimSend succeeded
    | Stamped                                        // staleBefore read
    | CutoffRead(cutoff: nat)                        // drain: cutoff read; flags next
    | SettleWait(cutoff: nat, kept: seq<Event>)      // drain: waiting for the interrupted result
    | Sweeping(cutoff: nat, kept: seq<Event>)        // drain: non-blocking sweep
    | Refilling(kept: seq<Event>, ok: bool)          // drain: putting back what it held
    | WritingMessage
    | Reading(held: Option<Event>)
    | Clearing(held: Option<Event>)                  // watchdog killed; flags next
    | Deferring(answer: Option<Event>, held: Option<Event>)
    | Releasing(answer: Option<Event>)               // deferred evSendEnd is next
    | Returned(answer: Option<Event>)

  datatype Send = Send(run: string, claimedAt: nat, stale: Option<nat>, pc: Pc)

  /** adoptedTurn, and what it latched: the frame the read loop latched, the
      backlog's result, or the exit. */
  datatype Latched = FromLoop(frame: nat) | FromBacklog | FromExit

  datatype Latch = Latch(armed: bool, midTurn: bool, out: Option<Latched>)

  datatype Booking = Booking(frame: nat, run: string)

  /** What only the claims below look at. */
  datatype History = History(
    recv: map<nat, nat>,            // frame -> clock reading of its dispatch
    live: Option<nat>,              // the Send between its claim and its evSendEnd
    enders: set<nat>,               // results that ended a turn no Send owned
    orphans: map<nat, string>,      // results taken under the orphan mark -> run displaced then
    claimed: set<nat>,              // results passthrough slots claimed
    gaveUp: string,                 // run of the last Send that abandoned its turn
    displaced: string,              // run of the last such Send that another replaced
    arms: nat,                      // abort requests so far
    marked: nat,                    // results marked Aborted so far
    logged: map<nat, string>)       // results no slot claimed -> run their log entry names

  datatype State = State(
    t: Turn,
    clock: nat,
    loop: Loop,
    eventCh: seq<Event>,
    done: bool,
    closed: bool,                   // eventCh
    killed: bool,
    slots: nat,                     // pending passthrough slots
    onWire: nat,                    // interrupts armed whose send has not returned
    nowOnWire: nat,                 // "now" messages armed whose write has not returned
    sends: map<nat, Send>,
    latch: Latch,
    booked: seq<Booking>,           // what the unowned-result hook received
    h: History)

  const INIT := State(NEW_TURN, 0, NotStarted, [], false, false, false, 0, 0, 0, map[], Latch(false, false, None), [],
                      History(map[], None, {}, map[], {}, "", "", 0, 0, map[]))

  datatype Step =
    | Tick(d: nat)
    // before the read loop
    | AttachMidTurn | AttachFinished | StartLoop
    // read loop
    | Frame(kind: Kind)
    | TakeMarker
    | InitHook(replay: bool)
    | SlotsClaim(last: bool)
    | SlotsPass
    | LogResult
    | OwnResult
    | AskLive
    | EndReconnected
    | LatchResult
    | HandOver
    | PassOn
    | ReadSlots
    | SettleTurn
    | BookUnowned
    | LoopEnds
    | CloseDone
    | CloseEvents
    | ExitLatch
    // Send
    | Claim(id: nat, run: string)
    | Sending(id: nat, move: Move)
    // interrupts, kills, passthrough
    | Interrupt
    | InterruptFails(clear: bool, clearRun: bool)
    | InterruptSent
    | KillProcess
    | PassthroughArm
    | PassthroughFails
    | PassthroughSent
    | PassthroughKilled
    | SlotsChange(n: nat)

  datatype Move =
    | Stamp | ReadCutoff | BeginDrain
    | SettleTake | SettleStop | SweepTake | SweepEnd | DrainCancel | Refill | DrainDone
    | Write(ok: bool)
    | Take(hold: bool) | HeldOut | Abandon | WatchdogKill | ClearFlags | ChannelClosed(useHeld: bool)
    | RunDeferred | EndSend

  predicate Ended(pc: Pc) { pc.Returned? }

  // ---------- the read loop ----------

  predicate LoopGuard(s: State, step: Step) {
    match step
    case AttachMidTurn => s.loop.NotStarted? && !s.latch.armed
    case AttachFinished => s.loop.NotStarted? && !s.latch.armed
    case StartLoop => s.loop.NotStarted?
    case Frame(_) => s.loop.Idle?
    case TakeMarker => s.loop.Dispatching?
    case InitHook(_) => s.loop.Starting?
    case SlotsClaim(_) => s.loop.Taken?
    case SlotsPass => s.loop.Taken?
    case LogResult => s.loop.Logging?
    case OwnResult => s.loop.Owning?
    case AskLive => s.loop.Asking?
    case EndReconnected => s.loop.TurnEnding?
    case LatchResult => s.loop.Latching?
    case HandOver => s.loop.Handing?
    case PassOn => s.loop.Passing?
    case ReadSlots => s.loop.Settling?
    case SettleTurn => s.loop.SettlingTurn?
    case BookUnowned => s.loop.BookingResult?
    case LoopEnds => s.loop.Idle?
    case CloseDone => s.loop.Unwinding?
    case CloseEvents => s.loop.DoneClosed?
    case ExitLatch => s.loop.EventsClosed?
    case _ => false
  }

  function Resolve(l: Latch, out: Latched): Latch {
    if l.armed && l.out.None? then l.(out := Some(out)) else l
  }

  /** deliverEvent: the kill probe, then the non-blocking send. */
  function Deliver(s: State, ev: Event, next: Loop): State {
    if s.killed then s.(t := Transition(s.t, Died), loop := Unwinding)
    else s.(eventCh := if |s.eventCh| < EVENT_CAPACITY then s.eventCh + [ev] else s.eventCh, loop := next)
  }

  function DoFrame(s: State, kind: Kind): State {
    var ev := Event(|s.h.recv|, kind, s.clock, false);
    s.(loop := match kind case InitFrame => Starting(ev) case OtherFrame => Handing(ev) case ResultFrame => Dispatching(ev),
       h := s.h.(recv := s.h.recv[ev.frame := s.clock]))
  }

  /** abortMarker.take for the result in hand. */
  function DoTakeMarker(s: State): State
    requires s.loop.Dispatching?
  {
    var a, frame := s.t.abort, s.loop.ev.frame;
    s.(loop := Taken(s.loop.ev.(aborted := Aborted(a)), Orphaned(a), if Orphaned(a) then a.orphanRun else ""),
       t := s.t.(abort := NO_ABORT),
       h := s.h.(marked := s.h.marked + (if Aborted(a) then 1 else 0),
                 orphans := if Orphaned(a) then s.h.orphans[frame := s.h.displaced] else s.h.orphans))
  }

  /** The run the result's log entry names. */
  function DoLogResult(s: State): State
    requires s.loop.Logging?
  {
    s.(loop := Owning(s.loop.ev, s.loop.orphaned, s.loop.orphanRun),
       h := s.h.(logged := s.h.logged[s.loop.ev.frame := if s.loop.orphaned then s.loop.orphanRun else ResultRunID(s.t)]))
  }

  /** The result branch: the one-shot reconnect flag first, then the orphan. */
  function DoOwnResult(s: State): State
    requires s.loop.Owning?
  {
    var ev := s.loop.ev;
    if s.t.reconnected then s.(t := s.t.(reconnected := false), loop := TurnEnding(ev))
    else if s.loop.orphaned then s.(booked := s.booked + [Booking(ev.frame, s.loop.orphanRun)], loop := Idle)
    else s.(loop := Asking(ev))
  }

  function EndUnownedTurn(s: State, ev: Event): State {
    s.(t := Transition(s.t, TurnEnded),
       h := if Moves(s.t, TurnEnded) then s.h.(enders := s.h.enders + {ev.frame}) else s.h)
  }

  /** settleUnclaimedResult under turn.mu. */
  function DoSettleTurn(s: State): State
    requires s.loop.SettlingTurn?
  {
    var ev, run := s.loop.ev, s.loop.run;
    if s.t.unowned then
      (if s.loop.pending == 0 then EndUnownedTurn(s, ev) else s).(loop := BookingResult(ev, run))
    else if !s.loop.noLive then s.(loop := Idle)
    else s.(loop := BookingResult(ev, run))
  }

  function DoBookUnowned(s: State): State
    requires s.loop.BookingResult?
  {
    var run := s.loop.run;
    s.(t := if run != "" then s.t.(abandonedBooked := true) else s.t,
       booked := s.booked + [Booking(s.loop.ev.frame, run)],
       loop := Idle)
  }

  function LoopStep(s: State, step: Step): State
    requires LoopGuard(s, step)
  {
    match step
    case AttachMidTurn =>
      s.(t := Transition(s.t, ReconnectMidTurn).(reconnected := true), latch := Latch(true, true, None))
    case AttachFinished => s.(latch := Resolve(Latch(true, false, None), FromBacklog))
    case StartLoop => s.(t := Transition(s.t, ReadLoopStart), loop := Idle)
    case Frame(kind) => DoFrame(s, kind)
    case TakeMarker => DoTakeMarker(s)
    case InitHook(replay) => s.(t := if replay then Transition(s.t, TurnStarted) else s.t, loop := Handing(s.loop.ev))
    case SlotsClaim(last) =>
      s.(h := s.h.(claimed := s.h.claimed + {s.loop.ev.frame}), t := if last then Transition(s.t, TurnEnded) else s.t, loop := Idle)
    case SlotsPass => s.(loop := Logging(s.loop.ev, s.loop.orphaned, s.loop.orphanRun))
    case LogResult => DoLogResult(s)
    case OwnResult => DoOwnResult(s)
    case AskLive => s.(loop := Passing(s.loop.ev, NoLiveSend(s.t).0, NoLiveSend(s.t).1))
    case EndReconnected => EndUnownedTurn(s, s.loop.ev).(loop := Latching(s.loop.ev))
    case LatchResult => s.(latch := Resolve(s.latch, FromLoop(s.loop.ev.frame)), loop := Handing(s.loop.ev))
    case HandOver => Deliver(s, s.loop.ev, Idle)
    case PassOn => Deliver(s, s.loop.ev, Settling(s.loop.ev, s.loop.noLive, s.loop.run))
    case ReadSlots => s.(loop := SettlingTurn(s.loop.ev, s.loop.noLive, s.loop.run, s.slots))
    case SettleTurn => DoSettleTurn(s)
    case BookUnowned => DoBookUnowned(s)
    case LoopEnds => s.(t := Transition(s.t, Died), loop := Unwinding)
    case CloseDone => s.(done := true, loop := DoneClosed)
    case CloseEvents => s.(closed := true, loop := EventsClosed)
    case ExitLatch => s.(latch := Resolve(s.latch, FromExit), loop := Exited)
  }

  // ---------- Send ----------

  predicate MoveGuard(s: State, send: Send, move: Move) {
    var pc := send.pc;
    match move
    case Stamp => pc.Claimed?
    case ReadCutoff => pc.Stamped?
    case BeginDrain => pc.CutoffRead?
    case SettleTake => pc.SettleWait? && s.eventCh != []
    case SettleStop => pc.SettleWait?
    case SweepTake => pc.Sweeping? && s.eventCh != []
    case SweepEnd => pc.Sweeping? && s.eventCh == []
    case DrainCancel => pc.SettleWait? || pc.Sweeping?
    case Refill => pc.Refilling? && pc.kept != []
    case DrainDone => pc.Refilling? && pc.kept == []
    case Write(_) => pc.WritingMessage?
    case Take(hold) => pc.Reading? && s.eventCh != []
      && (hold ==> pc.held.None? && !s.eventCh[0].aborted)
    case HeldOut => pc.Reading? && pc.held.Some?
    case Abandon => pc.Reading?
    case WatchdogKill => pc.Reading?
    case ClearFlags => pc.Clearing?
    case ChannelClosed(useHeld) => pc.Reading? && s.closed && s.eventCh == [] && (useHeld ==> pc.held.Some?)
    case RunDeferred => pc.Deferring?
    case EndSend => pc.Releasing?
  }

  predicate CanMove(s: State, id: nat, move: Move) {
    id in s.sends && (s.sends[id].stale.Some? == !s.sends[id].pc.Claimed?) && MoveGuard(s, s.sends[id], move)
  }

  /** bookDroppedResult, for an event the Send discards as stale. */
  function Dropped(s: State, ev: Event): State {
    if ev.kind.ResultFrame?
    then s.(t := s.t.(abort := Release(s.t.abort)), booked := s.booked + [Booking(ev.frame, "")])
    else s
  }

  function SetPc(s: State, id: nat, pc: Pc): State
    requires id in s.sends
  {
    s.(sends := s.sends[id := s.sends[id].(pc := pc)])
  }

  function DoTake(s: State, id: nat, hold: bool): State
    requires id in s.sends && s.sends[id].pc.Reading? && s.sends[id].stale.Some? && s.eventCh != []
  {
    var send, ev := s.sends[id], s.eventCh[0];
    var s1 := s.(eventCh := s.eventCh[1..]);
    if ev.recvAt <= send.stale.value then Dropped(s1, ev)
    else if !ev.kind.ResultFrame? then s1
    else
      var s2 := if ev.aborted then s1.(t := s1.t.(interrupted := false, interruptedRun := false)) else s1;
      SetPc(s2, id, if hold then Reading(Some(ev)) else Deferring(Some(ev), send.pc.held))
  }

  function DoSettleTake(s: State, id: nat): State
    requires id in s.sends && s.sends[id].pc.SettleWait? && s.eventCh != []
  {
    var pc, ev := s.sends[id].pc, s.eventCh[0];
    var s1 := s.(eventCh := s.eventCh[1..]);
    if ev.kind.ResultFrame? then SetPc(Dropped(s1, ev), id, Sweeping(pc.cutoff, pc.kept))
    else if ev.recvAt > pc.cutoff then SetPc(s1, id, SettleWait(pc.cutoff, pc.kept + [ev]))
    else s1
  }

  function DoSweepTake(s: State, id: nat): State
    requires id in s.sends && s.sends[id].pc.Sweeping? && s.eventCh != []
  {
    var pc, ev := s.sends[id].pc, s.eventCh[0];
    var s1 := s.(eventCh := s.eventCh[1..]);
    if ev.recvAt > pc.cutoff then SetPc(s1, id, Sweeping(pc.cutoff, pc.kept + [ev])) else Dropped(s1, ev)
  }

  /** drainStaleEvents' first locked section: both flags read and cleared. */
  function DoBeginDrain(s: State, id: nat): State
    requires id in s.sends && s.sends[id].pc.CutoffRead?
  {
    var wait, cutoff := s.t.interrupted && s.t.interruptedRun, s.sends[id].pc.cutoff;
    SetPc(s.(t := s.t.(interrupted := false, interruptedRun := false)), id,
          if wait then SettleWait(cutoff, []) else Sweeping(cutoff, []))
  }

  function SendStep(s: State, id: nat, move: Move): State
    requires CanMove(s, id, move)
  {
    var pc := s.sends[id].pc;
    match move
    case Stamp => s.(sends := s.sends[id := s.sends[id].(stale := Some(s.clock), pc := Stamped)])
    case ReadCutoff => SetPc(s, id, CutoffRead(s.clock))
    case BeginDrain => DoBeginDrain(s, id)
    case SettleTake => DoSettleTake(s, id)
    case SettleStop => SetPc(s, id, Sweeping(pc.cutoff, pc.kept))
    case SweepTake => DoSweepTake(s, id)
    case SweepEnd => SetPc(s, id, Refilling(if s.done then [] else pc.kept, true))
    case DrainCancel =>
      SetPc(s, id, if pc.SettleWait? then Deferring(None, None) else Refilling(if s.done then [] else pc.kept, false))
    case Refill =>
      SetPc(s.(eventCh := if |s.eventCh| < EVENT_CAPACITY && !s.closed then s.eventCh + [pc.kept[0]] else s.eventCh),
            id, Refilling(pc.kept[1..], pc.ok))
    case DrainDone => SetPc(s, id, if pc.ok then WritingMessage else Deferring(None, None))
    case Write(ok) => SetPc(s, id, if ok then Reading(None) else Deferring(None, None))
    case Take(hold) => DoTake(s, id, hold)
    case HeldOut => SetPc(s, id, Deferring(pc.held, pc.held))
    case Abandon => SetPc(s.(t := s.t.(sendAbandoned := true), h := s.h.(gaveUp := s.sends[id].run)), id, Deferring(None, pc.held))
    case WatchdogKill => SetPc(s.(killed := true), id, Clearing(pc.held))
    case ClearFlags =>
      SetPc(s.(t := s.t.(interrupted := false, interruptedRun := false, abort := NO_ABORT)), id, Deferring(None, pc.held))
    case ChannelClosed(useHeld) => SetPc(s, id, Deferring(if useHeld then pc.held else None, pc.held))
    case RunDeferred =>
      SetPc(if pc.held.Some? then s.(t := s.t.(abort := NO_ABORT)) else s, id, Releasing(pc.answer))
    case EndSend => SetPc(s.(t := Transition(s.t, SendEnd), h := s.h.(live := None)), id, Returned(pc.answer))
  }

  /** claimSend; a refused Send returns busy or dead and leaves no trace. */
  function DoClaim(s: State, id: nat, run: string): State {
    if !Moves(s.t, SendBegin) then s
    else s.(t := ClaimSend(s.t, run),
            sends := s.sends[id := Send(run, s.clock, None, Claimed)],
            h := s.h.(live := Some(id), displaced := if s.t.sendAbandoned then s.h.gaveUp else s.h.displaced))
  }

  // ---------- everything ----------

  /** Clocks, Sends, interrupts, kills and passthrough sends. */
  predicate OutsideGuard(s: State, step: Step) {
    match step
    case Tick(_) => true
    case Claim(id, _) => id !in s.sends && !s.loop.NotStarted?
    case Sending(id, move) => CanMove(s, id, move)
    case Interrupt => true
    case InterruptFails(_, _) => s.onWire > 0
    case InterruptSent => s.onWire > 0
    case KillProcess => true
    case PassthroughArm => true
    case PassthroughFails => s.nowOnWire > 0
    case PassthroughSent => s.nowOnWire > 0
    case PassthroughKilled => s.killed
    case SlotsChange(_) => true
    case _ => false
  }

  predicate Enabled(s: State, step: Step) { LoopGuard(s, step) || OutsideGuard(s, step) }

  function Apply(s: State, step: Step): State
    requires Enabled(s, step)
  {
    if LoopGuard(s, step) then LoopStep(s, step) else OutsideStep(s, step)
  }

  function OutsideStep(s: State, step: Step): State
    requires OutsideGuard(s, step)
  {
    match step
    case Tick(d) => s.(clock := s.clock + d)
    case Claim(id, run) => DoClaim(s, id, run)
    case Sending(id, move) => SendStep(s, id, move)
    case Interrupt => DoInterrupt(s)
    case InterruptFails(clear, clearRun) => DoInterruptFails(s, clear, clearRun)
    case InterruptSent => s.(onWire := s.onWire - 1)
    case KillProcess => s.(killed := true)
    case PassthroughArm =>
      s.(t := s.t.(abort := Arm(s.t.abort)), nowOnWire := s.nowOnWire + 1, h := s.h.(arms := s.h.arms + 1))
    case PassthroughFails => s.(t := s.t.(abort := Disarm(s.t.abort)), nowOnWire := s.nowOnWire - 1)
    case PassthroughSent => s.(nowOnWire := s.nowOnWire - 1)
    case PassthroughKilled => s.(t := s.t.(interrupted := false, interruptedRun := false, abort := NO_ABORT))
    case SlotsChange(n) => s.(slots := n)
  }

  /** Interrupt and InterruptViaControl up to the wire; only an arm is owed a
      disarm. */
  function DoInterrupt(s: State): State {
    if s.t.state == Running then s.(t := Interrupted(s.t), onWire := s.onWire + 1, h := s.h.(arms := s.h.arms + 1))
    else s.(t := Interrupted(s.t))
  }

  /** The wire refused it: one disarm, and each flag this interrupt itself set. */
  function DoInterruptFails(s: State, clear: bool, clearRun: bool): State
    requires s.onWire > 0
  {
    s.(t := s.t.(abort := Disarm(s.t.abort),
                 interrupted := s.t.interrupted && !clear,
                 interruptedRun := s.t.interruptedRun && !clearRun),
       onWire := s.onWire - 1)
  }

  /** A Send-only run: no passthrough slot is ever queued. */
  predicate SendOnly(step: Step) {
    && !step.SlotsClaim? && !step.SlotsChange?
    && !step.PassthroughArm? && !step.PassthroughFails? && !step.PassthroughSent? && !step.PassthroughKilled?
  }

  ghost predicate Run(s: State, steps: seq<Step>, s': State)
    decreases |steps|
  {
    if steps == [] then s == s'
    else Enabled(s, steps[0]) && Run(Apply(s, steps[0]), steps[1..], s')
  }

  ghost predicate Reachable(s: State) {
    exists steps: seq<Step> :: Run(INIT, steps, s)
  }

  ghost predicate ReachableSendOnly(s: State) {
    exists steps: seq<Step> :: Run(INIT, steps, s) && forall i :: 0 <= i < |steps| ==> SendOnly(steps[i])
  }
}
