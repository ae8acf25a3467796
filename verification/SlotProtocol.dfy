/** The passthrough protocol of one process as a step system: any number of
    SendPassthrough callers, the read loop, and any number of discarders, each
    advancing one locked section (or one unlocked channel operation) at a time
    (internal/cli/passthrough.go, internal/cli/turn_watchdog.go). */
module SlotProtocol {
  import opened Wrappers
  import opened SlotQueue
  import opened SlotChannel

  /** How a SendPassthrough call returned. */
  datatype Outcome =
    | Rejected                   // the queue was full
    | WriteError                 // the link refused the line
    | Answered(res: SendResult)
    | Failed(err: string)        // took the error a discard left
    | Canceled                   // ctx.Done
    | Orphaned                   // bail timer, nothing delivered
    | TimedOut                   // watchdog arm, nothing taken
    | Exited                     // bail timer found the process dead

  /** Where a SendPassthrough call stands. */
  datatype Caller =
    | Drafted                    // slot built, write lock not taken yet
    | Writing                    // queued; holds the write lock
    | WriteFailed                // write refused; removeSlotByID not run yet
    | Waiting                    // in awaitSlot's select
    | Dying                      // watchdog arm, in its second select
    | Polled                     // bail arm, both channels seen empty
    | Expiring                   // bail arm, process seen alive
    | Booking(res: SendResult)   // ctx.Done took this back and will book it
    | Left(outcome: Outcome)

  datatype Turn = Turn(ev: ResultEvent, owners: seq<nat>)

  /** The fan-out of the last turn: how many owners it has served, and whether
      the head refused and its result is still to be booked. */
  datatype Fan = Fan(next: nat, bookHead: bool)

  /** One discardAllPending: its snapshot, how far it got, and whether it has
      already read the next victim's tombstone as unset. */
  datatype Discard = Discard(victims: seq<nat>, next: nat, checked: bool, reason: string)

  /** History: what became of a slot. */
  datatype Fate = Fresh | Queued | Owner(turn: nat, pos: nat) | Dropped(discard: nat) | Removed

  datatype State = State(
    q: Queue,
    chans: map<nat, Chan>,
    callers: map<nat, Caller>,
    nextId: nat,                 // idGen + 1
    writer: Option<nat>,         // who holds the link write lock
    wire: seq<nat>,              // ids in the order their lines hit the socket
    alive: bool,
    turns: seq<Turn>,            // every result that claimed slots
    fan: Option<Fan>,
    discards: seq<Discard>,
    booked: seq<SendResult>,     // what the unowned-result hook received
    tickets: map<nat, nat>,      // history: order in which slots took the write lock
    nextTicket: nat,
    fate: map<nat, Fate>)

  const INIT := State(Queue([], []), map[], map[], 1, None, [], true, [], None, [], [], map[], 0, map[])

  datatype Step =
    | Draft
    | TakeLock(id: nat, uuid: string)
    | WriteDone(id: nat, ok: bool)
    | RemoveFailed(id: nat)
    | ReplayFrame(uuid: string)
    | ResultFrame(ev: ResultEvent)
    | FanDeliver
    | FanBook
    | FanEnd
    | StartDiscard(reason: string)
    | DiscardCheck(k: nat)
    | DiscardSend(k: nat)
    | Die
    | BookAbandoned(id: nat)
    | Own(id: nat, move: Move)

  /** Steps of the read loop, and of whoever discards; the rest are callers'. */
  predicate LoopStep(step: Step) {
    step.ReplayFrame? || step.ResultFrame? || step.FanDeliver? || step.FanBook? || step.FanEnd? || step.Die?
  }

  predicate DiscardStep(step: Step) { step.StartDiscard? || step.DiscardCheck? || step.DiscardSend? }

  /** What a caller in awaitSlot does to its own slot. */
  datatype Move =
    | TakeResult | TakeError     // the first two arms of either select
    | CtxDone
    | Watchdog | LeaveDying      // kill issued; nothing taken in the second select
    | BailPoll | BailDead | BailAlive | BailWait | BailAbandon

  function HeadResult(k: nat, t: Turn): SendResult {
    SendResult(k, t.ev.text, t.ev.costUSD, |t.owners|, 0, "")
  }

  function FollowerResult(k: nat, t: Turn): SendResult
    requires t.owners != []
  {
    SendResult(k, "", 0.0, |t.owners|, t.owners[0], t.ev.text)
  }

  function OwnerResult(k: nat, t: Turn, pos: nat): SendResult
    requires t.owners != []
  {
    if pos == 0 then HeadResult(k, t) else FollowerResult(k, t)
  }

  predicate Is(s: State, id: nat, c: Caller) { id in s.callers && s.callers[id] == c }

  predicate Known(s: State, id: nat) { id in s.callers && id in s.chans && id in s.fate }

  predicate CanDeliver(s: State) {
    && s.fan.Some? && !s.fan.value.bookHead && s.turns != []
    && s.fan.value.next < |s.turns[|s.turns| - 1].owners|
    && s.turns[|s.turns| - 1].owners[s.fan.value.next] in s.chans
  }

  predicate CanBook(s: State) { s.fan.Some? && s.fan.value.bookHead && s.turns != [] }

  predicate CanEnd(s: State) {
    && s.fan.Some? && !s.fan.value.bookHead && s.turns != []
    && s.fan.value.next == |s.turns[|s.turns| - 1].owners|
  }

  predicate HasVictim(s: State, k: nat) {
    && k < |s.discards| && s.discards[k].next < |s.discards[k].victims|
    && s.discards[k].victims[s.discards[k].next] in s.chans
  }

  predicate Enabled(s: State, step: Step) {
    match step
    case Draft => true
    case TakeLock(id, _) => Known(s, id) && Is(s, id, Drafted) && s.writer.None?
    case WriteDone(id, _) => Known(s, id) && Is(s, id, Writing)
    case RemoveFailed(id) => Known(s, id) && Is(s, id, WriteFailed)
    case ReplayFrame(_) => s.alive && s.fan.None?
    case ResultFrame(_) => s.alive && s.fan.None?
    case FanDeliver => CanDeliver(s)
    case FanBook => CanBook(s)
    case FanEnd => CanEnd(s)
    case StartDiscard(_) => true
    case DiscardCheck(k) => HasVictim(s, k) && !s.discards[k].checked
    case DiscardSend(k) => HasVictim(s, k) && s.discards[k].checked
    case Die => s.fan.None?
    case BookAbandoned(id) => Known(s, id) && s.callers[id].Booking?
    case Own(id, move) =>
      && Known(s, id)
      && MoveGuard(move, s.chans[id], s.callers[id], s.alive)
      && (move.Watchdog? ==> s.q.pending != [])
  }

  predicate MoveGuard(move: Move, c: Chan, w: Caller, alive: bool) {
    match move
    case TakeResult => (w.Waiting? || w.Dying?) && c.resultCh.Some?
    case TakeError => w.Waiting? && c.errCh.Some?
    case CtxDone => w.Waiting?
    case Watchdog => w.Waiting?
    case LeaveDying => w.Dying? && (c.errCh.Some? || !alive)
    case BailPoll => w.Waiting? && c.resultCh.None? && c.errCh.None?
    case BailDead => w.Polled? && !alive
    case BailAlive => w.Polled? && alive
    case BailWait => w.Expiring?
    case BailAbandon => w.Expiring?
  }

  function MoveChan(move: Move, c: Chan): Chan {
    match move
    case TakeResult => c.(resultCh := None)
    case TakeError => c.(errCh := None)
    case LeaveDying => c.(errCh := None)
    case CtxDone => Abandon(c)
    case BailAbandon => Abandon(c)
    case _ => c
  }

  function MoveCaller(move: Move, c: Chan, w: Caller): Caller {
    match move
    case TakeResult => if c.resultCh.Some? then Left(Answered(c.resultCh.value)) else w
    case TakeError => if c.errCh.Some? then Left(Failed(c.errCh.value)) else w
    case CtxDone =>
      if c.resultCh.Some? && c.resultCh.value.mergedWithHead == 0 then Booking(c.resultCh.value) else Left(Canceled)
    case Watchdog => Dying
    case LeaveDying => Left(TimedOut)
    case BailPoll => Polled
    case BailDead => Left(Exited)
    case BailAlive => Expiring
    case BailWait => Waiting
    case BailAbandon => Left(if c.resultCh.Some? then Answered(c.resultCh.value) else Orphaned)
  }

  function SetCaller(s: State, id: nat, c: Caller): State {
    s.(callers := s.callers[id := c])
  }

  function SetChan(s: State, id: nat, c: Chan): State {
    s.(chans := s.chans[id := c])
  }

  /** idGen.Add and the slot literal. */
  function DoDraft(s: State): State {
    s.(nextId := s.nextId + 1,
       chans := s.chans[s.nextId := FreshChan],
       callers := s.callers[s.nextId := Drafted],
       fate := s.fate[s.nextId := Fresh])
  }

  /** The write lock and, under it, slots.mu: refuse at the bound, else append. */
  function DoTakeLock(s: State, id: nat, uuid: string): State {
    if |s.q.pending| >= MAX_PENDING_SLOTS then SetCaller(s, id, Left(Rejected))
    else SetCaller(s, id, Writing).(
      q := Enqueue(s.q, id, uuid),
      writer := Some(id),
      tickets := s.tickets[id := s.nextTicket],
      nextTicket := s.nextTicket + 1,
      fate := s.fate[id := Queued])
  }

  function DoWriteDone(s: State, id: nat, ok: bool): State {
    SetCaller(s, id, if ok then Waiting else WriteFailed).(
      writer := None,
      wire := if ok then s.wire + [id] else s.wire)
  }

  function DoRemoveFailed(s: State, id: nat): State
    requires id in s.fate
  {
    SetCaller(s, id, Left(WriteError)).(
      q := RemoveById(s.q, id),
      fate := if s.fate[id] == Queued && id !in s.q.current then s.fate[id := Removed] else s.fate)
  }

  /** onTurnResult; a result that claims nobody leaves the slots alone. */
  function DoResultFrame(s: State, ev: ResultEvent): State {
    var owners := s.q.current;
    if owners == [] then s.(q := EndTurn(s.q))
    else s.(q := EndTurn(s.q),
            turns := s.turns + [Turn(ev, owners)],
            fan := Some(Fan(0, false)),
            fate := map id | id in s.fate ::
              if id in owners then Owner(|s.turns|, PosOf(owners, id)) else s.fate[id])
  }

  /** Position of x in s, or |s|. */
  function PosOf(s: seq<nat>, x: nat): (k: nat)
    ensures x in s ==> k < |s| && s[k] == x
  {
    if s == [] || s[0] == x then 0 else 1 + PosOf(s[1..], x)
  }

  lemma {:induction false} PosOfAt(s: seq<nat>, j: nat)
    requires Distinct(s) && j < |s|
    ensures PosOf(s, s[j]) == j
  {
    assert j > 0 ==> Differ(s, 0, j);
    if j > 0 {
      forall a: nat, b: nat | a < b < |s[1..]| ensures Differ(s[1..], a, b) {
        assert Differ(s, a + 1, b + 1);
      }
      PosOfAt(s[1..], j - 1);
    }
  }

  function DoFanDeliver(s: State): State
    requires CanDeliver(s)
  {
    var k := |s.turns| - 1;
    var t := s.turns[k];
    var pos := s.fan.value.next;
    var id := t.owners[pos];
    var delivered := Accepts(s.chans[id]);
    SetChan(s, id, Deliver(s.chans[id], OwnerResult(k, t, pos)))
      .(fan := Some(Fan(pos + 1, pos == 0 && !delivered)))
  }

  function DoFanBook(s: State): State
    requires CanBook(s)
  {
    var k := |s.turns| - 1;
    s.(booked := s.booked + [HeadResult(k, s.turns[k])], fan := Some(s.fan.value.(bookHead := false)))
  }

  /** discardAllPending's locked snapshot. */
  function DoStartDiscard(s: State, reason: string): State {
    var victims := Ids(s.q.pending) + s.q.current;
    s.(q := Queue([], []),
       discards := s.discards + [Discard(victims, 0, false, reason)],
       fate := map id | id in s.fate :: if id in victims then Dropped(|s.discards|) else s.fate[id])
  }

  function DoDiscardCheck(s: State, k: nat): State
    requires HasVictim(s, k)
  {
    var d := s.discards[k];
    if s.chans[d.victims[d.next]].canceled then s.(discards := s.discards[k := d.(next := d.next + 1)])
    else s.(discards := s.discards[k := d.(checked := true)])
  }

  function DoDiscardSend(s: State, k: nat): State
    requires HasVictim(s, k)
  {
    var d := s.discards[k];
    var id := d.victims[d.next];
    SetChan(s, id, PushError(s.chans[id], d.reason))
      .(discards := s.discards[k := d.(next := d.next + 1, checked := false)])
  }

  function Apply(s: State, step: Step): State
    requires Enabled(s, step)
  {
    match step
    case Draft => DoDraft(s)
    case TakeLock(id, uuid) => DoTakeLock(s, id, uuid)
    case WriteDone(id, ok) => DoWriteDone(s, id, ok)
    case RemoveFailed(id) => DoRemoveFailed(s, id)
    case ReplayFrame(uuid) => s.(q := Replay(s.q, uuid))
    case ResultFrame(ev) => DoResultFrame(s, ev)
    case FanDeliver => DoFanDeliver(s)
    case FanBook => DoFanBook(s)
    case FanEnd => s.(fan := None)
    case StartDiscard(reason) => DoStartDiscard(s, reason)
    case DiscardCheck(k) => DoDiscardCheck(s, k)
    case DiscardSend(k) => DoDiscardSend(s, k)
    case Die => s.(alive := false)
    case BookAbandoned(id) =>
      SetCaller(s.(booked := s.booked + [s.callers[id].res]), id, Left(Canceled))
    case Own(id, move) =>
      SetCaller(SetChan(s, id, MoveChan(move, s.chans[id])), id, MoveCaller(move, s.chans[id], s.callers[id]))
  }

  /** `steps` is a run from `s` ending in `s'`: any interleaving of any threads. */
  ghost predicate Run(s: State, steps: seq<Step>, s': State)
    decreases |steps|
  {
    if steps == [] then s == s'
    else Enabled(s, steps[0]) && Run(Apply(s, steps[0]), steps[1..], s')
  }

  ghost predicate Reachable(s: State) {
    exists steps: seq<Step> :: Run(INIT, steps, s)
  }
}
