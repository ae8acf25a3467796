/** The turn of a process: its state table, the flags that change with it, and
    the abort marker (internal/cli/process_turnstate.go,
    internal/cli/process_owners.go). */
module TurnState {

  datatype ProcessState = Spawning | Ready | Running | Dead

  datatype StateEvent =
    | ReconnectMidTurn | ReadLoopStart | SendBegin | SendEnd | TurnStarted | TurnEnded | Died

  /** nextState: the state after the event and whether it moved. */
  function NextState(from: ProcessState, ev: StateEvent): (ProcessState, bool) {
    if from == Dead then (Dead, false)
    else match ev
      case ReconnectMidTurn => (Running, from == Spawning)
      case ReadLoopStart => (Ready, from == Spawning)
      case SendBegin => (Running, from == Spawning || from == Ready)
      case TurnStarted => (Running, from == Spawning || from == Ready)
      case SendEnd => (Ready, from == Running)
      case TurnEnded => (Ready, from == Running)
      case Died => (Dead, true)
  }

  /** abortMarker: abort requests no result has matched yet. */
  datatype Abort = Abort(n: int, orphaned: bool, orphanRun: string)

  const NO_ABORT := Abort(0, false, "")

  function Arm(a: Abort): Abort { Abort(a.n + 1, false, "") }

  function Disarm(a: Abort): Abort { if a.n > 0 then a.(n := a.n - 1) else a }

  function Aborted(a: Abort): bool { a.n > 0 }

  function Orphaned(a: Abort): bool { a.orphaned && a.n > 0 }

  function OrphanTo(a: Abort, run: string): Abort { Abort(a.n, a.n > 0, run) }

  function Release(a: Abort): Abort { Abort(a.n, false, "") }

  /** turnState, without the session id and the hooks. */
  datatype Turn = Turn(
    state: ProcessState,
    unowned: bool,
    sendAbandoned: bool,
    abandonedBooked: bool,
    runID: string,
    abort: Abort,
    reconnected: bool,
    interrupted: bool,
    interruptedRun: bool)

  const NEW_TURN := Turn(Spawning, false, false, false, "", NO_ABORT, false, false, false)

  function Moves(t: Turn, ev: StateEvent): bool { NextState(t.state, ev).1 }

  /** transitionLocked. */
  function Transition(t: Turn, ev: StateEvent): Turn {
    if !Moves(t, ev) then t
    else
      var t1 := t.(state := NextState(t.state, ev).0, unowned := ev == TurnStarted);
      if ev != SendBegin then t1
      else t1.(abort := if t.sendAbandoned then OrphanTo(t.abort, t.runID) else t.abort,
               sendAbandoned := false,
               abandonedBooked := false)
  }

  /** claimSend. */
  function ClaimSend(t: Turn, run: string): Turn {
    if Moves(t, SendBegin) then Transition(t, SendBegin).(runID := run) else t
  }

  /** noLiveSend: nobody will consume a result read now; and whose it was. */
  function NoLiveSend(t: Turn): (bool, string) {
    (t.state == Ready || t.sendAbandoned,
     if t.sendAbandoned && !t.unowned && !t.abandonedBooked then t.runID else "")
  }

  /** resultRunID; TurnTheorems.ResultRunNamesItsSend says what it comes to. */
  function ResultRunID(t: Turn): string {
    if t.unowned then ""
    else if t.sendAbandoned then (if t.abandonedBooked then "" else t.runID)
    else if t.state != Running then ""
    else t.runID
  }

  // ---------- every sequence of events ----------

  function RunEvents(t: Turn, evs: seq<StateEvent>): Turn
    decreases |evs|
  {
    if evs == [] then t else RunEvents(Transition(t, evs[0]), evs[1..])
  }

  /** Whatever events arrive in whatever order: death is final, and a turn no
      Send owns is a running one. */
  lemma {:induction false} EventsKeepOrder(t: Turn, evs: seq<StateEvent>)
    requires t.unowned ==> t.state == Running
    ensures RunEvents(t, evs).unowned ==> RunEvents(t, evs).state == Running
    ensures t.state == Dead ==> RunEvents(t, evs) == t
    ensures Died in evs ==> RunEvents(t, evs).state == Dead
    decreases |evs|
  {
    if evs != [] {
      EventsKeepOrder(Transition(t, evs[0]), evs[1..]);
    }
  }

  /** abortMarker as an object; every method holds its mutex throughout. */
  class AbortMarker {
    var n: int
    var orphaned: bool
    var orphanRun: string

    ghost function View(): Abort
      reads this
    {
      Abort(n, orphaned, orphanRun)
    }

    constructor ()
      ensures View() == NO_ABORT
    {
      n, orphaned, orphanRun := 0, false, "";
    }

    method DoArm()
      modifies this
      ensures View() == Arm(old(View()))
    {
      n := n + 1;
      orphaned, orphanRun := false, "";
    }

    method DoDisarm()
      modifies this`n
      ensures View() == Disarm(old(View()))
    {
      if n > 0 { n := n - 1; }
    }

    method Take() returns (aborted: bool, orphan: bool, run: string)
      modifies this
      ensures aborted == Aborted(old(View())) && orphan == Orphaned(old(View()))
      ensures run == if orphan then old(orphanRun) else ""
      ensures View() == NO_ABORT
    {
      aborted, orphan := n > 0, orphaned && n > 0;
      run := "";
      if orphan { run := orphanRun; }
      n, orphaned, orphanRun := 0, false, "";
    }

    method Orphan(run: string)
      modifies this`orphaned, this`orphanRun
      ensures View() == OrphanTo(old(View()), run)
    {
      orphaned := n > 0;
      orphanRun := run;
    }

    method DoRelease()
      modifies this`orphaned, this`orphanRun
      ensures View() == Release(old(View()))
    {
      orphaned, orphanRun := false, "";
    }
  }

  /** turnState as an object; every method holds its mutex throughout. */
  class TurnObject {
    var state: ProcessState
    var unowned: bool
    var sendAbandoned: bool
    var abandonedBooked: bool
    var runID: string
    var reconnected: bool
    var interrupted: bool
    var interruptedRun: bool
    const abort: AbortMarker

    ghost function View(): Turn
      reads this, abort
    {
      Turn(state, unowned, sendAbandoned, abandonedBooked, runID, abort.View(), reconnected, interrupted, interruptedRun)
    }

    constructor ()
      ensures View() == NEW_TURN && fresh(abort)
    {
      state, unowned, sendAbandoned, abandonedBooked, runID := Spawning, false, false, false, "";
      reconnected, interrupted, interruptedRun := false, false, false;
      abort := new AbortMarker();
    }

    method DoTransition(ev: StateEvent) returns (prev: ProcessState, moved: bool)
      modifies this, abort
      ensures View() == Transition(old(View()), ev)
      ensures prev == old(state) && moved == Moves(old(View()), ev)
    {
      prev := state;
      var next := NextState(prev, ev);
      moved := next.1;
      if moved {
        state := next.0;
        unowned := ev == TurnStarted;
        if ev == SendBegin {
          if sendAbandoned { abort.Orphan(runID); }
          sendAbandoned, abandonedBooked := false, false;
        }
      }
    }

    method DoClaimSend(run: string) returns (prev: ProcessState, claimed: bool)
      modifies this, abort
      ensures View() == ClaimSend(old(View()), run)
      ensures prev == old(state) && claimed == Moves(old(View()), SendBegin)
    {
      prev, claimed := DoTransition(SendBegin);
      if claimed { runID := run; }
    }

    method ReadNoLiveSend() returns (none: bool, abandonedRun: string)
      ensures (none, abandonedRun) == NoLiveSend(View())
    {
      abandonedRun := "";
      if sendAbandoned && !unowned && !abandonedBooked { abandonedRun := runID; }
      none := state == Ready || sendAbandoned;
    }

    method ReadResultRunID() returns (run: string)
      ensures run == ResultRunID(View())
    {
      if unowned { return ""; }
      if sendAbandoned {
        if abandonedBooked { return ""; }
      } else if state != Running {
        return "";
      }
      return runID;
    }

    /** Interrupt's critical section; whether it armed the marker. */
    method BeginInterrupt() returns (was: ProcessState, armed: bool)
      modifies this`interrupted, this`interruptedRun, abort
      ensures was == old(state) && armed == (was == Running)
      ensures View() == Interrupted(old(View()))
    {
      was := state;
      interrupted, armed := true, false;
      if state == Running {
        interruptedRun := true;
        abort.DoArm();
        armed := true;
      }
    }
  }

  function Interrupted(t: Turn): Turn {
    if t.state == Running then t.(interrupted := true, interruptedRun := true, abort := Arm(t.abort))
    else t.(interrupted := true)
  }
}
