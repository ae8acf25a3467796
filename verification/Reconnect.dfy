/** What a replayed backlog says about the turn in flight at reconnect
    (internal/cli/wrapper.go), and the latch, cursor and watermark that follow
    from it (internal/cli/adopted_turn.go, internal/cli/turn_watermark.go).
    Decoding a line is an abstract function. */
module Reconnect {
  import opened Wrappers
  import opened TurnState

  datatype ServerMsg = ServerMsg(kind: string, seqNo: int, line: string)

  /** An event of a decoded line; `body` stands for everything else in it. */
  datatype Ev = Ev(kind: string, subType: string, body: nat)

  /** ReadEvent: None is a decode error. */
  type Decoder = string -> Option<seq<Ev>>

  datatype Verdict = Idle | MidTurn | Finished(result: Ev, seqNo: int) | Unknown

  const NEUTRAL_SUBTYPES: seq<string> :=
    ["task_progress", "task_updated", "task_notification", "background_tasks_changed", "session_title_changed",
     "peer_message_hold"]

  const COMMAND_LIFECYCLE := "command_lifecycle"

  predicate IsTurnNeutralEvent(ev: Ev) {
    ev.kind == "control_ack" || ev.kind == COMMAND_LIFECYCLE || (ev.kind == "system" && ev.subType in NEUTRAL_SUBTYPES)
  }

  predicate IsTurnNeutralLine(line: string) {
    || HasPrefix(line, "{\"type\":\"" + COMMAND_LIFECYCLE + "\"")
    || exists i :: 0 <= i < |NEUTRAL_SUBTYPES| && HasPrefix(line, "{\"type\":\"system\",\"subtype\":\"" + NEUTRAL_SUBTYPES[i] + "\"")
  }

  predicate Skipped(ev: Ev) { ev.kind == "" || IsTurnNeutralEvent(ev) }

  // ---------- the flattened backlog ----------

  /** An event that says something about the turn, with its frame's seq. */
  datatype Said = Said(ev: Ev, seqNo: int)

  function Meaningful(evs: seq<Ev>, seqNo: int): seq<Said> {
    if evs == [] then []
    else Meaningful(evs[..|evs| - 1], seqNo) + (if Skipped(evs[|evs| - 1]) then [] else [Said(evs[|evs| - 1], seqNo)])
  }

  function FrameSays(m: ServerMsg, decode: Decoder): seq<Said> {
    if m.kind == "replay" && decode(m.line).Some? then Meaningful(decode(m.line).value, m.seqNo) else []
  }

  /** Everything the backlog says, oldest first. */
  function BacklogSays(replays: seq<ServerMsg>, decode: Decoder): seq<Said> {
    if replays == [] then []
    else BacklogSays(replays[..|replays| - 1], decode) + FrameSays(replays[|replays| - 1], decode)
  }

  /** Lines the walk decodes; the rest it skips by their prefix. */
  function Visible(replays: seq<ServerMsg>): seq<ServerMsg> {
    if replays == [] then []
    else Visible(replays[..|replays| - 1])
         + (if IsTurnNeutralLine(replays[|replays| - 1].line) then [] else [replays[|replays| - 1]])
  }

  lemma {:induction false} SaysAppend(a: seq<ServerMsg>, b: seq<ServerMsg>, decode: Decoder)
    ensures BacklogSays(a + b, decode) == BacklogSays(a, decode) + BacklogSays(b, decode)
    decreases |b|
  {
    if b == [] {
      assert a + b == a;
    } else {
      assert (a + b)[..|a + b| - 1] == a + b[..|b| - 1];
      SaysAppend(a, b[..|b| - 1], decode);
    }
  }

  ghost predicate PrefixesTellTheTruth(decode: Decoder) {
    forall line :: IsTurnNeutralLine(line) && decode(line).Some? ==>
      forall i :: 0 <= i < |decode(line).value| ==> Skipped(decode(line).value[i])
  }

  lemma {:induction false} AllSkippedSaysNothing(evs: seq<Ev>, seqNo: int)
    requires forall i :: 0 <= i < |evs| ==> Skipped(evs[i])
    ensures Meaningful(evs, seqNo) == []
  {
    if evs != [] { AllSkippedSaysNothing(evs[..|evs| - 1], seqNo); }
  }

  /** Where a neutral prefix never hides a turn's event, skipping those lines
      undecoded changes nothing. */
  lemma {:induction false} PrefixSkipIsHarmless(replays: seq<ServerMsg>, decode: Decoder)
    requires PrefixesTellTheTruth(decode)
    ensures BacklogSays(Visible(replays), decode) == BacklogSays(replays, decode)
  {
    if replays != [] {
      var init, last := replays[..|replays| - 1], replays[|replays| - 1];
      PrefixSkipIsHarmless(init, decode);
      if IsTurnNeutralLine(last.line) {
        if decode(last.line).Some? { AllSkippedSaysNothing(decode(last.line).value, last.seqNo); }
        assert FrameSays(last, decode) == [];
        assert Visible(init) + [] == Visible(init);
      } else {
        SaysAppend(Visible(init), [last], decode);
        assert BacklogSays([last], decode) == FrameSays(last, decode);
      }
    }
  }

  // ---------- the reverse walk ----------

  ghost predicate Wrapped(replays: seq<ServerMsg>, lastSeq: int) {
    exists i :: 0 <= i < |replays| && replays[i].kind == "replay" && replays[i].seqNo > lastSeq + 1
             && forall k :: 0 <= k < i ==> replays[k].kind != "replay"
  }

  /** replayWrapped: the first replayed frame sits past the one after lastSeq. */
  method ReplayWrapped(replays: seq<ServerMsg>, lastSeq: int) returns (wrapped: bool)
    ensures wrapped <==> Wrapped(replays, lastSeq)
  {
    for i := 0 to |replays|
      invariant forall k :: 0 <= k < i ==> replays[k].kind != "replay"
    {
      if replays[i].kind == "replay" { return replays[i].seqNo > lastSeq + 1; }
    }
    return false;
  }

  /** The verdict is the last thing the backlog says; with nothing said, unknown
      exactly when the ring wrapped. */
  ghost predicate Decides(v: Verdict, says: seq<Said>, wrapped: bool) {
    if says == [] then v == (if wrapped then Unknown else Idle)
    else v == Says(says[|says| - 1])
  }

  function Says(last: Said): Verdict {
    if last.ev.kind == "result" then Finished(last.ev, last.seqNo) else MidTurn
  }

  /** The inner walk: the last meaningful event of one decoded line. */
  method FrameVerdict(events: seq<Ev>, seqNo: int) returns (v: Option<Verdict>)
    ensures var says := Meaningful(events, seqNo);
      v == if says == [] then None else Some(Says(says[|says| - 1]))
  {
    var j := |events|;
    assert events[..j] == events;
    while j > 0
      invariant 0 <= j <= |events|
      invariant Meaningful(events, seqNo) == Meaningful(events[..j], seqNo)
    {
      j := j - 1;
      assert events[..j + 1][..j] == events[..j];
      var ev := events[j];
      if Skipped(ev) { continue; }
      if ev.kind == "result" { return Some(Finished(ev, seqNo)); }
      return Some(MidTurn);
    }
    return None;
  }

  method ReconnectVerdict(replays: seq<ServerMsg>, lastSeq: int, decode: Decoder) returns (v: Verdict)
    ensures Decides(v, BacklogSays(Visible(replays), decode), Wrapped(replays, lastSeq))
  {
    var i := |replays|;
    assert replays[..i] == replays;
    while i > 0
      invariant 0 <= i <= |replays|
      invariant BacklogSays(Visible(replays), decode) == BacklogSays(Visible(replays[..i]), decode)
    {
      i := i - 1;
      VisibleStep(replays, i, decode);
      if replays[i].kind != "replay" || IsTurnNeutralLine(replays[i].line) { continue; }
      var decoded := decode(replays[i].line);
      if decoded.None? { continue; }
      var decided := FrameVerdict(decoded.value, replays[i].seqNo);
      if decided.Some? { return decided.value; }
    }
    var wrapped := ReplayWrapped(replays, lastSeq);
    v := if wrapped then Unknown else Idle;
  }

  lemma VisibleStep(replays: seq<ServerMsg>, i: nat, decode: Decoder)
    requires i < |replays|
    ensures BacklogSays(Visible(replays[..i + 1]), decode)
         == BacklogSays(Visible(replays[..i]), decode)
            + (if IsTurnNeutralLine(replays[i].line) then [] else FrameSays(replays[i], decode))
  {
    assert replays[..i + 1][..i] == replays[..i];
    SaysAppend(Visible(replays[..i]), [replays[i]], decode);
    assert BacklogSays([replays[i]], decode) == FrameSays(replays[i], decode);
    assert Visible(replays[..i]) + [] == Visible(replays[..i]);
  }

  /** Where neutral prefixes tell the truth the verdict is that of the whole
      backlog, every line decoded. */
  lemma VerdictOfWholeBacklog(v: Verdict, replays: seq<ServerMsg>, lastSeq: int, decode: Decoder)
    requires Decides(v, BacklogSays(Visible(replays), decode), Wrapped(replays, lastSeq)) && PrefixesTellTheTruth(decode)
    ensures Decides(v, BacklogSays(replays, decode), Wrapped(replays, lastSeq))
  {
    PrefixSkipIsHarmless(replays, decode);
  }

  /** A finished verdict is a result that some replayed frame holds, under that
      frame's own seq. */
  lemma {:induction false} SaidByAFrame(replays: seq<ServerMsg>, decode: Decoder, said: Said)
    requires said in BacklogSays(replays, decode)
    ensures exists i :: 0 <= i < |replays| && replays[i].kind == "replay" && replays[i].seqNo == said.seqNo
                     && decode(replays[i].line).Some? && said.ev in decode(replays[i].line).value
  {
    var n := |replays| - 1;
    if said in BacklogSays(replays[..n], decode) {
      SaidByAFrame(replays[..n], decode, said);
      var i :| 0 <= i < n && replays[..n][i].kind == "replay" && replays[..n][i].seqNo == said.seqNo
            && decode(replays[..n][i].line).Some? && said.ev in decode(replays[..n][i].line).value;
      assert replays[i] == replays[..n][i];
    } else {
      assert said in FrameSays(replays[n], decode);
      SaidByAnEvent(decode(replays[n].line).value, replays[n].seqNo, said);
    }
  }

  lemma {:induction false} SaidByAnEvent(evs: seq<Ev>, seqNo: int, said: Said)
    requires said in Meaningful(evs, seqNo)
    ensures said.seqNo == seqNo && said.ev in evs && !Skipped(said.ev)
  {
    if said in Meaningful(evs[..|evs| - 1], seqNo) { SaidByAnEvent(evs[..|evs| - 1], seqNo, said); }
  }

  // ---------- settling and applying the verdict ----------

  /** replayVerdict.settle: an unknown is resolved by the caller, and mid-turn
      without one. */
  function Settle(v: Verdict, resolve: Option<bool>): (bool, Option<(Ev, int)>) {
    match v
    case MidTurn => (true, None)
    case Finished(ev, seqNo) => (false, Some((ev, seqNo)))
    case Unknown => (resolve != Some(true), None)
    case Idle => (false, None)
  }

  datatype Outcome = Answered(ev: Ev) | CliExited

  /** adoptedTurn as an object. */
  class AdoptedTurn {
    var armed: bool
    var midTurn: bool
    var resultSeq: int
    var out: Option<Outcome>      // Some once `done` is closed

    ghost predicate Valid()
      reads this
    {
      out.Some? ==> armed
    }

    constructor ()
      ensures Valid() && !armed && out.None? && !midTurn && resultSeq == 0
    {
      armed, midTurn, resultSeq, out := false, false, 0, None;
    }

    method Arm(mid: bool, seqNo: int)
      requires Valid() && !armed
      modifies this
      ensures Valid() && armed && midTurn == mid && resultSeq == seqNo && out == old(out)
    {
      resultSeq, midTurn, armed := seqNo, mid, true;
    }

    /** resolve: the first outcome of an armed latch stays. */
    method Resolve(outcome: Outcome)
      requires Valid()
      modifies this`out
      ensures Valid() && out == if armed && old(out).None? then Some(outcome) else old(out)
    {
      if !armed { return; }
      if out.None? { out := Some(outcome); }
    }

    /** AdoptedOutcome, once `done` is closed or the context ended. */
    method Read() returns (armedThen: bool, outcome: Option<Outcome>)
      ensures armedThen == armed && outcome == if armed then out else None
    {
      if !armed { return false, None; }
      return true, out;
    }
  }

  /** A process reattached to its shim: the latch, the turn and the cursor. */
  class Reattached {
    const shimPID: int
    const turn: TurnObject
    const latch: AdoptedTurn
    var lastSeq: int
    var reading: bool              // the read loop has started

    ghost predicate Valid()
      reads this, latch
    {
      latch.Valid()
    }

    ghost function View(): Cursor
      reads this, latch
    {
      Cursor(shimPID, lastSeq, latch.armed, latch.midTurn, latch.resultSeq)
    }

    /** The tail of attachReconnected: verdict, latch, cursor, read loop. */
    constructor (pid: int, since: int, replays: seq<ServerMsg>, decode: Decoder, resolve: Option<bool>)
      ensures Valid() && reading
      ensures exists v: Verdict ::
        && Decides(v, BacklogSays(Visible(replays), decode), Wrapped(replays, since))
        && View() == Attach(pid, since, replays, v, resolve)
        && latch.out == (if v.Finished? then Some(Answered(v.result)) else None)
        && turn.View() == Transition(if Settle(v, resolve).0 then Transition(NEW_TURN, ReconnectMidTurn).(reconnected := true)
                                     else NEW_TURN, ReadLoopStart)
    {
      shimPID := pid;
      turn := new TurnObject();
      latch := new AdoptedTurn();
      lastSeq, reading := 0, false;
      new;
      var v := ReconnectVerdict(replays, since, decode);
      var settled := Settle(v, resolve);
      ApplyReconnectVerdict(settled.0, settled.1);
      var last := LastReplayedSeq(replays);
      lastSeq := if since > last then since else last;
      var prev, moved := turn.DoTransition(ReadLoopStart);
      reading := true;
    }

    /** applyReconnectVerdict: the turn and the latch, before the read loop. */
    method ApplyReconnectVerdict(midTurn: bool, finished: Option<(Ev, int)>)
      requires Valid() && !latch.armed && latch.out.None? && !reading
      modifies latch, turn, turn.abort
      ensures Valid()
      ensures turn.View() == if midTurn then Transition(old(turn.View()), ReconnectMidTurn).(reconnected := true) else old(turn.View())
      ensures latch.armed == (midTurn || finished.Some?)
      ensures latch.armed ==> latch.midTurn == midTurn && latch.resultSeq == (if midTurn then 0 else finished.value.1)
      ensures !latch.armed ==> latch.midTurn == old(latch.midTurn) && latch.resultSeq == old(latch.resultSeq)
      ensures latch.out == if !midTurn && finished.Some? then Some(Answered(finished.value.0)) else None
    {
      if midTurn {
        var prev, moved := turn.DoTransition(ReconnectMidTurn);
        turn.reconnected := true;
        latch.Arm(true, 0);
      } else if finished.Some? {
        latch.Arm(false, finished.value.1);
        latch.Resolve(Answered(finished.value.0));
      }
    }

    /** handleShimStdout's first act. */
    method Receive(seqNo: int)
      modifies this`lastSeq
      ensures View() == Received(old(View()), seqNo)
    {
      lastSeq := seqNo;
    }
  }

  // ---------- the cursor and the watermark ----------

  /** lastReplayedSeq as a method. */
  method LastReplayedSeq(replays: seq<ServerMsg>) returns (last: int)
    ensures last == HighestReplayed(replays)
  {
    last := 0;
    for i := 0 to |replays|
      invariant last == HighestReplayed(replays[..i])
    {
      assert replays[..i + 1][..i] == replays[..i];
      if replays[i].kind == "replay" && replays[i].seqNo > last { last := replays[i].seqNo; }
    }
    assert replays[..|replays|] == replays;
  }

  function HighestReplayed(replays: seq<ServerMsg>): int {
    if replays == [] then 0
    else
      var before, m := HighestReplayed(replays[..|replays| - 1]), replays[|replays| - 1];
      if m.kind == "replay" && m.seqNo > before then m.seqNo else before
  }

  lemma {:induction false} HighestIsUpperBound(replays: seq<ServerMsg>, i: nat)
    requires i < |replays| && replays[i].kind == "replay"
    ensures replays[i].seqNo <= HighestReplayed(replays)
  {
    if i < |replays| - 1 { HighestIsUpperBound(replays[..|replays| - 1], i); }
  }

  lemma {:induction false} HighestIsReached(replays: seq<ServerMsg>)
    ensures HighestReplayed(replays) == 0
         || exists i :: 0 <= i < |replays| && replays[i].kind == "replay" && replays[i].seqNo == HighestReplayed(replays)
  {
    if replays != [] {
      var n := |replays| - 1;
      HighestIsReached(replays[..n]);
      if HighestReplayed(replays) == HighestReplayed(replays[..n]) && HighestReplayed(replays) != 0 {
        var i :| 0 <= i < n && replays[..n][i].kind == "replay" && replays[..n][i].seqNo == HighestReplayed(replays);
        assert replays[i] == replays[..n][i];
      }
    }
  }

  /** What a watermark and an adoption decision read of a process. */
  datatype Cursor = Cursor(shimPID: int, lastSeq: int, armed: bool, midTurn: bool, resultSeq: int)

  datatype Watermark = Watermark(shimPID: int, seqNo: int)

  function Attach(pid: int, since: int, replays: seq<ServerMsg>, v: Verdict, resolve: Option<bool>): Cursor {
    var settled, last := Settle(v, resolve), HighestReplayed(replays);
    var cursor := if since > last then since else last;
    if settled.0 then Cursor(pid, cursor, true, true, 0)
    else if settled.1.Some? then Cursor(pid, cursor, true, false, settled.1.value.1)
    else Cursor(pid, cursor, false, false, 0)
  }

  function Received(p: Cursor, seqNo: int): Cursor { p.(lastSeq := seqNo) }

  function ReceivedAll(p: Cursor, live: seq<int>): Cursor
    decreases |live|
  {
    if live == [] then p else Received(ReceivedAll(p, live[..|live| - 1]), live[|live| - 1])
  }

  function TakeWatermark(p: Cursor): Option<Watermark> {
    if p.shimPID <= 0 then None else Some(Watermark(p.shimPID, p.lastSeq))
  }

  predicate AdoptableAfter(p: Cursor, w: Option<Watermark>) {
    || (p.armed && p.midTurn)
    || (w.Some? && p.armed && p.shimPID > 0 && (w.value.shimPID != p.shimPID || p.resultSeq > w.value.seqNo))
  }

  /** Shim seqs increase: live frames come after the replayed ones. */
  ghost predicate Increasing(from: int, live: seq<int>) {
    && (forall i :: 0 <= i < |live| ==> from < live[i])
    && (forall i, j :: 0 <= i < j < |live| ==> live[i] < live[j])
  }

  lemma {:induction false} CursorIsHighest(p: Cursor, live: seq<int>)
    requires Increasing(p.lastSeq, live)
    ensures var p' := ReceivedAll(p, live);
      && p' == p.(lastSeq := p'.lastSeq)
      && p'.lastSeq == (if live == [] then p.lastSeq else live[|live| - 1])
      && p'.lastSeq >= p.lastSeq
      && forall i :: 0 <= i < |live| ==> live[i] <= p'.lastSeq
    decreases |live|
  {
    if live != [] { CursorIsHighest(p, live[..|live| - 1]); }
  }

  /** The frames received by then: what an earlier process on this shim had (up
      to `since`), the replayed and the live ones. */
  ghost predicate HasReceived(since: int, replays: seq<ServerMsg>, live: seq<int>, seqNo: int) {
    || seqNo <= since
    || seqNo in live
    || exists i :: 0 <= i < |replays| && replays[i].kind == "replay" && replays[i].seqNo == seqNo
  }

  /** A result latched from the backlog is never adoptable for a watermark taken
      from the reattached process itself, now or after any live frames. */
  lemma OwnWatermarkRefusesReplayed(pid: int, since: int, replays: seq<ServerMsg>, lastSeq: int, decode: Decoder,
                                    v: Verdict, resolve: Option<bool>, live: seq<int>)
    requires Decides(v, BacklogSays(Visible(replays), decode), Wrapped(replays, lastSeq)) && v.Finished?
    requires Increasing(Attach(pid, since, replays, v, resolve).lastSeq, live)
    ensures var p := ReceivedAll(Attach(pid, since, replays, v, resolve), live);
      p.armed && !p.midTurn && p.resultSeq == v.seqNo && !AdoptableAfter(p, TakeWatermark(p))
  {
    var p := Attach(pid, since, replays, v, resolve);
    CursorIsHighest(p, live);
    var says := BacklogSays(Visible(replays), decode);
    SaidByAFrame(Visible(replays), decode, says[|says| - 1]);
    var i :| 0 <= i < |Visible(replays)| && Visible(replays)[i].kind == "replay" && Visible(replays)[i].seqNo == v.seqNo;
    VisibleIsReplayed(replays, Visible(replays)[i]);
    var k :| 0 <= k < |replays| && replays[k] == Visible(replays)[i];
    HighestIsUpperBound(replays, k);
  }

  lemma {:induction false} VisibleIsReplayed(replays: seq<ServerMsg>, m: ServerMsg)
    requires m in Visible(replays)
    ensures m in replays
  {
    if m in Visible(replays[..|replays| - 1]) { VisibleIsReplayed(replays[..|replays| - 1], m); }
  }

  /** For a watermark an earlier process took on the same shim, a later process's
      replayed result is adoptable exactly when it lies past everything the
      earlier one had received. */
  lemma AdoptableExactlyPastTheWatermark(pid: int, since: int, replays: seq<ServerMsg>, v: Verdict, resolve: Option<bool>,
                                         live: seq<int>, later: Cursor)
    requires pid > 0 && since >= 0 && Increasing(Attach(pid, since, replays, v, resolve).lastSeq, live)
    requires later.shimPID == pid && later.armed && !later.midTurn
    ensures var w := TakeWatermark(ReceivedAll(Attach(pid, since, replays, v, resolve), live));
      AdoptableAfter(later, w) <==> forall s :: HasReceived(since, replays, live, s) ==> later.resultSeq > s
  {
    var p := Attach(pid, since, replays, v, resolve);
    CursorIsHighest(p, live);
    var top := ReceivedAll(p, live).lastSeq;
    forall s | HasReceived(since, replays, live, s) ensures s <= top {
      if s !in live && s > since {
        var i :| 0 <= i < |replays| && replays[i].kind == "replay" && replays[i].seqNo == s;
        HighestIsUpperBound(replays, i);
      }
    }
    HighestIsReached(replays);
    assert HasReceived(since, replays, live, top);
  }
}
