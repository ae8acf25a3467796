# The turn and slot protocol of one CLI process

naozhi drives a long-lived CLI through a shim. Many senders share one process, one read loop consumes its
frames, callers may cancel at any moment, and the process may die or be reattached in the middle of a turn.
This project models who gets which result, and the byte, file and argv layers that protocol stands on, and
proves the properties the code's comments argue for.

`dafny verify dfyconfig.toml` checks everything.

## How it is laid out

**Passthrough slots.** `SlotQueue` is the queue of pending and claimed slots; `SlotChannel` one slot's channels
and cancel mark. `SlotProtocol` is the step system: every lock section of a send, of the read loop, of a
cancellation, a watchdog or bail exit and of a discard is one step, and any order of enabled steps is a run.
`SlotSafety` holds the inductive invariant, `SlotExits` a second one about how calls end while the process lives,
`SlotTheorems` and `SlotMoney` what follows for every run.
`SlotObjects` has the mutable slots and the array-backed list, with the in-place removals, sweeps and
hand-overs, each proved against the queue functions the step system uses.

**Turn ownership.** `TurnState` is the state table, the flags and the abort marker, as values and as the objects
that hold them. `TurnProtocol` interleaves Send callers, the read loop, interrupts, kills and the reconnect
hand-over, one lock section, clock reading or channel operation at a time; where a step takes an operation together
with what its goroutine does next, "Left out" names it. `TurnSafety` is the invariant of all
runs, `SendOwnership` that of Send-only runs (no passthrough slot is ever queued), `TurnRuns` a second one about the
run a result's log entry names, `TurnTheorems` the results.
`Drain` is `drainStaleEvents` over the real queue, with timer and context firing whenever they like.

**Reconnect.** `Reconnect` has the reverse walk over a replayed backlog, the latch and the cursor;
`TurnWatermark` the watermark's text form; `EndHook` the one-shot delivery of a process's end.

**Bytes and files.** `Lines` defines cutting a stream into lines and the buffered reader. `ShimReader` and
`ShimWriter` are the two framing loops, `Utf8` and `JsonQuote` the quoting between them, `EachLine` the
transcript's line loop, `UsageSeek` the bisection over a transcript and `UsageTotals` the accumulation.

**Names and argv.** `Slug` is the project directory name, `Argv` the spawn argv and the settings source read
back from it.

## Premises

- Steps are atomic at the lock and channel boundaries named above. The socket is a log plus the choice that a
  write fails. Clock readings never go back.
- Timers, cancellations, kills and deaths are steps that may happen whenever their `select` is open.
- Decoding a line is an abstract function (`Reconnect.Decoder`, `UsageSeek.Decoder`).
- Shim sequence numbers increase per shim (`Reconnect.Increasing`).
- Transcript usage lines are in time order and at most `maxLine` long, and a piece of a line decodes only if it
  begins that line, to what the whole line does (`InTimeOrder`, `WithinLimit`, `PiecesTell`).
- A drain runs without a concurrent producer and starts with at most the channel's capacity queued.
- How near the bisected start is to the last usage line at or before the cutoff is stated for transcripts in which
  a probe from before that line reaches some usage line (`ProbesReach`); `usageSeek`'s comment allows for probes
  that find none, and `SeekMayStartFar` shows that without the premise nothing holds: whatever the limits, some
  sound file's start is too early. That no row is missed never depends on it.
- The buffered reader may report the end of its source together with the last bytes or after them; when the
  rest just fills the buffer both are allowed.

## Where code and comments part

- **A result's cost can be lost.** It reaches exactly one place if and only if the head's caller did not leave
  through the watchdog arm, the bail arm's early exit on a dead process, or a failed write: those do not look
  at the result channel again (`CostReachesOnePlace`). `UnreadExitLosesCost` is a run that loses it. What can be
  seen beforehand is enough in one direction: while the process lives and the head's line has reached it, the
  cost arrives (`CostArrivesWhileAlive`).
- **Whose orphan.** A result taken under the orphan mark is booked under the run the mark carries. That is the
  last Send to give up exactly when its successor has not given up meanwhile (`OrphanIsLastToGiveUp`);
  `OrphanOfAnEarlierSend` reaches the other case.
- **`shimWriter.Write`'s count.** Its comment promises the input bytes accepted. After a refused frame the count is
  that if and only if the fast path was taken; the slow path always counts the refused line too, and may count
  bytes buffered by earlier calls (`ReportedCountIsExactIff`, `RefusedLineIsCounted`).
- **A blank frame does go out.** A lone newline on an empty buffer takes the fast path (`LoneNewlineIsSent`).
- **`eachLine`'s limit.** The comment says lines over `maxLine` are skipped; lines up to one reader buffer longer than
  the whole buffers in `maxLine` pass (`PassesExactly`).
- **Argv.** BuildArgs passes model and effort unguarded, and its resume pattern admits `--setting-sources`. The
  settings source read back differs from the recorded one if and only if the token after the last such value (of
  those followed by one) says the opposite about the user's settings (`SourceRoundTrip`, for every option set;
  `Misread` is read off the options). Values that do not start with '-' lose nothing (`PlainValuesRoundTrip`).
- **A cancelled drain reorders.** On cancellation in the sweep the held events go behind the rest of the queue;
  in the settle wait they are dropped (`DrainStaleEvents`).
- **Watermark text.** Parsing accepts a sign and leading zeros, so parsing is stable but not injective
  (`ParseIsStable`).

## Model

| member | source | states |
|---|---|---|
| SlotTheorems.QueueInvariant | internal/cli/passthrough.go:71-106 | in every run at most 16 slots are pending, with distinct ids, in write-lock order, and a slot is marked replayed exactly when it is claimed |
| SlotTheorems.QueueFollowsWire | internal/cli/passthrough.go:64-97 | two pending slots whose lines are on the socket stand in the same order in both places |
| SlotTheorems.ClaimedOnce | internal/cli/passthrough.go:519-529 | no slot is claimed by two turns, or twice by one |
| SlotTheorems.OneOutcome | internal/cli/passthrough.go:434-450 | over a whole run a slot gets at most one result and never a result and an error |
| SlotTheorems.ChannelNeverFull | internal/cli/passthrough.go:434-450 | the "resultCh full" branch is unreachable: a delivery is refused exactly for a canceled slot |
| SlotTheorems.DiscardReachesAll | internal/cli/passthrough.go:470-488 | whoever was pending or claimed when a discard began has, once it is done and whatever else ran, an error waiting, a tombstone or has left |
| SlotTheorems.DiscardTellsAll | internal/cli/passthrough.go:482-488 | when a discard is done every victim that neither canceled nor left has an error waiting |
| SlotTheorems.NobodyStranded | internal/cli/passthrough.go:134-192 | a waiting caller is queued, or a fan-out or discard has yet to reach it, or its answer is in its channel |
| SlotTheorems.CostReachesOnePlace | internal/cli/passthrough.go:391-428 | a claimed result reaches exactly one of head's caller and hook if and only if the head did not leave through one of three unread exits |
| SlotTheorems.CostArrivesWhileAlive | internal/cli/passthrough.go:156-192 | while the process lives and the head's line has reached it, the cost of a turn whose head has left reaches exactly one place |
| SlotExits.ReachableExits | internal/cli/passthrough.go:156-179 | while the process lives no call has exited on finding it dead, one that timed out took a discard's error, and a line on the socket is a call's whose write did not fail |
| SlotTheorems.HeadPaysFollowersDoNot | internal/cli/passthrough.go:391-428 | the head's result carries the frame's whole cost, a follower's none, and the hook only ever gets heads' results |
| SlotTheorems.UnreadExitLosesCost | internal/cli/passthrough.go:156-167 | a run in which the watchdog exit leaves a result unread and unbooked |
| SlotMoney.CostConserved | internal/cli/passthrough.go:149-208 | in every reachable state the cost of all claimed results equals what callers hold, channels hold, the fan-out carries and the hook booked |
| SlotSafety.ReachableOk | internal/cli/passthrough.go:36-125 | every reachable state satisfies the invariant on queue, fates, turns, discards, channels, tickets and bookings |
| SlotTheorems.GivingUpTakesOrRefuses | internal/cli/passthrough.go:149-207 | a caller that gives up has in hand the result delivered before, if any, and none is delivered to it after, in any continuation |
| SlotQueue.WithoutOrder | internal/cli/passthrough.go:295-336 | removal keeps a strictly increasing selection of positions, so it never reorders |
| SlotQueue.WithoutKeeps | internal/cli/passthrough.go:295-336 | removal keeps exactly the entries whose id is not a victim's |
| SlotQueue.ReplayClaims | internal/cli/passthrough.go:358-384 | a replay frame claims what its uuid names, or sweeps, and keeps ids, order and the mark-iff-claimed invariant |
| SlotQueue.MergedReplayClaimsAll | internal/cli/passthrough.go:367-384 | a replay whose uuid matches nothing claims every pending slot not yet claimed |
| SlotQueue.EndTurnOk | internal/cli/passthrough.go:519-529 | ending a turn removes exactly the claimed slots and keeps the invariant |
| SlotObjects.SendSlots.RemoveSlotByID | internal/cli/passthrough.go:279-291 | the in-place removal leaves the queue function's result |
| SlotObjects.SendSlots.RemoveSlots | internal/cli/passthrough.go:295-336 | scan, map and shrink paths all leave the order-preserving filter |
| SlotObjects.SendSlots.Compact | internal/cli/passthrough.go:295-336 | the kept slots move down in order, whichever membership test is used |
| SlotObjects.SendSlots.Shrink | internal/cli/passthrough.go:318-336 | a mostly empty array is replaced by a smaller one with the same slots |
| SlotObjects.SendSlots.HandleReplay | internal/cli/passthrough.go:358-384 | the in-place claim or sweep is the queue's replay step |
| SlotObjects.SendSlots.FindSlotByUUID | internal/cli/passthrough.go:340-350 | the first pending slot with that uuid, or none |
| SlotObjects.SendSlots.Sweep | internal/cli/passthrough.go:371-384 | every unclaimed slot is claimed, in queue order |
| SlotObjects.SendSlots.Enqueue | internal/cli/passthrough.go:72-90 | appends if and only if fewer than 16 are pending |
| SlotObjects.SendSlots.Append | internal/cli/passthrough.go:89-90 | appends in place or into a larger array, and keeps what was there |
| SlotObjects.SendSlots.OnTurnResult | internal/cli/passthrough.go:519-529 | hands out the claimed slots in claim order and removes exactly them |
| SlotObjects.SendSlots.TakeAll | internal/cli/passthrough.go:470-481 | hands out every pending and claimed slot and empties both lists |
| SlotObjects.FanoutTurnResult | internal/cli/passthrough.go:391-428 | each owner's channel is the step system's delivery, and a refused head is booked |
| SlotObjects.TellAll | internal/cli/passthrough.go:482-488 | every victim's channel is told, and no other changes |
| SlotObjects.SendSlot.TellDiscarded | internal/cli/passthrough.go:482-488 | the error is queued unless the slot is canceled or already has one |
| SlotObjects.SendSlot.DeliverSlotResult | internal/cli/passthrough.go:434-450 | delivers unless canceled or full, and says which |
| SlotObjects.SendSlot.AbandonSlot | internal/cli/passthrough.go:198-207 | tombstones and takes whatever result was waiting |
| TurnState.EventsKeepOrder | internal/cli/process_turnstate.go:29-65 | over any sequence of events death is final and an unowned turn is Running |
| TurnState.TurnObject.DoTransition | internal/cli/process_owners.go:77-92 | the locked transition: state, unowned mark, orphan mark and abandoned flags |
| TurnState.TurnObject.DoClaimSend | internal/cli/process_owners.go:96-104 | a claim moves and records its run, or changes nothing |
| TurnState.TurnObject.ReadNoLiveSend | internal/cli/process_owners.go:110-117 | whether anybody will consume a result read now, and whose it was |
| TurnTheorems.ResultRunNamesItsSend | internal/cli/process_owners.go:127-143 | in every Send-only run the value `ReadResultRunID` returns is the live Send's run; once that Send gave up, its run until a result of it is booked and nothing after; nothing for a turn the CLI started or while nobody sends |
| TurnState.TurnObject.BeginInterrupt | internal/cli/process_send.go:322-343 | sets the flags, and arms the marker exactly while Running |
| TurnState.AbortMarker.Take | internal/cli/process_owners.go:252-262 | one result takes every armed request, and says whether the mark made it an orphan |
| TurnState.AbortMarker.DoArm | internal/cli/process_owners.go:233-239 | one more request, and no orphan mark |
| TurnState.AbortMarker.DoDisarm | internal/cli/process_owners.go:241-248 | one request less, never below zero |
| TurnState.AbortMarker.Orphan | internal/cli/process_owners.go:266-271 | the mark, with its run, only while a request is pending |
| TurnState.AbortMarker.DoRelease | internal/cli/process_owners.go:275-279 | the mark is lifted and the requests stay |
| TurnTheorems.UnownedIsRunning | internal/cli/process_owners.go:77-92 | in every run a turn no Send owns is Running |
| TurnTheorems.DeadIsFinal | internal/cli/process_turnstate.go:29-46 | no run leads out of Dead |
| TurnTheorems.AbortsNeverOutnumberRequests | internal/cli/process_owners.go:224-291 | in every run results marked aborted plus pending requests never exceed requests made, and the count is never negative |
| TurnTheorems.LatchSettlesOnce | internal/cli/adopted_turn.go:185-195 | what the latch holds it holds forever, it is settled once the read loop is gone, and a read-loop result in it is never claimed by a slot |
| TurnTheorems.SendsNeverOverlap | internal/cli/process_send.go:105-112 | in Send-only runs at most one Send is live, and the turn is its own: Running (or dead), not unowned, under its run |
| TurnTheorems.ClaimFindsNobody | internal/cli/process_owners.go:96-104 | a claim succeeds exactly from Spawning or Ready, and then no Send is live and no reconnect's or CLI's turn runs |
| TurnTheorems.OnlyItsSendEndsATurn | internal/cli/process_readloop.go:642-678 | Running becomes Ready only by the live Send's own end or while no Send is live |
| TurnTheorems.NoStaleAnswers | internal/cli/process_send.go:200-204 | a returned result was received after the claim, ended nobody else's turn and is no orphan |
| TurnTheorems.OrphansGoToTheirRun | internal/cli/process_readloop.go:664-668 | a result taken under the orphan mark is booked under the displaced run and no other, and never queued or returned |
| TurnTheorems.OrphanIsLastToGiveUp | internal/cli/process_owners.go:83-88 | that run is the last Send to give up if and only if its successor has not given up too, or runs under the same id |
| TurnTheorems.OrphanOfAnEarlierSend | internal/cli/process_owners.go:266-271 | a reachable state where it is an earlier one |
| TurnTheorems.LogNamesTheRun | internal/cli/process_readloop.go:632-638 | a returned result was logged under the run of the Send that returns it, and a logged orphan under the run it is booked for |
| TurnRuns.StepNamed | internal/cli/process_readloop.go:632-678 | every step of a Send-only run keeps that each result is logged once, before it is queued, under its taker's run |
| SendOwnership.StepOwned | internal/cli/process_readloop.go:642-678 | every step of a Send-only run keeps ownership, freshness and booking |
| TurnSafety.StepGeneral | internal/cli/process_owners.go:224-291 | every step of any run keeps the abort count, the claims and the latch |
| Drain.EventQueue.DrainStaleEvents | internal/cli/process_turn.go:91-183 | on normal return every pre-cutoff event is gone, every removed result booked in order, the rest back in order but for one consumed result; what a cancelled drain leaves |
| Drain.EventQueue.Settle | internal/cli/process_turn.go:106-142 | the wait removes what came before a result, holds what is fresh and books the result |
| Drain.EventQueue.SafeReenqueue | internal/cli/process_turn.go:190-206 | puts back if open and not full, drops otherwise |
| Drain.EventQueue.Sweep | internal/cli/process_turn.go:143-182 | without blocking, earlier events go, later ones are held, until the queue is empty or the context ends |
| Drain.EventQueue.BookDroppedResult | internal/cli/process_turn.go:331-336 | a dropped result is booked and lifts the orphan mark; another event changes nothing |
| Drain.KeptWhenSettling | internal/cli/process_turn.go:119-129 | with a settle wait, what stays is the queue without its first result, filtered by the cutoff |
| Drain.KeptWithoutSettling | internal/cli/process_turn.go:148-171 | without one, exactly the later events stay and the earlier results are removed |
| Reconnect.ReconnectVerdict | internal/cli/wrapper.go:657-685 | the reverse walk's verdict is the last thing the flattened backlog says; unknown exactly when it says nothing and the ring wrapped |
| Reconnect.FrameVerdict | internal/cli/wrapper.go:668-679 | the last meaningful event of one frame decides it |
| Reconnect.ReplayWrapped | internal/cli/wrapper.go:689-696 | the first replayed frame sits past lastSeq+1 |
| Reconnect.PrefixSkipIsHarmless | internal/cli/wrapper.go:734-756 | where neutral prefixes tell the truth, skipping those lines undecoded changes nothing |
| Reconnect.VerdictOfWholeBacklog | internal/cli/wrapper.go:657-685 | there the verdict is that of the whole backlog, every line decoded |
| Reconnect.SaidByAFrame | internal/cli/wrapper.go:670-679 | a finished verdict's result is held by a replayed frame, under that frame's own seq |
| Reconnect.Reattached.constructor | internal/cli/wrapper.go:607-624 | verdict, latch and cursor are all in place when the read loop starts |
| Reconnect.Reattached.ApplyReconnectVerdict | internal/cli/adopted_turn.go:127-144 | mid-turn arms the turn, a finished result is latched at once, idle arms nothing |
| Reconnect.AdoptedTurn.Resolve | internal/cli/adopted_turn.go:185-195 | an armed latch keeps its first outcome |
| Reconnect.AdoptedTurn.Arm | internal/cli/adopted_turn.go:76-81 | the latch is armed, with its kind and seq, and not settled |
| Reconnect.AdoptedTurn.Read | internal/cli/adopted_turn.go:263-275 | readers get the latched outcome, and only of an armed latch |
| Reconnect.Reattached.Receive | internal/cli/process_readloop.go:318-319 | a live frame moves the cursor to its seq |
| Reconnect.LastReplayedSeq | internal/cli/wrapper.go:699-707 | the highest replayed seq |
| Reconnect.HighestIsReached | internal/cli/wrapper.go:699-707 | that maximum is 0 or some replayed frame's |
| Reconnect.OwnWatermarkRefusesReplayed | internal/cli/wrapper.go:615-619 | a result latched from the backlog is never adoptable for a watermark of the reattached process, now or after any live frames |
| Reconnect.AdoptableExactlyPastTheWatermark | internal/cli/adopted_turn.go:244-252 | on the same shim a replayed result is adoptable if and only if it lies past every frame the watermark's process had received |
| TurnWatermark.PrintedParsesBack | internal/cli/turn_watermark.go:20-40 | a printed watermark parses back if and only if its pid is positive and its seq not negative |
| TurnWatermark.FormatParses | internal/cli/turn_watermark.go:19-39 | every 64-bit integer's decimal form parses to it and holds no colon |
| TurnWatermark.ParseIsStable | internal/cli/turn_watermark.go:26-40 | whatever parses, printing and parsing again gives the same |
| EndHook.DeliveredOnceAtFirstMeeting | internal/cli/process_end.go:47-106 | over any order of calls the end is delivered exactly once, when a callback and an end first meet, to that callback |
| EndHook.DeliveredIffMet | internal/cli/process_end.go:100-106 | it has been delivered if and only if the two have met |
| EndHook.EndHookObject.DoSetOnEnd | internal/cli/process_end.go:47-56 | rebinding delivers a waiting end once |
| EndHook.EndHookObject.DoFireEnd | internal/cli/process_end.go:72-80 | ending delivers to the bound callback once |
| EndHook.EndHookObject.Take | internal/cli/process_end.go:100-106 | the end is taken when both halves are there and it was not taken before |
| ShimReader.ReadShimLine | internal/cli/process_readloop.go:440-481 | for every buffer size: the next line, flagged if and only if over the cap, resuming just past it; at the end the partial line and the error |
| ShimReader.ReadAll | internal/cli/process_readloop.go:177-201 | successive reads are exactly the stream's lines, an overlong one costing no other |
| ShimReader.DrainLine | internal/cli/process_readloop.go:466-479 | the drain stops at the next message or the stream's end |
| ShimReader.MessagesSplitAtBoundary | internal/cli/process_readloop.go:177-201 | what is read from a stream and its continuation is what is read from it, then from its unfinished line and the continuation |
| ShimReader.TrimUndoesFraming | internal/cli/process_readloop.go:203-212 | trimming undoes either line end, unless the payload itself ends in a carriage return |
| Lines.LinesAreTheOnlyCut | internal/cli/process_readloop.go:440-481 | no other division of a stream is a list of lines and an unfinished rest |
| Lines.LinesJoinBack | internal/cli/process_readloop.go:440-481 | the lines and the rest are the stream, each line with one newline, at its end |
| Lines.Reader.ReadSlice | internal/cli/process_readloop.go:447-465 | what a buffered read may return: a chunk to the newline, a full buffer without one, or what was left |
| ShimWriter.Writer.Write | internal/cli/process_shim_io.go:31-107 | all or nothing while no frame is refused, nothing of a call with an oversized line, and the state and count after a refusal |
| ShimWriter.Writer.AllFit | internal/cli/process_shim_io.go:52-71 | whether every complete buffered line is within the cap |
| ShimWriter.Writer.Drain | internal/cli/process_shim_io.go:73-106 | the non-blank lines are sent in order up to the first refused one |
| ShimWriter.FragmentationDoesNotMatter | internal/cli/process_shim_io.go:49-107 | however the input is cut, the non-blank frames are the non-blank lines of the concatenation and the buffer is its tail |
| ShimWriter.LoneNewlineIsSent | internal/cli/process_shim_io.go:35-47 | the only blank frame sent is a lone newline on an empty buffer |
| ShimWriter.ReportedCountIsExactIff | internal/cli/process_shim_io.go:73-103 | after a refusal the count is the input bytes in accepted lines if and only if the fast path was taken, and never less |
| ShimWriter.RefusedLineIsCounted | internal/cli/process_shim_io.go:94-103 | with nothing buffered and two lines, refusing the first reports two bytes although none was accepted |
| ShimWriter.HandledCount | internal/cli/process_shim_io.go:76-104 | the lines handled, the refused one included, end past what was buffered and within the data |
| JsonQuote.AppendJSONStringBytes | internal/cli/process_shim_io.go:218-288 | the copying loop appends the quoted form |
| JsonQuote.Next | internal/cli/process_shim_io.go:221-282 | how far the next piece reaches and its escape, unless it stands for itself |
| JsonQuote.SendLine | internal/cli/process_shim_io.go:190-208 | the frame's bytes |
| JsonQuote.QuoteReadsBack | internal/cli/process_shim_io.go:210-217 | reading the quoted form, whatever follows, gives the string with each invalid byte as U+FFFD, the string itself if and only if it was valid |
| JsonQuote.BodyIsClean | internal/cli/process_shim_io.go:210-217 | no control byte and no invalid UTF-8 in the quoted form |
| JsonQuote.FrameIsOneLine | internal/cli/process_shim_io.go:190-208 | a frame holds one newline, at its end, and reads back as its line |
| JsonQuote.WireReadsBack | internal/cli/process_shim_io.go:190-208 | the wire cuts back into the frames sent, each reading as its line |
| JsonQuote.WritesArrive | internal/cli/process_shim_io.go:31-107 | valid lines written in any fragments arrive as themselves |
| Utf8.RepairIsValid | internal/cli/process_shim_io.go:255-265 | repairing gives valid UTF-8 and changes nothing if and only if it already was |
| Utf8.EncodeDecoded | internal/cli/process_shim_io.go:255-281 | decoding a valid sequence and encoding it is the identity |
| EachLine.EachLineAt | internal/claudefs/coststate.go:72-108 | the calls are the passing lines with their offsets, up to the first that ends the read, then the unfinished line |
| EachLine.NextLine | internal/claudefs/coststate.go:77-97 | one line gathered from its chunks, or skipped once it cannot fit |
| EachLine.PassesExactly | internal/claudefs/coststate.go:80-87 | for every buffer and limit a line passes if and only if it is at most one buffer longer than the whole buffers in the limit |
| UsageSeek.ProbeUsage | internal/claudefs/usage.go:149-159 | the first usage line beginning in the probed bytes and ending there, or none such |
| UsageSeek.UsageSeek | internal/claudefs/usage.go:134-144 | the start is the given one or a usage line not later than the cutoff, and near the last such line when probes reach |
| UsageSeek.SeekMayStartFar | internal/claudefs/usage.go:129-144 | whatever the limits, there is a sound file none of whose possible starts is near its last usage line |
| UsageSeek.MissesStayPut | internal/claudefs/usage.go:134-144 | probes that all fall short leave the start where it was |
| UsageSeek.SeekEqualsFull | internal/claudefs/usage.go:129-144 | starting there gives exactly the window's rows that starting at the original offset gives |
| UsageSeek.ReadUsage | internal/claudefs/usage.go:105-110 | reading from a position gives the usage of the lines from there |
| UsageSeek.ReadWindow | internal/claudefs/usage.go:105-127 | with or without the bisection the window's rows are those of a full read |
| UsageTotals.OneRowAMessage | internal/claudefs/usage.go:216-231 | however its lines repeat a message has one row |
| UsageTotals.RowsHoldLargest | internal/claudefs/usage.go:221-226 | each count of a row is the largest any of its message's lines has |
| UsageTotals.SameMessagesSeen | internal/claudefs/usage.go:227-231 | the rows are for exactly the messages seen |
| UsageTotals.UsageAcc.Lines | internal/claudefs/usage.go:216-231 | after a read the rows are the window's messages |
| UsageTotals.UsageAcc.Line | internal/claudefs/usage.go:216-231 | a line in the window raises its message's row or adds one |
| UsageTotals.Totals | internal/claudefs/usage.go:266-293 | one row for exactly the models with tokens, holding the model's sum over all messages |
| UsageTotals.TranscriptUsage | internal/claudefs/usage.go:62-69 | one transcript end to end: with or without the bisection, the totals of the window's messages in a full read from the offset |
| UsageTotals.AddTokens | internal/claudefs/usage.go:277-293 | one more row keeps the totals right |
| Slug.EncodeSegment | internal/claudefs/path.go:258-294 | fast path and loop both give the per-UTF-16-code-unit encoding |
| Slug.EncodeIsStable | internal/claudefs/path.go:248-294 | the encoding is over [A-Za-z0-9-], never longer, and idempotent |
| Slug.SlugHash | internal/claudefs/path.go:308-329 | the base-36 absolute value of the wrapped 31-polynomial of the UTF-16 code units |
| Slug.MixIsPoly | internal/claudefs/path.go:309-320 | wrapping at every operation is wrapping the polynomial once |
| Slug.HashIsShort | internal/claudefs/path.go:321-328 | at most six digits |
| Slug.ProjectSlug | internal/claudefs/path.go:237-246 | control bytes stripped, then encoded, or cut at 200 with the hash; at most 207 bytes over [A-Za-z0-9-] |
| Slug.StripControlBytes | internal/claudefs/path.go:343-351 | exactly the bytes below 0x20 are gone |
| Argv.FilterDeniedFlags | internal/cli/protocol_claude.go:292-327 | pre-scan and loop give the filter |
| Argv.FilterIsIdempotent | internal/cli/protocol_claude.go:292-327 | no denied flag is left in bare or `=` form, filtering again changes nothing, and a list is unchanged if and only if it was clean |
| Argv.TableIsBare | internal/cliinfo/argv.go:18-61 | every denied name starts with "--" and has no "=", so both forms are recognised |
| Argv.CapExtraArgsBytes | internal/cli/protocol_claude.go:268-287 | nothing over the byte cap, else the filtered list |
| Argv.ExtraArgsOverCap | internal/cli/protocol_claude.go:278-287 | whether all arguments with their separators exceed 128 KiB |
| Argv.ClaudeProtocol.BuildArgs | internal/cli/protocol_claude.go:102-212 | the argv, flag by flag with its guards, and the recorded settings source |
| Argv.ClaudeProtocol.SeedSettingsFromArgs | internal/cli/protocol_claude_models.go:68-72 | the source read back fills an unknown one and replaces none |
| Argv.SpawnThenReattach | internal/cli/protocol_claude_models.go:63-72 | a process reattached from the recorded argv knows the source the spawned one did, if and only if no misread token contradicts it |
| Argv.SettingsSourceFromArgs | internal/cli/protocol_claude_models.go:81-105 | the last list and file read decide |
| Argv.SourceRoundTrip | internal/cli/protocol_claude_models.go:74-105 | for every option set, the source read back from BuildArgs' argv differs from the recorded one if and only if a misread token says the opposite about the user's settings |
| Argv.PlainValuesRoundTrip | internal/cli/protocol_claude_models.go:74-105 | it is the recorded one whenever model, effort and resume id do not start with '-' |
| Argv.FinalList | internal/cli/protocol_claude_models.go:82-95 | the list in force at the end is the misread token if there is one, else the one BuildArgs wrote |
| Argv.ModelNamedLikeTheFlag | internal/cli/protocol_claude.go:166-168 | a model spelled like the flag, with an effort, hides that the user's own settings were used |
| Argv.SourcesNameUser | internal/cli/protocol_claude.go:216-225 | the list names the user's settings exactly when its base does |

## Left out

- Send's `select` loop and SendPassthrough's body appear as steps of the two systems, not as methods: a Dafny method cannot be interleaved with others in the middle.
- A panic in an `onEvent` callback between `onTurnResult` and the fan-out, and the recovery from it.
- `findResultSince`, the EventLog but for the run a result's entry names, and everything only the dashboard reads: Send's claims are for the `eventCh` path.
- Real time: budgets, bail grace, checking intervals and `turnStartedAt`; a timer step may come at any moment its guard allows.
- `SetOnUnownedResult` rebinding: the hook is taken as set, and a booking is a call of it.
- `controlAcks`, `SetModel` and the startup-failure texts; holding a startup reject is modelled as a choice of the step `Take`.
- 64-bit overflow of slot ids, abort counts, offsets and token sums.
- The message text itself, and of `priority: "now"` all but the abort request it makes, which do not affect who owns a result.
- Directory walking for sub-agent transcripts, `decodeUsage`'s JSON and `decodeCostState`.
- Paths other than Unix ones in `filepath.IsAbs`.
- `setDeathReason`'s first-writer rule and the death texts.
- The mutexes as objects, and the memory model of `sync.Once`: `resolve` is one step.
- What could fall between the parts of these steps of `TurnProtocol`: `HandOver` and `PassOn` (`deliverEvent`'s kill probe, then death or the queueing), `Take`, `SettleTake` and `SweepTake` (a receive, then the flags cleared or the drop booked), `SweepEnd` and `DrainCancel` (the empty or cancelled select, then the `done` check), `LogResult` (`resultRunID`, then the log's append), and a booking with the call of the hook.
- SlotTheorems.CostReachesOnePlace: does not cover a slot whose write failed and which a merged replay had already claimed as anything but a lost cost, because `removeSlotByID` leaves it in `current`.
- UsageSeek.UsageSeek: does not state the nearness of its start without `ProbesReach`, because a probe that finds nothing moves the start earlier.
