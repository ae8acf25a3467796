/** One slot's two one-place channels and its tombstone, and the three locked
    exchanges on them (internal/cli/passthrough.go).  `results` and `errors`
    remember every send, so that "at most one result, never both" can be said
    of a whole run and not only of what a channel holds now. */
module SlotChannel {
  import opened Wrappers

  /** A result frame; text and cost stand for everything resultFromEvent copies. */
  datatype ResultEvent = ResultEvent(text: string, costUSD: real)

  /** What a slot's caller gets.  `turn` identifies the frame it came from. */
  datatype SendResult = SendResult(turn: nat, text: string, costUSD: real,
                                   mergedCount: nat, mergedWithHead: nat, headText: string)

  datatype Chan = Chan(canceled: bool, resultCh: Option<SendResult>, errCh: Option<string>,
                       results: seq<SendResult>, errors: nat)

  const FreshChan := Chan(false, None, None, [], 0)

  /** deliverSlotResult: refused when the slot is canceled or its channel full. */
  predicate Accepts(c: Chan) { !c.canceled && c.resultCh.None? }

  function Deliver(c: Chan, r: SendResult): Chan {
    if Accepts(c) then c.(resultCh := Some(r), results := c.results + [r]) else c
  }

  /** abandonSlot: tombstone, and take back what was delivered before it. */
  function Abandon(c: Chan): Chan {
    c.(canceled := true, resultCh := None)
  }

  /** discardAllPending's non-blocking send of the reason. */
  function PushError(c: Chan, reason: string): Chan {
    if c.errCh.None? then c.(errCh := Some(reason), errors := c.errors + 1) else c
  }
}
