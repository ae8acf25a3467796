/** usageAcc: each API message once, at the largest value each field reached, and
    the sums per model (internal/claudefs/usage.go). */
module UsageTotals {
  import opened Lines
  import opened UsageSeek

  function Max(a: int, b: int): int { if a > b then a else b }

  function MaxTokens(a: Tokens, b: Tokens): Tokens {
    Tokens(Max(a.input, b.input), Max(a.output, b.output), Max(a.cacheRead, b.cacheRead), Max(a.cacheWrite, b.cacheWrite))
  }

  function Plus(a: Tokens, b: Tokens): Tokens {
    Tokens(a.input + b.input, a.output + b.output, a.cacheRead + b.cacheRead, a.cacheWrite + b.cacheWrite)
  }

  const NO_TOKENS := Tokens(0, 0, 0, 0)

  /** The four counts by number. */
  function Field(t: Tokens, n: nat): int {
    if n == 0 then t.input else if n == 1 then t.output else if n == 2 then t.cacheRead else t.cacheWrite
  }

  // ---------- one row a message ----------

  ghost predicate Seen(rows: seq<Entry>, id: string) { exists i :: 0 <= i < |rows| && rows[i].id == id }

  /** e's message raised to e's values. */
  function Raised(rows: seq<Entry>, e: Entry): seq<Entry> {
    seq(|rows|, i requires 0 <= i < |rows| =>
      if rows[i].id == e.id then rows[i].(tokens := MaxTokens(rows[i].tokens, e.tokens)) else rows[i])
  }

  ghost function Folded(messages: seq<Entry>, e: Entry): seq<Entry> {
    if e.id != "" && Seen(messages, e.id) then Raised(messages, e) else messages + [e]
  }

  /** The rows after these entries. */
  ghost function Messages(entries: seq<Entry>): seq<Entry> {
    if entries == [] then [] else Folded(Messages(entries[..|entries| - 1]), entries[|entries| - 1])
  }

  /** v is the largest value count n reaches among this message's entries. */
  ghost predicate IsLargest(entries: seq<Entry>, id: string, n: nat, v: int) {
    && (exists k :: 0 <= k < |entries| && entries[k].id == id && Field(entries[k].tokens, n) == v)
    && (forall k :: 0 <= k < |entries| && entries[k].id == id ==> Field(entries[k].tokens, n) <= v)
  }

  ghost predicate Distinct(rows: seq<Entry>) {
    forall i, k :: 0 <= i < k < |rows| && rows[i].id == rows[k].id ==> rows[i].id == ""
  }

  lemma SeenInSum(rows: seq<Entry>, e: Entry, id: string)
    ensures Seen(rows + [e], id) <==> Seen(rows, id) || e.id == id
  {
    var all := rows + [e];
    assert all[|rows|] == e;
    if Seen(rows, id) {
      var i :| 0 <= i < |rows| && rows[i].id == id;
      assert all[i].id == id;
    }
    if Seen(all, id) {
      var i :| 0 <= i < |all| && all[i].id == id;
      if i < |rows| { assert rows[i].id == id; }
    }
  }

  lemma FoldedSeen(messages: seq<Entry>, e: Entry, id: string)
    ensures Seen(Folded(messages, e), id) <==> Seen(messages, id) || e.id == id
  {
    SeenInSum(messages, e, id);
    if e.id != "" && Seen(messages, e.id) {
      var raised := Raised(messages, e);
      assert forall i :: 0 <= i < |messages| ==> raised[i].id == messages[i].id;
    }
  }

  lemma {:induction false} SameMessagesSeen(entries: seq<Entry>, id: string)
    ensures Seen(entries, id) <==> Seen(Messages(entries), id)
  {
    if entries != [] {
      var init, e := entries[..|entries| - 1], entries[|entries| - 1];
      SameMessagesSeen(init, id);
      assert entries == init + [e];
      SeenInSum(init, e, id);
      FoldedSeen(Messages(init), e, id);
    }
  }

  /** However a message's lines repeat and interleave, it has one row. */
  lemma {:induction false} OneRowAMessage(entries: seq<Entry>)
    ensures Distinct(Messages(entries))
  {
    if entries != [] {
      var init, e := entries[..|entries| - 1], entries[|entries| - 1];
      OneRowAMessage(init);
      var before, after := Messages(init), Messages(entries);
      assert forall j :: 0 <= j < |before| ==> before[j].id == after[j].id;
    }
  }

  lemma LargestGrows(entries: seq<Entry>, e: Entry, id: string, n: nat, v: int)
    requires IsLargest(entries, id, n, v)
    ensures IsLargest(entries + [e], id, n, if e.id == id then Max(v, Field(e.tokens, n)) else v)
  {
    var all := entries + [e];
    var k :| 0 <= k < |entries| && entries[k].id == id && Field(entries[k].tokens, n) == v;
    assert all[k] == entries[k] && all[|entries|] == e;
  }

  lemma LargestAlone(entries: seq<Entry>, e: Entry, n: nat)
    requires !Seen(entries, e.id)
    ensures IsLargest(entries + [e], e.id, n, Field(e.tokens, n))
  {
    var all := entries + [e];
    assert all[|entries|] == e;
    forall k | 0 <= k < |entries| ensures all[k].id != e.id { }
  }

  /** Every message's row holds, in each count, the largest value any of its
      entries has. */
  lemma {:induction false} RowsHoldLargest(entries: seq<Entry>, i: nat, n: nat)
    requires i < |Messages(entries)| && Messages(entries)[i].id != ""
    ensures IsLargest(entries, Messages(entries)[i].id, n, Field(Messages(entries)[i].tokens, n))
    decreases |entries|
  {
    var init, e := entries[..|entries| - 1], entries[|entries| - 1];
    var before := Messages(init);
    assert entries == init + [e];
    if i < |before| {
      assert before[i].id == Messages(entries)[i].id;
      RowsHoldLargest(init, i, n);
      LargestGrows(init, e, before[i].id, n, Field(before[i].tokens, n));
      assert e.id == before[i].id ==> Seen(before, e.id);
    } else {
      SameMessagesSeen(init, e.id);
      LargestAlone(init, e, n);
    }
  }

  /** usageAcc as an object. */
  class UsageAcc {
    const since: int
    const until: int
    var msgs: map<string, nat>
    var rows: seq<Entry>

    ghost predicate Valid()
      reads this
    {
      && Distinct(rows)
      && (forall id :: id in msgs ==> id != "" && msgs[id] < |rows| && rows[msgs[id]].id == id)
      && (forall i :: 0 <= i < |rows| && rows[i].id != "" ==> rows[i].id in msgs)
    }

    constructor (sinceMS: int, untilMS: int)
      ensures Valid() && rows == [] && since == sinceMS && until == untilMS
    {
      since, until, msgs, rows := sinceMS, untilMS, map[], [];
    }

    /** line, for a line that decodes. */
    method Line(e: Entry)
      requires Valid()
      modifies this
      ensures Valid()
      ensures rows == if InWindow(e, since, until) then Folded(old(rows), e) else old(rows)
    {
      if e.ms <= since || (until != 0 && e.ms > until) { return; }
      if e.id in msgs && e.id != "" {
        var i := msgs[e.id];
        RaiseOne(rows, e, i);
        rows := rows[i := rows[i].(tokens := MaxTokens(rows[i].tokens, e.tokens))];
        return;
      }
      assert e.id != "" ==> !Seen(rows, e.id);
      if e.id != "" { msgs := msgs[e.id := |rows|]; }
      rows := rows + [e];
    }

    /** A whole read: the rows are the window's messages. */
    method Lines(entries: seq<Entry>)
      requires Valid() && rows == []
      modifies this
      ensures Valid() && rows == Messages(Window(entries, since, until))
    {
      for k := 0 to |entries|
        invariant Valid() && rows == Messages(Window(entries[..k], since, until))
      {
        Line(entries[k]);
        WindowAppend(entries[..k], [entries[k]], since, until);
        assert entries[..k + 1] == entries[..k] + [entries[k]];
        OneInWindow(entries[k], since, until);
        WindowSnoc(Window(entries[..k], since, until), entries[k]);
      }
      assert entries[..|entries|] == entries;
    }
  }

  lemma RaiseOne(rows: seq<Entry>, e: Entry, i: nat)
    requires Distinct(rows) && i < |rows| && rows[i].id == e.id && e.id != ""
    ensures Folded(rows, e) == rows[i := rows[i].(tokens := MaxTokens(rows[i].tokens, e.tokens))]
    ensures Distinct(Folded(rows, e)) && forall k :: 0 <= k < |rows| ==> Folded(rows, e)[k].id == rows[k].id
  {
    assert Seen(rows, e.id);
    forall k | 0 <= k < |rows| && k != i ensures rows[k].id != e.id { }
    assert Raised(rows, e) == rows[i := rows[i].(tokens := MaxTokens(rows[i].tokens, e.tokens))];
  }

  lemma OneInWindow(e: Entry, since: int, until: int)
    ensures Window([e], since, until) == if InWindow(e, since, until) then [e] else []
  {
  }

  lemma WindowSnoc(rows: seq<Entry>, e: Entry)
    ensures Messages(rows + [e]) == Folded(Messages(rows), e) && rows + [] == rows
  {
    assert (rows + [e])[..|rows|] == rows;
  }

  // ---------- sums per model ----------

  datatype ModelTokens = ModelTokens(model: string, tokens: Tokens)

  /** A model's tokens over all rows. */
  function SumFor(rows: seq<Entry>, model: string): Tokens {
    if rows == [] then NO_TOKENS
    else
      var before, e := SumFor(rows[..|rows| - 1], model), rows[|rows| - 1];
      if e.model == model then Plus(before, e.tokens) else before
  }

  ghost predicate Counted(rows: seq<Entry>, model: string) {
    exists i :: 0 <= i < |rows| && rows[i].model == model && rows[i].tokens != NO_TOKENS
  }

  /** totals' result: a row for exactly the models with any tokens, once each,
      holding that model's sum over all messages. */
  ghost predicate TotalsOf(out: seq<ModelTokens>, rows: seq<Entry>) {
    && (forall i, k :: 0 <= i < k < |out| ==> out[i].model != out[k].model)
    && (forall i :: 0 <= i < |out| ==> Counted(rows, out[i].model) && out[i].tokens == SumFor(rows, out[i].model))
    && (forall model :: Counted(rows, model) ==> exists i :: 0 <= i < |out| && out[i].model == model)
  }

  lemma {:induction false} UncountedIsNothing(rows: seq<Entry>, model: string)
    requires !Counted(rows, model)
    ensures SumFor(rows, model) == NO_TOKENS
  {
    if rows != [] {
      var init := rows[..|rows| - 1];
      forall i | 0 <= i < |init| ensures !(init[i].model == model && init[i].tokens != NO_TOKENS) {
        assert init[i] == rows[i];
      }
      UncountedIsNothing(init, model);
      assert rows[|rows| - 1].model == model ==> rows[|rows| - 1].tokens == NO_TOKENS;
    }
  }

  lemma CountedGrows(rows: seq<Entry>, e: Entry, model: string)
    ensures Counted(rows + [e], model) <==> Counted(rows, model) || (e.model == model && e.tokens != NO_TOKENS)
    ensures SumFor(rows + [e], model) == if e.model == model then Plus(SumFor(rows, model), e.tokens) else SumFor(rows, model)
  {
    var all := rows + [e];
    assert all[..|rows|] == rows && all[|rows|] == e;
    if Counted(rows, model) {
      var i :| 0 <= i < |rows| && rows[i].model == model && rows[i].tokens != NO_TOKENS;
      assert all[i] == rows[i];
    }
    if Counted(all, model) {
      var i :| 0 <= i < |all| && all[i].model == model && all[i].tokens != NO_TOKENS;
      assert i < |rows| ==> rows[i] == all[i];
    }
  }

  lemma AddNothing(out: seq<ModelTokens>, rows: seq<Entry>, e: Entry)
    requires TotalsOf(out, rows) && e.tokens == NO_TOKENS
    ensures TotalsOf(out, rows + [e])
  {
    forall model ensures Counted(rows + [e], model) <==> Counted(rows, model) { CountedGrows(rows, e, model); }
    forall i | 0 <= i < |out| ensures out[i].tokens == SumFor(rows + [e], out[i].model) { CountedGrows(rows, e, out[i].model); }
  }

  lemma AddToOld(out: seq<ModelTokens>, rows: seq<Entry>, e: Entry, i: nat)
    requires TotalsOf(out, rows) && i < |out| && out[i].model == e.model && e.tokens != NO_TOKENS
    ensures TotalsOf(out[i := ModelTokens(e.model, Plus(out[i].tokens, e.tokens))], rows + [e])
  {
    var out' := out[i := ModelTokens(e.model, Plus(out[i].tokens, e.tokens))];
    forall k | 0 <= k < |out'|
      ensures Counted(rows + [e], out'[k].model) && out'[k].tokens == SumFor(rows + [e], out'[k].model)
    {
      CountedGrows(rows, e, out'[k].model);
      assert k != i ==> out'[k] == out[k];
    }
    forall model | Counted(rows + [e], model) ensures exists k :: 0 <= k < |out'| && out'[k].model == model {
      CountedGrows(rows, e, model);
      if model == e.model {
        assert out'[i].model == model;
      } else {
        var k :| 0 <= k < |out| && out[k].model == model;
        assert out'[k].model == model;
      }
    }
  }

  lemma AddNew(out: seq<ModelTokens>, rows: seq<Entry>, e: Entry)
    requires TotalsOf(out, rows) && e.tokens != NO_TOKENS
    requires forall i :: 0 <= i < |out| ==> out[i].model != e.model
    ensures TotalsOf(out + [ModelTokens(e.model, Plus(NO_TOKENS, e.tokens))], rows + [e])
  {
    var out' := out + [ModelTokens(e.model, Plus(NO_TOKENS, e.tokens))];
    UncountedIsNothing(rows, e.model);
    forall k | 0 <= k < |out'|
      ensures Counted(rows + [e], out'[k].model) && out'[k].tokens == SumFor(rows + [e], out'[k].model)
    {
      CountedGrows(rows, e, out'[k].model);
    }
    forall model | Counted(rows + [e], model) ensures exists k :: 0 <= k < |out'| && out'[k].model == model {
      CountedGrows(rows, e, model);
      if model == e.model {
        assert out'[|out|].model == model;
      } else {
        var k :| 0 <= k < |out| && out[k].model == model;
        assert out'[k].model == model;
      }
    }
  }

  /** The index map of totals: model to position. */
  ghost predicate Indexes(idx: map<string, nat>, out: seq<ModelTokens>) {
    && (forall i :: 0 <= i < |out| ==> out[i].model in idx)
    && (forall m :: m in idx ==> idx[m] < |out| && out[idx[m]].model == m)
  }

  /** addTokens. */
  method AddTokens(out: seq<ModelTokens>, idx: map<string, nat>, e: Entry, ghost rows: seq<Entry>)
    returns (out': seq<ModelTokens>, idx': map<string, nat>)
    requires TotalsOf(out, rows) && Indexes(idx, out)
    ensures TotalsOf(out', rows + [e]) && Indexes(idx', out')
  {
    out', idx' := out, idx;
    if e.tokens == NO_TOKENS {
      AddNothing(out, rows, e);
      return;
    }
    if e.model !in idx {
      AddNew(out, rows, e);
      idx' := idx'[e.model := |out|];
      out' := out' + [ModelTokens(e.model, NO_TOKENS)];
    } else {
      AddToOld(out, rows, e, idx[e.model]);
    }
    var i := idx'[e.model];
    out' := out'[i := ModelTokens(e.model, Plus(out'[i].tokens, e.tokens))];
    assert e.model !in idx ==> out' == out + [ModelTokens(e.model, Plus(NO_TOKENS, e.tokens))];
  }

  /** totals. */
  method Totals(rows: seq<Entry>) returns (out: seq<ModelTokens>)
    ensures TotalsOf(out, rows)
  {
    out := [];
    var idx: map<string, nat> := map[];
    for k := 0 to |rows|
      invariant TotalsOf(out, rows[..k]) && Indexes(idx, out)
    {
      assert rows[..k + 1] == rows[..k] + [rows[k]];
      out, idx := AddTokens(out, idx, rows[k], rows[..k]);
    }
    assert rows[..|rows|] == rows;
  }

  // ---------- one transcript, end to end ----------

  /** The totals SessionUsage reports of one transcript: whether or not the read
      bisected for its start, those of the window's messages in a full read from
      the offset. */
  method TranscriptUsage(f: seq<Byte>, offset: nat, since: int, until: int, slack: nat, seekPast: nat, hasSince: bool,
                         decode: Decoder, size: nat, maxLine: nat, probe: nat) returns (out: seq<ModelTokens>)
    requires size > 0 && maxLine > 0 && PiecesTell(f, decode) && WithinLimit(f, decode, maxLine) && InTimeOrder(f, decode)
    ensures TotalsOf(out, Messages(Window(UsageRows(f, if offset > |f| then 0 else offset, decode), since, until)))
  {
    var rows := ReadWindow(f, offset, since, until, slack, seekPast, hasSince, decode, size, maxLine, probe);
    var acc := new UsageAcc(since, until);
    acc.Lines(rows);
    out := Totals(acc.rows);
  }
}
