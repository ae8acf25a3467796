/** eachLineAt: a file's lines with their offsets, overlong ones skipped
    (internal/claudefs/coststate.go). */
module EachLine {
  import opened Wrappers
  import opened Lines

  datatype Piece = Piece(off: nat, line: seq<Byte>)

  /** Lines with their offsets, the first at `base`. */
  function Number(lines: seq<seq<Byte>>, base: nat): seq<Piece> {
    if lines == [] then [] else [Piece(base, lines[0])] + Number(lines[1..], base + |lines[0]|)
  }

  function LinesFrom(s: seq<Byte>, base: nat): seq<Piece> { Number(CompleteLines(s), base) }

  /** The unfinished last line. */
  function LastPiece(s: seq<Byte>, base: nat): Piece { Piece(base + |s| - |Tail(s)|, Tail(s)) }

  /** How much of a complete line arrives in full buffers before its last chunk. */
  function Gathered(len: nat, size: nat): nat
    requires size > 0
  {
    if len <= size then 0 else size + Gathered(len - size, size)
  }

  /** A line is handed on unless its full buffers already exceed maxLine. */
  predicate Passes(len: nat, size: nat, maxLine: nat)
    requires size > 0
  {
    Gathered(len, size) <= maxLine
  }

  /** The calls for these lines: the passing ones, up to the first that ends the
      read. */
  function Calls(pieces: seq<Piece>, size: nat, maxLine: nat, enders: set<Piece>): seq<Piece>
    requires size > 0
  {
    if pieces == [] then []
    else if !Passes(|pieces[0].line|, size, maxLine) then Calls(pieces[1..], size, maxLine, enders)
    else if pieces[0] !in enders then [pieces[0]] + Calls(pieces[1..], size, maxLine, enders)
    else [pieces[0]]
  }

  predicate Stops(calls: seq<Piece>, enders: set<Piece>) { calls != [] && calls[|calls| - 1] in enders }

  /** The last, unfinished line (possibly empty): handed on when it is within
      maxLine, skipped when it is more than a buffer over. */
  ghost predicate TailCalls(calls: seq<Piece>, tail: Piece, size: nat, maxLine: nat) {
    && (calls == [] || calls == [tail])
    && (|tail.line| <= maxLine ==> calls == [tail])
    && (|tail.line| > maxLine + size ==> calls == [])
  }

  /** What eachLineAt calls fn with, `enders` being the calls it ends the read at. */
  ghost predicate Reads(s: seq<Byte>, size: nat, maxLine: nat, enders: set<Piece>, calls: seq<Piece>, fault: bool)
    requires size > 0
  {
    var lines := Calls(LinesFrom(s, 0), size, maxLine, enders);
    if Stops(lines, enders) || fault then calls == lines
    else lines <= calls && TailCalls(calls[|lines|..], LastPiece(s, 0), size, maxLine)
  }

  /** g bytes fill whole buffers: a line ending within one more has gathered g. */
  ghost predicate Full(g: nat, size: nat)
    requires size > 0
  {
    forall len: nat :: g < len <= g + size ==> Gathered(len, size) == g
  }

  lemma FullGrows(g: nat, size: nat)
    requires size > 0 && Full(g, size)
    ensures Full(g + size, size)
  {
    forall len: nat | g + size < len <= g + size + size ensures Gathered(len, size) == g + size {
      assert Gathered(len - size, size) == g;
    }
  }

  /** The pieces of one line: `line` is None when it is skipped. */
  method NextLine(r: Reader, maxLine: nat) returns (line: Option<seq<Byte>>, length: nat, end: SliceEnd, ghost whole: seq<Byte>)
    requires r.size > 0
    modifies r
    ensures old(r.rest) == whole + r.rest && length == |whole| && !end.BufferFull?
    ensures end.AtNewline? ==> IsLine(whole) && line == if Passes(length, r.size, maxLine) then Some(whole) else None
    ensures end.Ended? ==>
      && end.error == r.atEnd && NL !in whole && r.rest == []
      && (line == None || line == Some(whole))
      && (length <= maxLine ==> line == Some(whole)) && (length > maxLine + r.size ==> line == None)
  {
    ghost var s, read := r.rest, [];
    var long: seq<Byte> := [];
    var skipping := false;
    length := 0;
    while true
      invariant s == read + r.rest && NL !in read && length == |read|
      invariant Full(length, r.size) && skipping == (length > maxLine) && long == if skipping then [] else read
      decreases |r.rest|
    {
      ghost var before := r.rest;
      var chunk;
      chunk, end := r.ReadSlice();
      Regroup(read, chunk, r.rest);
      ChunkExtends(read, chunk);
      length := length + |chunk|;
      if !end.BufferFull? {
        line, whole := if skipping then None else Some(long + chunk), read + chunk;
        return;
      }
      FullGrows(|read|, r.size);
      if !skipping {
        long := long + chunk;
        if |long| > maxLine { skipping, long := true, []; }
      }
      read := read + chunk;
    }
  }

  method EachLineAt(r: Reader, maxLine: nat, enders: set<Piece>) returns (calls: seq<Piece>, failed: bool)
    requires r.size > 0
    modifies r
    ensures Reads(old(r.rest), r.size, maxLine, enders, calls, r.atEnd.Fault?)
    ensures failed <==> r.atEnd.Fault? && !Stops(calls, enders)
  {
    ghost var s, rest := r.rest, r.rest;
    calls, failed := [], false;
    var off: nat := 0;
    CalledNone(s, r.size, maxLine, enders);
    while true
      invariant r.rest == rest && Called(s, calls, rest, off, r.size, maxLine, enders)
      decreases |r.rest|
    {
      ghost var whole;
      var line, length, end;
      line, length, end, whole := NextLine(r, maxLine);
      if end.Ended? {
        assert rest == whole;
        var last := if line.Some? then [Piece(off, line.value)] else [];
        CalledLast(s, calls, rest, off, last, r.size, maxLine, enders);
        if end.error.Fault? { return calls, true; }
        return calls + last, false;
      }
      if line.None? {
        CalledSkip(s, calls, rest, off, whole, r.rest, r.size, maxLine, enders);
      } else {
        var piece := Piece(off, line.value);
        if piece in enders {
          CalledStop(s, calls, rest, off, whole, r.rest, r.size, maxLine, enders, r.atEnd.Fault?);
          return calls + [piece], false;
        }
        CalledMore(s, calls, rest, off, whole, r.rest, r.size, maxLine, enders);
        calls := calls + [piece];
      }
      off, rest := off + length, r.rest;
    }
  }

  lemma CalledNone(s: seq<Byte>, size: nat, maxLine: nat, enders: set<Piece>)
    requires size > 0
    ensures Called(s, [], s, 0, size, maxLine, enders)
  {
    assert [] + Calls(LinesFrom(s, 0), size, maxLine, enders) == Calls(LinesFrom(s, 0), size, maxLine, enders);
  }

  /** The calls made so far are those for the lines before `cur`. */
  ghost predicate Called(s: seq<Byte>, calls: seq<Piece>, cur: seq<Byte>, off: nat, size: nat, maxLine: nat, enders: set<Piece>)
    requires size > 0
  {
    && Calls(LinesFrom(s, 0), size, maxLine, enders) == calls + Calls(LinesFrom(cur, off), size, maxLine, enders)
    && LastPiece(s, 0) == LastPiece(cur, off)
    && forall i :: 0 <= i < |calls| ==> calls[i] !in enders
  }

  lemma CalledLast(s: seq<Byte>, calls: seq<Piece>, cur: seq<Byte>, off: nat, last: seq<Piece>,
                   size: nat, maxLine: nat, enders: set<Piece>)
    requires size > 0 && !HasNewline(cur) && Called(s, calls, cur, off, size, maxLine, enders)
    ensures Reads(s, size, maxLine, enders, calls, true) && !Stops(calls, enders)
    ensures TailCalls(last, Piece(off, cur), size, maxLine) ==> Reads(s, size, maxLine, enders, calls + last, false)
  {
    assert calls + [] == calls;
    assert (calls + last)[|calls|..] == last;
  }

  /** A complete line is one more call, or skipped, or the last call. */
  lemma CalledMore(s: seq<Byte>, calls: seq<Piece>, cur: seq<Byte>, off: nat, line: seq<Byte>, rest: seq<Byte>,
                   size: nat, maxLine: nat, enders: set<Piece>)
    requires size > 0 && Called(s, calls, cur, off, size, maxLine, enders) && cur == line + rest && IsLine(line)
    requires Passes(|line|, size, maxLine) && Piece(off, line) !in enders
    ensures Called(s, calls + [Piece(off, line)], rest, off + |line|, size, maxLine, enders)
  {
    OneMoreLine(off, line, rest);
    CallsCons(Piece(off, line), LinesFrom(rest, off + |line|), size, maxLine, enders);
    Regroup(calls, [Piece(off, line)], Calls(LinesFrom(rest, off + |line|), size, maxLine, enders));
  }

  lemma CalledSkip(s: seq<Byte>, calls: seq<Piece>, cur: seq<Byte>, off: nat, line: seq<Byte>, rest: seq<Byte>,
                   size: nat, maxLine: nat, enders: set<Piece>)
    requires size > 0 && Called(s, calls, cur, off, size, maxLine, enders) && cur == line + rest && IsLine(line)
    requires !Passes(|line|, size, maxLine)
    ensures Called(s, calls, rest, off + |line|, size, maxLine, enders)
  {
    OneMoreLine(off, line, rest);
    CallsCons(Piece(off, line), LinesFrom(rest, off + |line|), size, maxLine, enders);
  }

  lemma CalledStop(s: seq<Byte>, calls: seq<Piece>, cur: seq<Byte>, off: nat, line: seq<Byte>, rest: seq<Byte>,
                   size: nat, maxLine: nat, enders: set<Piece>, fault: bool)
    requires size > 0 && Called(s, calls, cur, off, size, maxLine, enders) && cur == line + rest && IsLine(line)
    requires Passes(|line|, size, maxLine) && Piece(off, line) in enders
    ensures Stops(calls + [Piece(off, line)], enders) && Reads(s, size, maxLine, enders, calls + [Piece(off, line)], fault)
  {
    OneMoreLine(off, line, rest);
    CallsCons(Piece(off, line), LinesFrom(rest, off + |line|), size, maxLine, enders);
  }

  lemma OneMoreLine(off: nat, line: seq<Byte>, rest: seq<Byte>)
    requires IsLine(line)
    ensures LinesFrom(line + rest, off) == [Piece(off, line)] + LinesFrom(rest, off + |line|)
    ensures LastPiece(line + rest, off) == LastPiece(rest, off + |line|)
  {
    FirstLine(line, rest);
    NumberCons(line, CompleteLines(rest), off);
  }

  lemma NumberCons(line: seq<Byte>, lines: seq<seq<Byte>>, off: nat)
    ensures Number([line] + lines, off) == [Piece(off, line)] + Number(lines, off + |line|)
  {
    assert ([line] + lines)[1..] == lines;
  }

  lemma CallsCons(piece: Piece, pieces: seq<Piece>, size: nat, maxLine: nat, enders: set<Piece>)
    requires size > 0
    ensures Calls([piece] + pieces, size, maxLine, enders)
         == if !Passes(|piece.line|, size, maxLine) then Calls(pieces, size, maxLine, enders)
            else if piece in enders then [piece]
            else [piece] + Calls(pieces, size, maxLine, enders)
  {
    assert ([piece] + pieces)[1..] == pieces;
  }

  // ---------- which lines pass ----------

  lemma {:induction false} GatheredBounds(len: nat, size: nat)
    requires size > 0
    ensures len <= Gathered(len, size) + size
    ensures Gathered(len, size) <= len && (len > 0 ==> Gathered(len, size) < len)
  {
    if len > size { GatheredBounds(len - size, size); }
  }

  lemma OneBufferLess(maxLine: nat, size: nat)
    requires 0 < size <= maxLine
    ensures (maxLine - size) / size * size == maxLine / size * size - size
  {
    var k := (maxLine - size) / size;
    assert maxLine - size == k * size + (maxLine - size) % size;
    assert (k + 1) * size == k * size + size;
    DivIs(maxLine, size, k + 1, (maxLine - size) % size);
  }

  lemma DivIs(n: nat, d: nat, q: nat, r: nat)
    requires d > 0 && r < d && n == q * d + r
    ensures n / d == q
  {
    var p := n / d;
    assert (p + 1) * d == p * d + d && (q + 1) * d == q * d + d;
    if p < q { TimesGrows(p + 1, q, d); }
    if q < p { TimesGrows(q + 1, p, d); }
  }

  lemma TimesGrows(a: nat, b: nat, d: nat)
    requires a <= b
    ensures a * d <= b * d
  {
  }

  /** A line passes exactly when it is at most one buffer longer than the whole
      buffers the limit holds; so every line within the limit does, and so do
      longer ones. */
  lemma {:induction false} PassesExactly(len: nat, size: nat, maxLine: nat)
    requires size > 0
    ensures Passes(len, size, maxLine) <==> len <= maxLine / size * size + size
    decreases maxLine
  {
    GatheredBounds(len, size);
    assert maxLine / size * size >= 0;
    if len > size {
      if maxLine < size {
        DivIs(maxLine, size, 0, maxLine);
      } else {
        PassesExactly(len - size, size, maxLine - size);
        OneBufferLess(maxLine, size);
      }
    }
  }

  lemma ShortLinesPass(len: nat, size: nat, maxLine: nat)
    requires size > 0
    ensures len <= maxLine ==> Passes(len, size, maxLine)
    ensures Passes(len, size, maxLine) ==> len <= maxLine + size
  {
    GatheredBounds(len, size);
  }
}
