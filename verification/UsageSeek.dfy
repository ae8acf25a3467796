/** Where a windowed read of a transcript begins, and that it misses nothing
    (internal/claudefs/usage.go).  Decoding a line is an abstract partial
    function, given as the map from the lines that decode. */
module UsageSeek {
  import opened Wrappers
  import opened Lines
  import opened EachLine

  datatype Tokens = Tokens(input: int, output: int, cacheRead: int, cacheWrite: int)

  /** A decoded usage line: its time, message id, model and token counts. */
  datatype Entry = Entry(ms: int, id: string, model: string, tokens: Tokens)

  type Decoder = map<seq<Byte>, Entry>

  // ---------- a transcript's usage lines ----------

  predicate LineStart(f: seq<Byte>, p: nat)
    requires p <= |f|
  {
    p == 0 || f[p - 1] == NL
  }

  /** Where the line at p ends, its newline included. */
  function EndOf(f: seq<Byte>, p: nat): (e: nat)
    requires p <= |f|
    ensures p <= e <= |f| && (p < |f| ==> p < e) && (e < |f| ==> f[e - 1] == NL)
    ensures forall k :: p <= k < e - 1 ==> f[k] != NL
  {
    if HasNewline(f[p..]) then
      var n := LineEnd(f[p..]);
      assert forall k :: p <= k < p + n - 1 ==> f[k] == f[p..][..n - 1][k - p];
      p + n
    else
      assert forall k :: p <= k < |f| ==> f[k] == f[p..][k - p];
      |f|
  }

  predicate IsUsage(f: seq<Byte>, p: nat, decode: Decoder)
    requires p <= |f|
  {
    p < |f| && LineStart(f, p) && f[p..EndOf(f, p)] in decode
  }

  function UsageAt(f: seq<Byte>, p: nat, decode: Decoder): Entry
    requires p <= |f| && IsUsage(f, p, decode)
  {
    decode[f[p..EndOf(f, p)]]
  }

  /** f[p..q] lies within one line. */
  predicate Within(f: seq<Byte>, p: nat, q: nat) {
    p < q <= |f| && forall k :: p <= k < q - 1 ==> f[k] != NL
  }

  /** A piece of a line decodes only if it begins a usage line, and then to what
      the whole line does. */
  ghost predicate PiecesTell(f: seq<Byte>, decode: Decoder) {
    && [] !in decode
    && forall p: nat, q: nat {:trigger Within(f, p, q)} :: Within(f, p, q) && f[p..q] in decode ==>
         IsUsage(f, p, decode) && decode[f[p..q]] == UsageAt(f, p, decode)
  }

  ghost predicate WithinLimit(f: seq<Byte>, decode: Decoder, maxLine: nat) {
    forall p: nat :: p <= |f| && IsUsage(f, p, decode) ==> EndOf(f, p) - p <= maxLine
  }

  ghost predicate InTimeOrder(f: seq<Byte>, decode: Decoder) {
    forall p: nat, q: nat :: p < q <= |f| && IsUsage(f, p, decode) && IsUsage(f, q, decode) ==>
      UsageAt(f, p, decode).ms <= UsageAt(f, q, decode).ms
  }

  /** The usage among these lines, in order. */
  function RowsOf(lines: seq<seq<Byte>>, decode: Decoder): seq<Entry> {
    if lines == [] then []
    else (if lines[0] in decode then [decode[lines[0]]] else []) + RowsOf(lines[1..], decode)
  }

  /** The usage of the lines from position p on; a line p cuts through, and an
      unfinished last one, are lines too. */
  function UsageRows(f: seq<Byte>, p: nat, decode: Decoder): seq<Entry>
    requires p <= |f|
  {
    RowsOf(CompleteLines(f[p..]) + [Tail(f[p..])], decode)
  }

  lemma {:induction false} RowsAppend(a: seq<seq<Byte>>, b: seq<seq<Byte>>, decode: Decoder)
    ensures RowsOf(a + b, decode) == RowsOf(a, decode) + RowsOf(b, decode)
  {
    if a == [] {
      assert a + b == b;
    } else {
      assert (a + b)[1..] == a[1..] + b;
      RowsAppend(a[1..], b, decode);
      Regroup(if a[0] in decode then [decode[a[0]]] else [], RowsOf(a[1..], decode), RowsOf(b, decode));
    }
  }

  // ---------- lines and their positions ----------

  /** The i-th of the lines a stream consists of lies where those before it end. */
  lemma {:induction false} LinePosition(lines: seq<seq<Byte>>, more: seq<Byte>, i: nat)
    requires i < |lines|
    ensures var at, s := |Join(lines[..i])|, Join(lines) + more;
      at + |lines[i]| <= |s| && s[at..at + |lines[i]|] == lines[i]
  {
    var s := Join(lines) + more;
    if i == 0 {
      assert lines[..0] == [];
      Regroup(lines[0], Join(lines[1..]), more);
    } else {
      LinePosition(lines[1..], more, i - 1);
      assert lines[..i][1..] == lines[1..][..i - 1] && lines[..i][0] == lines[0];
      Regroup(lines[0], Join(lines[1..]), more);
      var rest, at := Join(lines[1..]) + more, |Join(lines[1..][..i - 1])|;
      assert s == lines[0] + rest;
      assert s[|lines[0]| + at..|lines[0]| + at + |lines[i]|] == rest[at..at + |lines[i]|];
    }
  }

  /** A line or the tail of f[p..q] that decodes is a usage line of f that begins
      in there. */
  lemma DecodedLineIsUsage(f: seq<Byte>, p: nat, q: nat, line: seq<Byte>, decode: Decoder) returns (at: nat)
    requires p <= q <= |f| && PiecesTell(f, decode)
    requires line in CompleteLines(f[p..q]) || line == Tail(f[p..q])
    requires line in decode
    ensures p <= at < at + |line| <= q && IsUsage(f, at, decode) && UsageAt(f, at, decode) == decode[line]
    ensures EndOf(f, at) >= at + |line|
  {
    assert line != [];
    var off := LineInStream(f[p..q], line);
    at := p + off;
    PieceIsUsage(f, p, q, off, line, decode);
  }

  lemma PieceIsUsage(f: seq<Byte>, p: nat, q: nat, off: nat, line: seq<Byte>, decode: Decoder)
    requires p <= q <= |f| && PiecesTell(f, decode) && off + |line| <= q - p && f[p..q][off..off + |line|] == line
    requires line in decode && (line != [] ==> NL !in line[..|line| - 1])
    ensures line != [] && IsUsage(f, p + off, decode) && UsageAt(f, p + off, decode) == decode[line]
    ensures EndOf(f, p + off) >= p + off + |line|
  {
    assert line != [];
    SliceOfSlice(f, p, q, off, |line|);
    WithinByLine(f, p + off, line);
  }

  lemma SliceOfSlice(f: seq<Byte>, p: nat, q: nat, off: nat, n: nat)
    requires p <= q <= |f| && off + n <= q - p
    ensures f[p + off..p + off + n] == f[p..q][off..off + n]
  {
    var a, b := f[p + off..p + off + n], f[p..q][off..off + n];
    forall i | 0 <= i < n ensures a[i] == b[i] {
      assert b[i] == f[p..q][off + i];
    }
  }

  /** A line or the tail of a stream lies somewhere in it, with no newline but at
      its end. */
  lemma LineInStream(s: seq<Byte>, line: seq<Byte>) returns (off: nat)
    requires line in CompleteLines(s) || line == Tail(s)
    ensures off + |line| <= |s| && s[off..off + |line|] == line
    ensures line != [] ==> NL !in line[..|line| - 1]
  {
    var lines, tail := CompleteLines(s), Tail(s);
    LinesJoinBack(s);
    off := PartOfJoin(lines, tail, line);
  }

  lemma PartOfJoin(lines: seq<seq<Byte>>, tail: seq<Byte>, line: seq<Byte>) returns (off: nat)
    requires forall i :: 0 <= i < |lines| ==> IsLine(lines[i])
    requires NL !in tail && (line in lines || line == tail)
    ensures var s := Join(lines) + tail; off + |line| <= |s| && s[off..off + |line|] == line
    ensures line != [] ==> NL !in line[..|line| - 1]
  {
    if line in lines {
      var i :| 0 <= i < |lines| && lines[i] == line;
      LinePosition(lines, tail, i);
      off := |Join(lines[..i])|;
    } else {
      off := |Join(lines)|;
    }
  }

  lemma WithinByLine(f: seq<Byte>, at: nat, line: seq<Byte>)
    requires line != [] && at + |line| <= |f| && f[at..at + |line|] == line && NL !in line[..|line| - 1]
    ensures Within(f, at, at + |line|) && EndOf(f, at) >= at + |line|
  {
    forall k | at <= k < at + |line| - 1 ensures f[k] != NL {
      assert f[k] == line[k - at] == line[..|line| - 1][k - at];
    }
  }

  // ---------- reading from a position ----------

  function Decoded(calls: seq<Piece>, decode: Decoder): seq<Entry> {
    if calls == [] then []
    else (if calls[0].line in decode then [decode[calls[0].line]] else []) + Decoded(calls[1..], decode)
  }

  lemma {:induction false} DecodedAppend(a: seq<Piece>, b: seq<Piece>, decode: Decoder)
    ensures Decoded(a + b, decode) == Decoded(a, decode) + Decoded(b, decode)
  {
    if a == [] {
      assert a + b == b;
    } else {
      assert (a + b)[1..] == a[1..] + b;
      DecodedAppend(a[1..], b, decode);
      Regroup(if a[0].line in decode then [decode[a[0].line]] else [], Decoded(a[1..], decode), Decoded(b, decode));
    }
  }

  /** Lines are skipped only if they do not decode: the calls give the rows. */
  lemma {:induction false} CallsGiveRows(lines: seq<seq<Byte>>, base: nat, decode: Decoder, size: nat, maxLine: nat)
    requires size > 0 && forall i :: 0 <= i < |lines| && lines[i] in decode ==> |lines[i]| <= maxLine
    ensures Decoded(Calls(Number(lines, base), size, maxLine, {}), decode) == RowsOf(lines, decode)
  {
    if lines != [] {
      var piece, others := Piece(base, lines[0]), Number(lines[1..], base + |lines[0]|);
      CallsGiveRows(lines[1..], base + |lines[0]|, decode, size, maxLine);
      CallsCons(piece, others, size, maxLine, {});
      ShortLinesPass(|lines[0]|, size, maxLine);
      DecodedAppend([piece], Calls(others, size, maxLine, {}), decode);
    }
  }

  /** No line from p on that decodes is long enough to be skipped. */
  lemma UsageLinesFit(f: seq<Byte>, p: nat, line: seq<Byte>, decode: Decoder, maxLine: nat)
    requires p <= |f| && PiecesTell(f, decode) && WithinLimit(f, decode, maxLine)
    requires line in decode && (line in CompleteLines(f[p..]) || line == Tail(f[p..]))
    ensures |line| <= maxLine
  {
    assert f[p..|f|] == f[p..];
    var at := DecodedLineIsUsage(f, p, |f|, line, decode);
  }

  lemma ReadsGiveRows(f: seq<Byte>, p: nat, decode: Decoder, size: nat, maxLine: nat, calls: seq<Piece>)
    requires p <= |f| && size > 0 && PiecesTell(f, decode) && WithinLimit(f, decode, maxLine)
    requires Reads(f[p..], size, maxLine, {}, calls, false)
    ensures Decoded(calls, decode) == UsageRows(f, p, decode)
  {
    var s := f[p..];
    var lines, tail := CompleteLines(s), Tail(s);
    forall i | 0 <= i < |lines| && lines[i] in decode ensures |lines[i]| <= maxLine {
      UsageLinesFit(f, p, lines[i], decode, maxLine);
    }
    if tail in decode { UsageLinesFit(f, p, tail, decode, maxLine); }
    CallsGiveRows(lines, 0, decode, size, maxLine);
    var handed := Calls(Number(lines, 0), size, maxLine, {});
    DecodedAppend(handed, calls[|handed|..], decode);
    assert calls == handed + calls[|handed|..];
    RowsAppend(lines, [tail], decode);
    assert Decoded(calls[|handed|..], decode) == RowsOf([tail], decode);
  }

  method DecodeAll(calls: seq<Piece>, decode: Decoder) returns (rows: seq<Entry>)
    ensures rows == Decoded(calls, decode)
  {
    rows := [];
    for i := 0 to |calls|
      invariant rows + Decoded(calls[i..], decode) == Decoded(calls, decode)
    {
      assert calls[i..][1..] == calls[i + 1..];
      if calls[i].line in decode { rows := rows + [decode[calls[i].line]]; }
    }
  }

  /** readUsageFrom's rows, from any start. */
  method ReadUsage(f: seq<Byte>, start: nat, decode: Decoder, size: nat, maxLine: nat) returns (rows: seq<Entry>)
    requires start <= |f| && size > 0 && PiecesTell(f, decode) && WithinLimit(f, decode, maxLine)
    ensures rows == UsageRows(f, start, decode)
  {
    var r := new Reader(f[start..], size, Eof);
    var calls, failed := EachLineAt(r, maxLine, {});
    ReadsGiveRows(f, start, decode, size, maxLine, calls);
    rows := DecodeAll(calls, decode);
  }

  // ---------- the probe ----------

  lemma {:induction false} CallsArePieces(pieces: seq<Piece>, size: nat, maxLine: nat, enders: set<Piece>, piece: Piece)
    requires size > 0 && piece in Calls(pieces, size, maxLine, enders)
    ensures piece in pieces
  {
    if piece != pieces[0] { CallsArePieces(pieces[1..], size, maxLine, enders, piece); }
  }

  /** Offsets are positions. */
  lemma {:induction false} NumberedAt(lines: seq<seq<Byte>>, base: nat, more: seq<Byte>, piece: Piece)
    requires piece in Number(lines, base)
    ensures piece.line in lines && base <= piece.off
    ensures var at, s := piece.off - base, Join(lines) + more;
      at + |piece.line| <= |Join(lines)| && s[at..at + |piece.line|] == piece.line
  {
    Regroup(lines[0], Join(lines[1..]), more);
    if piece == Piece(base, lines[0]) {
      FrontIs(lines[0], Join(lines[1..]) + more);
    } else {
      NumberedAt(lines[1..], base + |lines[0]|, more, piece);
      var rest, at := Join(lines[1..]) + more, piece.off - base - |lines[0]|;
      DropFront(lines[0], rest, at, |piece.line|);
    }
  }

  lemma FrontIs(front: seq<Byte>, rest: seq<Byte>)
    ensures (front + rest)[0..|front|] == front
  {
  }

  lemma DropFront(front: seq<Byte>, rest: seq<Byte>, at: nat, n: nat)
    requires at + n <= |rest|
    ensures (front + rest)[|front| + at..|front| + at + n] == rest[at..at + n]
  {
    var a, b := (front + rest)[|front| + at..|front| + at + n], rest[at..at + n];
    forall i | 0 <= i < n ensures a[i] == b[i] { }
  }

  /** Either the read ends at the first passing ender, or there is none. */
  lemma {:induction false} CallsEndAtFirst(pieces: seq<Piece>, size: nat, maxLine: nat, enders: set<Piece>, i: nat)
    requires size > 0 && i < |pieces| && Passes(|pieces[i].line|, size, maxLine) && pieces[i] in enders
    ensures var calls := Calls(pieces, size, maxLine, enders);
      Stops(calls, enders) && exists k: nat :: k <= i && pieces[k] == calls[|calls| - 1]
  {
    if i > 0 && !(Passes(|pieces[0].line|, size, maxLine) && pieces[0] in enders) {
      CallsEndAtFirst(pieces[1..], size, maxLine, enders, i - 1);
      var calls := Calls(pieces[1..], size, maxLine, enders);
      var k: nat :| k <= i - 1 && pieces[1..][k] == calls[|calls| - 1];
      assert pieces[k + 1] == calls[|calls| - 1];
    } else {
      assert pieces[0] == Calls(pieces, size, maxLine, enders)[0];
    }
  }

  lemma {:induction false} NumberGrows(lines: seq<seq<Byte>>, base: nat, i: nat, k: nat)
    requires k <= i < |Number(lines, base)|
    ensures base <= Number(lines, base)[k].off <= Number(lines, base)[i].off
  {
    if i > 0 {
      NumberGrows(lines[1..], base + |lines[0]|, i - 1, if k > 0 then k - 1 else 0);
    }
  }

  lemma {:induction false} NumberAppend(a: seq<seq<Byte>>, b: seq<seq<Byte>>, base: nat)
    ensures Number(a + b, base) == Number(a, base) + Number(b, base + |Join(a)|)
  {
    if a == [] {
      assert a + b == b;
    } else {
      assert (a + b)[1..] == a[1..] + b;
      NumberAppend(a[1..], b, base + |a[0]|);
    }
  }

  predicate Terminated(x: seq<Byte>) { x == [] || x[|x| - 1] == NL }

  lemma TailOfTerminated(s: seq<Byte>)
    requires Terminated(s)
    ensures Tail(s) == [] && Join(CompleteLines(s)) == s
  {
    LinesJoinBack(s);
    var lines, t := Join(CompleteLines(s)), Tail(s);
    if t != [] { LastOfSum(lines, t); } else { assert lines + t == lines; }
  }

  lemma LastOfSum(a: seq<Byte>, b: seq<Byte>)
    requires b != []
    ensures (a + b)[|a + b| - 1] == b[|b| - 1]
  {
  }

  /** The lines of a stream after x, itself ended. */
  lemma LinesAfter(x: seq<Byte>, z: seq<Byte>)
    requires Terminated(x)
    ensures CompleteLines(x + z) == CompleteLines(x) + CompleteLines(z) && Tail(x + z) == Tail(z)
    ensures |Join(CompleteLines(x))| == |x|
  {
    TailOfTerminated(x);
    LinesAppend(x, z);
    assert [] + z == z;
  }

  /** The line that begins there is one of its pieces. */
  lemma LineIsPiece(x: seq<Byte>, line: seq<Byte>, y: seq<Byte>)
    requires Terminated(x) && IsLine(line)
    ensures Piece(|x|, line) in LinesFrom(x + line + y, 0)
  {
    Regroup(x, line, y);
    LinesAfter(x, line + y);
    FirstLine(line, y);
    PieceInMiddle(CompleteLines(x), line, CompleteLines(y));
  }

  lemma PieceInMiddle(a: seq<seq<Byte>>, line: seq<Byte>, b: seq<seq<Byte>>)
    ensures Piece(|Join(a)|, line) in Number(a + ([line] + b), 0)
  {
    NumberAppend(a, [line] + b, 0);
    NumberCons(line, b, |Join(a)|);
    var rest := Number([line] + b, |Join(a)|);
    assert rest[0] == Piece(|Join(a)|, line);
    assert (Number(a, 0) + rest)[|Number(a, 0)|] == rest[0];
  }

  /** What a probe of f[from..to] reports of the calls it made. */
  ghost predicate ProbeResult(f: seq<Byte>, from: nat, to: nat, decode: Decoder, found: Option<(nat, int)>)
    requires from <= to <= |f|
  {
    match found
    case Some((at, ms)) =>
      && from <= at < to && IsUsage(f, at, decode) && UsageAt(f, at, decode).ms == ms
      && forall u: nat :: from <= u < at ==> !IsUsage(f, u, decode)
    case None => forall u: nat :: from <= u && u <= |f| && IsUsage(f, u, decode) ==> EndOf(f, u) > to
  }

  predicate Decodes(calls: seq<Piece>, decode: Decoder) { calls != [] && calls[|calls| - 1].line in decode }

  /** The calls that end a probe: pieces whose line decodes. */
  ghost predicate EndersAre(enders: set<Piece>, length: nat, decode: Decoder) {
    && (forall e :: e in enders ==> e.line in decode)
    && (forall off: nat, line {:trigger Piece(off, line)} :: off <= length && line in decode ==> Piece(off, line) in enders)
  }

  lemma ProbeReads(f: seq<Byte>, from: nat, to: nat, decode: Decoder, size: nat, maxLine: nat, enders: set<Piece>, calls: seq<Piece>)
    requires from <= to <= |f| && size > 0 && PiecesTell(f, decode) && WithinLimit(f, decode, maxLine)
    requires EndersAre(enders, to - from, decode) && Reads(f[from..to], size, maxLine, enders, calls, false)
    ensures ProbeResult(f, from, to, decode,
                        if Decodes(calls, decode) then Some((from + calls[|calls| - 1].off, decode[calls[|calls| - 1].line].ms)) else None)
  {
    if Decodes(calls, decode) {
      var at := from + calls[|calls| - 1].off;
      FoundIsUsage(f, from, to, decode, size, maxLine, enders, calls);
      forall u: nat | from <= u < at ensures !IsUsage(f, u, decode) {
        if IsUsage(f, u, decode) { NotBeforeFound(f, from, to, u, decode, size, maxLine, enders, calls); }
      }
    } else {
      forall u: nat | from <= u && u <= |f| && IsUsage(f, u, decode) ensures EndOf(f, u) > to {
        if EndOf(f, u) <= to { UsageIsMet(f, from, to, u, decode, size, maxLine, enders, calls); }
      }
    }
  }

  lemma NotBeforeFound(f: seq<Byte>, from: nat, to: nat, u: nat, decode: Decoder, size: nat, maxLine: nat, enders: set<Piece>,
                       calls: seq<Piece>)
    requires from <= u <= to <= |f| && size > 0 && WithinLimit(f, decode, maxLine) && EndersAre(enders, to - from, decode)
    requires Reads(f[from..to], size, maxLine, enders, calls, false) && Decodes(calls, decode) && IsUsage(f, u, decode)
    requires from + calls[|calls| - 1].off < to && LineStart(f, from + calls[|calls| - 1].off)
    ensures u >= from + calls[|calls| - 1].off
  {
    var at := from + calls[|calls| - 1].off;
    if u < at {
      LineEndsBefore(f, u, at);
      UsageIsMet(f, from, to, u, decode, size, maxLine, enders, calls);
    }
  }

  lemma LineEndsBefore(f: seq<Byte>, u: nat, at: nat)
    requires u < at < |f| && LineStart(f, at)
    ensures EndOf(f, u) <= at
  {
  }

  lemma FoundIsUsage(f: seq<Byte>, from: nat, to: nat, decode: Decoder, size: nat, maxLine: nat, enders: set<Piece>, calls: seq<Piece>)
    requires from <= to <= |f| && size > 0 && PiecesTell(f, decode) && Decodes(calls, decode)
    requires Reads(f[from..to], size, maxLine, enders, calls, false)
    ensures var last := calls[|calls| - 1]; var at := from + last.off;
      at < to && IsUsage(f, at, decode) && UsageAt(f, at, decode) == decode[last.line]
  {
    var s, last := f[from..to], calls[|calls| - 1];
    var handed := Calls(LinesFrom(s, 0), size, maxLine, enders);
    assert last in handed || last == LastPiece(s, 0) by {
      if |calls| > |handed| { assert calls[|handed|..][|calls| - |handed| - 1] == last; } else { assert calls == handed; }
    }
    PiecePosition(s, last, size, maxLine, enders);
    PieceIsUsage(f, from, to, last.off, last.line, decode);
  }

  lemma PiecePosition(s: seq<Byte>, piece: Piece, size: nat, maxLine: nat, enders: set<Piece>)
    requires size > 0 && (piece in Calls(LinesFrom(s, 0), size, maxLine, enders) || piece == LastPiece(s, 0))
    ensures piece.off + |piece.line| <= |s| && s[piece.off..piece.off + |piece.line|] == piece.line
    ensures piece.line != [] ==> NL !in piece.line[..|piece.line| - 1]
    ensures piece in Calls(LinesFrom(s, 0), size, maxLine, enders) ==> piece.off + |piece.line| <= |s| - |Tail(s)|
  {
    LinesJoinBack(s);
    if piece in Calls(LinesFrom(s, 0), size, maxLine, enders) {
      CallsArePieces(LinesFrom(s, 0), size, maxLine, enders, piece);
      NumberedPosition(CompleteLines(s), Tail(s), piece);
    } else {
      AtTheEnd(Join(CompleteLines(s)), Tail(s));
    }
  }

  lemma NumberedPosition(lines: seq<seq<Byte>>, tail: seq<Byte>, piece: Piece)
    requires piece in Number(lines, 0) && forall i :: 0 <= i < |lines| ==> IsLine(lines[i])
    ensures var s := Join(lines) + tail;
      piece.off + |piece.line| <= |s| - |tail| && s[piece.off..piece.off + |piece.line|] == piece.line
    ensures IsLine(piece.line)
  {
    NumberedAt(lines, 0, tail, piece);
  }

  lemma AtTheEnd(a: seq<Byte>, b: seq<Byte>)
    ensures (a + b)[|a + b| - |b|..] == b
  {
  }

  /** A usage line within the probed bytes is met, unless an earlier one is. */
  lemma UsageIsMet(f: seq<Byte>, from: nat, to: nat, u: nat, decode: Decoder, size: nat, maxLine: nat, enders: set<Piece>,
                   calls: seq<Piece>)
    requires from <= u <= to <= |f| && size > 0 && WithinLimit(f, decode, maxLine) && EndersAre(enders, to - from, decode)
    requires Reads(f[from..to], size, maxLine, enders, calls, false)
    requires IsUsage(f, u, decode) && EndOf(f, u) <= to
    ensures Decodes(calls, decode) && calls[|calls| - 1].off <= u - from
  {
    var e := EndOf(f, u);
    var x, line, y := f[from..u], f[u..e], f[e..to];
    ShortLinesPass(|line|, size, maxLine);
    SectionSplit(f, from, u, to, decode);
    if f[e - 1] == NL {
      LineIsPiece(x, line, y);
      EnderIsMet(f[from..to], Piece(|x|, line), decode, size, maxLine, enders, calls);
    } else {
      TailIsMet(x, line, decode, size, maxLine, enders, calls);
    }
  }

  lemma SectionSplit(f: seq<Byte>, from: nat, u: nat, to: nat, decode: Decoder)
    requires from <= u <= to <= |f| && IsUsage(f, u, decode) && EndOf(f, u) <= to
    ensures var e := EndOf(f, u); var x, line, y := f[from..u], f[u..e], f[e..to];
      && f[from..to] == x + line + y && Terminated(x)
      && (if f[e - 1] == NL then IsLine(line) else f[from..to] == x + line && NL !in line)
  {
    var e := EndOf(f, u);
    var line := f[u..e];
    forall k | 0 <= k < |line| - 1 ensures line[k] != NL && line[..|line| - 1][k] == line[k] {
      assert line[k] == f[u + k];
    }
    if f[e - 1] != NL {
      assert e == |f| && f[e..to] == [];
      assert f[from..u] + line + [] == f[from..u] + line;
    }
  }

  lemma EnderIsMet(s: seq<Byte>, piece: Piece, decode: Decoder, size: nat, maxLine: nat, enders: set<Piece>, calls: seq<Piece>)
    requires size > 0 && EndersAre(enders, |s|, decode) && Reads(s, size, maxLine, enders, calls, false)
    requires piece in LinesFrom(s, 0) && Passes(|piece.line|, size, maxLine) && piece.line in decode && piece.off <= |s|
    ensures Decodes(calls, decode) && calls[|calls| - 1].off <= piece.off
  {
    var pieces := LinesFrom(s, 0);
    var i: nat :| i < |pieces| && pieces[i] == piece;
    assert piece == Piece(piece.off, piece.line);
    CallsEndAtFirst(pieces, size, maxLine, enders, i);
    var k: nat :| k <= i && pieces[k] == calls[|calls| - 1];
    NumberGrows(CompleteLines(s), 0, i, k);
  }

  lemma TailIsMet(x: seq<Byte>, line: seq<Byte>, decode: Decoder, size: nat, maxLine: nat, enders: set<Piece>, calls: seq<Piece>)
    requires size > 0 && EndersAre(enders, |x + line|, decode) && Reads(x + line, size, maxLine, enders, calls, false)
    requires Terminated(x) && NL !in line && line in decode && |line| <= maxLine
    ensures Decodes(calls, decode) && calls[|calls| - 1].off <= |x|
  {
    var s := x + line;
    LinesAfter(x, line);
    assert LastPiece(s, 0) == Piece(|x|, line);
    var handed := Calls(LinesFrom(s, 0), size, maxLine, enders);
    if Stops(handed, enders) {
      PiecePosition(s, handed[|handed| - 1], size, maxLine, enders);
    } else {
      assert calls[|handed|..][0] == calls[|calls| - 1];
    }
  }

  /** probeUsage: the first usage line beginning in the probed bytes, if it also
      ends there. */
  method ProbeUsage(f: seq<Byte>, from: nat, decode: Decoder, size: nat, maxLine: nat, probe: nat)
    returns (found: Option<(nat, int)>)
    requires from <= |f| && size > 0 && PiecesTell(f, decode) && WithinLimit(f, decode, maxLine)
    ensures ProbeResult(f, from, Min(from + probe, |f|), decode, found)
  {
    var s := f[from..Min(from + probe, |f|)];
    var r := new Reader(s, size, Eof);
    var enders := set off: nat, line | off <= |s| && line in decode.Keys :: Piece(off, line);
    var calls, failed := EachLineAt(r, maxLine, enders);
    ProbeReads(f, from, Min(from + probe, |f|), decode, size, maxLine, enders, calls);
    if Decodes(calls, decode) {
      var last := calls[|calls| - 1];
      return Some((from + last.off, decode[last.line].ms));
    }
    return None;
  }

  // ---------- the bisection ----------

  /** usageSeek, with hi - lo strictly decreasing. */
  method UsageSeek(f: seq<Byte>, lo0: nat, hi0: nat, cutoff: int, decode: Decoder, size: nat, maxLine: nat, probe: nat)
    returns (lo: nat)
    requires lo0 <= |f| && hi0 <= |f| && size > 0 && maxLine > 0
    requires PiecesTell(f, decode) && WithinLimit(f, decode, maxLine) && InTimeOrder(f, decode)
    ensures lo0 <= lo <= |f|
    ensures lo == lo0 || (IsUsage(f, lo, decode) && UsageAt(f, lo, decode).ms <= cutoff)
    ensures hi0 == |f| && ProbesReach(f, decode, cutoff, probe) ==> NearLast(f, lo, decode, cutoff, maxLine)
    ensures Bisects(f, lo0, hi0, cutoff, decode, maxLine, probe, lo)
  {
    lo := lo0;
    var hi: nat := hi0;
    while hi - lo > maxLine
      invariant lo0 <= lo <= |f| && hi <= |f|
      invariant lo == lo0 || (IsUsage(f, lo, decode) && UsageAt(f, lo, decode).ms <= cutoff)
      invariant hi0 == |f| && ProbesReach(f, decode, cutoff, probe) ==> NoneFrom(f, hi, decode, cutoff)
      invariant LeadsOn(f, lo0, hi0, lo, hi, cutoff, decode, maxLine, probe)
      decreases hi - lo
    {
      var mid: nat := lo + (hi - lo) / 2;
      var found := ProbeUsage(f, mid, decode, size, maxLine, probe);
      if found.Some? && found.value.1 <= cutoff {
        BisectsOn(f, lo0, hi0, lo, hi, cutoff, decode, maxLine, probe, found, found.value.0, hi);
        lo := found.value.0;
      } else {
        BisectsOn(f, lo0, hi0, lo, hi, cutoff, decode, maxLine, probe, found, lo, mid);
        LaterFrom(f, mid, decode, cutoff, probe, found);
        hi := mid;
      }
    }
  }

  /** lo is within maxLine of the last usage line at or before the cutoff. */
  ghost predicate NearLast(f: seq<Byte>, lo: nat, decode: Decoder, cutoff: int, maxLine: nat) {
    forall u: nat :: u <= |f| && IsUsage(f, u, decode) && UsageAt(f, u, decode).ms <= cutoff ==> u < lo + maxLine
  }

  /** `out` is where the bisection from [lo, hi) may end. */
  ghost predicate Bisects(f: seq<Byte>, lo: nat, hi: nat, cutoff: int, decode: Decoder, maxLine: nat, probe: nat, out: nat)
    requires lo <= |f| && hi <= |f| && maxLine > 0
    decreases if hi > lo then hi - lo else 0
  {
    if hi - lo <= maxLine then out == lo
    else
      var mid: nat := lo + (hi - lo) / 2;
      exists found: Option<(nat, int)> :: ProbeResult(f, mid, Min(mid + probe, |f|), decode, found) &&
        if found.Some? && found.value.1 <= cutoff then Bisects(f, found.value.0, hi, cutoff, decode, maxLine, probe, out)
        else Bisects(f, lo, mid, cutoff, decode, maxLine, probe, out)
  }

  /** Where the bisection may end from [lo, hi) it may end from [lo0, hi0). */
  ghost predicate LeadsOn(f: seq<Byte>, lo0: nat, hi0: nat, lo: nat, hi: nat, cutoff: int, decode: Decoder, maxLine: nat, probe: nat)
    requires lo0 <= |f| && hi0 <= |f| && lo <= |f| && hi <= |f| && maxLine > 0
  {
    forall out: nat :: Bisects(f, lo, hi, cutoff, decode, maxLine, probe, out) ==>
      Bisects(f, lo0, hi0, cutoff, decode, maxLine, probe, out)
  }

  /** One round, to [lo', hi'). */
  lemma BisectsOn(f: seq<Byte>, lo0: nat, hi0: nat, lo: nat, hi: nat, cutoff: int, decode: Decoder, maxLine: nat, probe: nat,
                  found: Option<(nat, int)>, lo': nat, hi': nat)
    requires lo0 <= |f| && hi0 <= |f| && lo <= |f| && hi <= |f| && hi - lo > maxLine > 0
    requires LeadsOn(f, lo0, hi0, lo, hi, cutoff, decode, maxLine, probe)
    requires ProbeResult(f, lo + (hi - lo) / 2, Min(lo + (hi - lo) / 2 + probe, |f|), decode, found)
    requires if found.Some? && found.value.1 <= cutoff then lo' == found.value.0 && hi' == hi
             else lo' == lo && hi' == lo + (hi - lo) / 2
    ensures lo' <= |f| && hi' <= |f| && LeadsOn(f, lo0, hi0, lo', hi', cutoff, decode, maxLine, probe)
  {
    var mid: nat := lo + (hi - lo) / 2;
    forall out: nat | Bisects(f, lo', hi', cutoff, decode, maxLine, probe, out)
      ensures Bisects(f, lo0, hi0, cutoff, decode, maxLine, probe, out)
    {
      assert ProbeResult(f, mid, Min(mid + probe, |f|), decode, found) &&
        if found.Some? && found.value.1 <= cutoff then Bisects(f, found.value.0, hi, cutoff, decode, maxLine, probe, out)
        else Bisects(f, lo, mid, cutoff, decode, maxLine, probe, out);
      assert Bisects(f, lo, hi, cutoff, decode, maxLine, probe, out);
    }
  }

  /** No usage line at or before the cutoff begins at or after p. */
  ghost predicate NoneFrom(f: seq<Byte>, p: nat, decode: Decoder, cutoff: int) {
    forall u: nat :: p <= u <= |f| && IsUsage(f, u, decode) ==> UsageAt(f, u, decode).ms > cutoff
  }

  /** From anywhere before the last usage line at or before the cutoff, a probe
      reaches some usage line. */
  ghost predicate ProbesReach(f: seq<Byte>, decode: Decoder, cutoff: int, probe: nat) {
    forall m: nat :: m <= |f| && !NoneFrom(f, m, decode, cutoff) ==> Reached(f, m, decode, probe)
  }

  ghost predicate Reached(f: seq<Byte>, m: nat, decode: Decoder, probe: nat) {
    exists u: nat :: m <= u <= |f| && IsUsage(f, u, decode) && EndOf(f, u) <= m + probe
  }

  lemma LaterFrom(f: seq<Byte>, mid: nat, decode: Decoder, cutoff: int, probe: nat, found: Option<(nat, int)>)
    requires mid <= |f| && InTimeOrder(f, decode) && ProbeResult(f, mid, Min(mid + probe, |f|), decode, found)
    requires found.Some? ==> found.value.1 > cutoff
    ensures ProbesReach(f, decode, cutoff, probe) ==> NoneFrom(f, mid, decode, cutoff)
  {
    match found
    case Some((at, ms)) =>
      forall u: nat | mid <= u <= |f| && IsUsage(f, u, decode) ensures UsageAt(f, u, decode).ms > cutoff {
        assert u >= at;
      }
    case None =>
      forall u: nat | mid <= u <= |f| && IsUsage(f, u, decode) ensures EndOf(f, u) > mid + probe {
        assert EndOf(f, u) > Min(mid + probe, |f|);
      }
      assert !Reached(f, mid, decode, probe);
  }

  // ---------- far from the last line ----------

  /** Probes that all fall short leave the start where it was. */
  lemma {:induction false} MissesStayPut(f: seq<Byte>, lo: nat, hi: nat, cutoff: int, decode: Decoder, maxLine: nat, probe: nat, out: nat)
    requires lo <= hi <= |f| && maxLine > 0 && Bisects(f, lo, hi, cutoff, decode, maxLine, probe, out)
    requires forall u: nat :: u <= |f| && IsUsage(f, u, decode) ==> u >= lo + (hi - lo) / 2 + probe
    ensures out == lo
    decreases hi - lo
  {
    if hi - lo > maxLine {
      var mid: nat := lo + (hi - lo) / 2;
      var found: Option<(nat, int)> :| ProbeResult(f, mid, Min(mid + probe, |f|), decode, found) &&
        if found.Some? && found.value.1 <= cutoff then Bisects(f, found.value.0, hi, cutoff, decode, maxLine, probe, out)
        else Bisects(f, lo, mid, cutoff, decode, maxLine, probe, out);
      assert found.None? by { NothingFound(f, mid, probe, decode, found); }
      MissesStayPut(f, lo, mid, cutoff, decode, maxLine, probe, out);
    }
  }

  lemma NothingFound(f: seq<Byte>, mid: nat, probe: nat, decode: Decoder, found: Option<(nat, int)>)
    requires mid <= |f| && ProbeResult(f, mid, Min(mid + probe, |f|), decode, found)
    requires forall u: nat :: u <= |f| && IsUsage(f, u, decode) ==> u >= mid + probe
    ensures found.None?
  {
  }

  /** n blank lines and one usage line. */
  function SparseFile(n: nat): seq<Byte> { seq(n, i => NL) + [0x75, NL] }

  const SPARSE_DECODER: Decoder := map[[0x75, NL] := Entry(0, "m", "model", Tokens(1, 0, 0, 0))]

  lemma SparseFileIsSound(n: nat, maxLine: nat)
    requires n > 0 && maxLine >= 2
    ensures var f := SparseFile(n);
      && PiecesTell(f, SPARSE_DECODER) && WithinLimit(f, SPARSE_DECODER, maxLine) && InTimeOrder(f, SPARSE_DECODER)
      && IsUsage(f, n, SPARSE_DECODER) && UsageAt(f, n, SPARSE_DECODER).ms == 0
      && forall u: nat :: u <= |f| && IsUsage(f, u, SPARSE_DECODER) ==> u == n
  {
    var f, line: seq<Byte> := SparseFile(n), [0x75, NL];
    assert forall k: nat :: k < |f| && f[k] == 0x75 ==> k == n;
    assert f[n - 1] == NL && f[n + 1] == NL && |f| == n + 2;
    assert EndOf(f, n) == n + 2;
    assert f[n..n + 2] == line;
    forall p: nat, q: nat | p <= q <= |f| && f[p..q] in SPARSE_DECODER ensures p == n && q == n + 2 {
      assert f[p..q][0] == 0x75;
    }
  }

  /** Files whose bisected start is too early: sound ones in which no ending of
      the bisection is near the last usage line. */
  ghost predicate StartsFar(f: seq<Byte>, decode: Decoder, cutoff: int, maxLine: nat, probe: nat)
    requires maxLine > 0
  {
    && PiecesTell(f, decode) && WithinLimit(f, decode, maxLine) && InTimeOrder(f, decode)
    && forall out: nat :: Bisects(f, 0, |f|, cutoff, decode, maxLine, probe, out) ==> !NearLast(f, out, decode, cutoff, maxLine)
  }

  /** Whatever the limits are, such a file exists: its usage line lies beyond what
      every probe reaches. */
  lemma SeekMayStartFar(maxLine: nat, probe: nat)
    requires maxLine >= 2
    ensures exists f: seq<Byte>, decode: Decoder, cutoff: int :: StartsFar(f, decode, cutoff, maxLine, probe)
  {
    var n := 2 * probe + maxLine + 3;
    var f := SparseFile(n);
    SparseFileIsSound(n, maxLine);
    forall out: nat | Bisects(f, 0, |f|, 0, SPARSE_DECODER, maxLine, probe, out)
      ensures !NearLast(f, out, SPARSE_DECODER, 0, maxLine)
    {
      MissesStayPut(f, 0, |f|, 0, SPARSE_DECODER, maxLine, probe, out);
    }
    assert StartsFar(f, SPARSE_DECODER, 0, maxLine, probe);
  }

  // ---------- nothing is missed ----------

  predicate InWindow(e: Entry, since: int, until: int) { e.ms > since && (until == 0 || e.ms <= until) }

  function Window(rows: seq<Entry>, since: int, until: int): seq<Entry> {
    if rows == [] then [] else (if InWindow(rows[0], since, until) then [rows[0]] else []) + Window(rows[1..], since, until)
  }

  lemma {:induction false} WindowAppend(a: seq<Entry>, b: seq<Entry>, since: int, until: int)
    ensures Window(a + b, since, until) == Window(a, since, until) + Window(b, since, until)
  {
    if a == [] {
      assert a + b == b;
    } else {
      assert (a + b)[1..] == a[1..] + b;
      WindowAppend(a[1..], b, since, until);
      Regroup(if InWindow(a[0], since, until) then [a[0]] else [], Window(a[1..], since, until), Window(b, since, until));
    }
  }

  lemma {:induction false} EarlierThanWindow(lines: seq<seq<Byte>>, decode: Decoder, since: int, until: int)
    requires forall i :: 0 <= i < |lines| && lines[i] in decode ==> decode[lines[i]].ms <= since
    ensures Window(RowsOf(lines, decode), since, until) == []
  {
    if lines != [] {
      EarlierThanWindow(lines[1..], decode, since, until);
      WindowAppend(if lines[0] in decode then [decode[lines[0]]] else [], RowsOf(lines[1..], decode), since, until);
    }
  }

  /** Starting at a usage line no later than the window's start gives the window's
      rows that starting at any earlier position gives. */
  lemma SeekEqualsFull(f: seq<Byte>, from: nat, lo: nat, decode: Decoder, cutoff: int, since: int, until: int)
    requires from <= lo <= |f| && PiecesTell(f, decode) && InTimeOrder(f, decode) && cutoff <= since
    requires lo == from || (IsUsage(f, lo, decode) && UsageAt(f, lo, decode).ms <= cutoff)
    ensures Window(UsageRows(f, lo, decode), since, until) == Window(UsageRows(f, from, decode), since, until)
  {
    if lo != from {
      var x, y := f[from..lo], f[lo..];
      assert f[from..] == x + y;
      assert x[|x| - 1] == NL;
      LinesAfter(x, y);
      var lines := CompleteLines(x);
      Regroup(lines, CompleteLines(y), [Tail(y)]);
      RowsAppend(lines, CompleteLines(y) + [Tail(y)], decode);
      WindowAppend(RowsOf(lines, decode), UsageRows(f, lo, decode), since, until);
      forall i | 0 <= i < |lines| && lines[i] in decode ensures decode[lines[i]].ms <= since {
        var at := DecodedLineIsUsage(f, from, lo, lines[i], decode);
      }
      EarlierThanWindow(lines, decode, since, until);
    }
  }

  /** usageStart and readUsageFrom: `offset` past the end reads from the start;
      `seekPast` is the size from which the bisection is used.  The rows in the
      window are those a read from `offset` itself gives. */
  method ReadWindow(f: seq<Byte>, offset: nat, since: int, until: int, slack: nat, seekPast: nat, hasSince: bool,
                    decode: Decoder, size: nat, maxLine: nat, probe: nat) returns (rows: seq<Entry>)
    requires size > 0 && maxLine > 0 && PiecesTell(f, decode) && WithinLimit(f, decode, maxLine) && InTimeOrder(f, decode)
    ensures Window(rows, since, until) == Window(UsageRows(f, if offset > |f| then 0 else offset, decode), since, until)
  {
    var from := if offset > |f| then 0 else offset;
    var start := from;
    if hasSince && |f| - from > seekPast {
      start := UsageSeek(f, from, |f|, since - slack, decode, size, maxLine, probe);
      SeekEqualsFull(f, from, start, decode, since - slack, since, until);
    }
    rows := ReadUsage(f, start, decode, size, maxLine);
  }
}
