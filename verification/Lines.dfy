/** Byte streams cut into lines, and the buffered reader both line loops use. */
module Lines {
  import opened Wrappers

  type Byte = x: int | 0 <= x < 256

  const NL: Byte := 10

  predicate HasNewline(s: seq<Byte>) { NL in s }

  /** The offset just past the first newline. */
  function LineEnd(s: seq<Byte>): (n: nat)
    requires HasNewline(s)
    ensures 0 < n <= |s| && s[n - 1] == NL && NL !in s[..n - 1]
  {
    if s[0] == NL then 1
    else
      assert s == [s[0]] + s[1..];
      var n := LineEnd(s[1..]);
      assert s[..n] == [s[0]] + s[1..][..n - 1];
      n + 1
  }

  lemma LineEndUnique(s: seq<Byte>, n: nat)
    requires 0 < n <= |s| && s[n - 1] == NL && NL !in s[..n - 1]
    ensures HasNewline(s) && LineEnd(s) == n
  {
    var m := LineEnd(s);
    forall k | 0 <= k < n - 1 ensures s[k] != NL { assert s[k] == s[..n - 1][k]; }
    forall k | 0 <= k < m - 1 ensures s[k] != NL { assert s[k] == s[..m - 1][k]; }
  }

  /** A chunk without newline in front of a stream only moves its first line's
      end. */
  lemma LineEndAfter(chunk: seq<Byte>, rest: seq<Byte>)
    requires NL !in chunk
    ensures HasNewline(chunk + rest) <==> HasNewline(rest)
    ensures HasNewline(rest) ==> LineEnd(chunk + rest) == |chunk| + LineEnd(rest)
  {
    var s := chunk + rest;
    if HasNewline(rest) {
      var n := LineEnd(rest);
      assert s[..|chunk| + n - 1] == chunk + rest[..n - 1];
      LineEndUnique(s, |chunk| + n);
    }
  }

  /** The complete lines, newline included, and what follows the last one. */
  function CompleteLines(s: seq<Byte>): seq<seq<Byte>>
    decreases |s|
  {
    if HasNewline(s) then [s[..LineEnd(s)]] + CompleteLines(s[LineEnd(s)..]) else []
  }

  function Tail(s: seq<Byte>): (t: seq<Byte>)
    ensures |t| <= |s|
    decreases |s|
  {
    if HasNewline(s) then Tail(s[LineEnd(s)..]) else s
  }

  function Join(lines: seq<seq<Byte>>): seq<Byte> {
    if lines == [] then [] else lines[0] + Join(lines[1..])
  }

  predicate IsLine(line: seq<Byte>) { line != [] && line[|line| - 1] == NL && NL !in line[..|line| - 1] }

  lemma {:induction false} LinesJoinBack(s: seq<Byte>)
    ensures JoinsBack(s)
    decreases |s|
  {
    if HasNewline(s) {
      var first, rest := SplitFirst(s);
      LinesJoinBack(rest);
      JoinBackStep(first, rest);
    }
  }

  lemma SplitFirst(s: seq<Byte>) returns (first: seq<Byte>, rest: seq<Byte>)
    requires HasNewline(s)
    ensures s == first + rest && IsLine(first)
  {
    var n := LineEnd(s);
    first, rest := s[..n], s[n..];
    assert first[..n - 1] == s[..n - 1];
  }

  ghost predicate JoinsBack(s: seq<Byte>) {
    && Join(CompleteLines(s)) + Tail(s) == s
    && NL !in Tail(s)
    && forall i :: 0 <= i < |CompleteLines(s)| ==> IsLine(CompleteLines(s)[i])
  }

  lemma JoinBackStep(first: seq<Byte>, rest: seq<Byte>)
    requires IsLine(first) && JoinsBack(rest)
    ensures JoinsBack(first + rest)
  {
    FirstLine(first, rest);
    var lines := CompleteLines(rest);
    assert ([first] + lines)[1..] == lines;
    Regroup(first, Join(lines), Tail(rest));
  }

  lemma FirstLine(line: seq<Byte>, rest: seq<Byte>)
    requires IsLine(line)
    ensures HasNewline(line + rest) && LineEnd(line + rest) == |line|
    ensures CompleteLines(line + rest) == [line] + CompleteLines(rest) && Tail(line + rest) == Tail(rest)
  {
    var s := line + rest;
    assert s[..|line| - 1] == line[..|line| - 1];
    LineEndUnique(s, |line|);
    assert s[..|line|] == line && s[|line|..] == rest;
  }

  /** Complete lines in front of a stream are its first lines. */
  lemma {:induction false} LinesOfCut(head: seq<seq<Byte>>, more: seq<Byte>)
    requires forall i :: 0 <= i < |head| ==> IsLine(head[i])
    ensures CompleteLines(Join(head) + more) == head + CompleteLines(more)
    ensures Tail(Join(head) + more) == Tail(more)
  {
    if head == [] {
      assert Join(head) + more == more;
    } else {
      LinesOfCut(head[1..], more);
      FirstLine(head[0], Join(head[1..]) + more);
      Regroup(head[0], Join(head[1..]), more);
      Regroup([head[0]], head[1..], CompleteLines(more));
      assert [head[0]] + head[1..] == head;
    }
  }

  /** No other cut of the stream has these properties. */
  lemma LinesAreTheOnlyCut(lines: seq<seq<Byte>>, tail: seq<Byte>)
    requires NL !in tail && forall i :: 0 <= i < |lines| ==> IsLine(lines[i])
    ensures CompleteLines(Join(lines) + tail) == lines && Tail(Join(lines) + tail) == tail
  {
    LinesOfCut(lines, tail);
  }

  lemma LinesAppend(s: seq<Byte>, t: seq<Byte>)
    ensures CompleteLines(s + t) == CompleteLines(s) + CompleteLines(Tail(s) + t)
    ensures Tail(s + t) == Tail(Tail(s) + t)
  {
    LinesJoinBack(s);
    LinesOfCut(CompleteLines(s), Tail(s) + t);
    Regroup(Join(CompleteLines(s)), Tail(s), t);
  }

  lemma ChunkExtends(read: seq<Byte>, chunk: seq<Byte>)
    requires NL !in read
    ensures IsLine(chunk) ==> IsLine(read + chunk)
    ensures NL !in chunk ==> NL !in read + chunk
  {
    if IsLine(chunk) { assert (read + chunk)[..|read + chunk| - 1] == read + chunk[..|chunk| - 1]; }
  }

  /** How a chunk moves the end of the line being gathered. */
  lemma LineAfterChunk(line: seq<Byte>, before: seq<Byte>, chunk: seq<Byte>, rest: seq<Byte>, s: seq<Byte>)
    requires s == line + before && before == chunk + rest && NL !in line
    ensures s == line + chunk + rest
    ensures IsLine(chunk) ==> HasNewline(s) && LineEnd(s) == |line| + |chunk| && s[LineEnd(s)..] == rest && s[..LineEnd(s)] == line + chunk
    ensures NL !in chunk ==> (HasNewline(s) <==> HasNewline(rest))
    ensures NL !in chunk && HasNewline(rest) ==> LineEnd(s) == |line + chunk| + LineEnd(rest)
    ensures rest == [] ==> s == line + chunk
  {
    Regroup(line, chunk, rest);
    if IsLine(chunk) {
      FirstLine(chunk, rest);
      LineEndAfter(line, before);
      assert s[..|line| + |chunk|] == line + chunk;
    } else if NL !in chunk {
      LineEndAfter(line + chunk, rest);
    }
  }

  // ---------- bufio.Reader ----------

  datatype ReadError = Eof | Fault

  datatype SliceEnd = AtNewline | BufferFull | Ended(error: ReadError)

  /** A buffered reader: the bytes still to come, and what the source reports
      after them. */
  class Reader {
    var rest: seq<Byte>
    const size: nat
    const atEnd: ReadError

    constructor (stream: seq<Byte>, bufferSize: nat, error: ReadError)
      requires bufferSize > 0
      ensures rest == stream && size == bufferSize && atEnd == error
    {
      rest, size, atEnd := stream, bufferSize, error;
    }

    /** ReadSlice('\n'): up to the newline, or a buffer without one, or what was
        left.  A source may or may not report its end with its last bytes, so a
        rest that just fills the buffer may come back either way. */
    method ReadSlice() returns (chunk: seq<Byte>, end: SliceEnd)
      modifies this
      ensures old(rest) == chunk + rest
      ensures end.AtNewline? ==> IsLine(chunk) && |chunk| <= size
      ensures end.BufferFull? ==> NL !in chunk && |chunk| == size
      ensures end.Ended? ==> NL !in chunk && rest == [] && |chunk| <= size && end.error == atEnd
    {
      var window := if |rest| < size then |rest| else size;
      if HasNewline(rest[..window]) {
        var n := LineEnd(rest[..window]);
        chunk, end := rest[..n], AtNewline;
        assert rest[..window][..n - 1] == chunk[..n - 1];
        rest := rest[n..];
        return;
      }
      var endWithBytes: bool := *;
      chunk, rest := rest[..window], rest[window..];
      end := if rest == [] && (window < size || endWithBytes) then Ended(atEnd) else BufferFull;
    }
  }
}
