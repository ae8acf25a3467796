/** The read loop's framing: readShimLine over a buffered reader of any size
    (internal/cli/process_readloop.go). */
module ShimReader {
  import opened Wrappers
  import opened Lines

  /** One call's outcome.  `line` is to be discarded when `tooLong`. */
  datatype ReadLine = ReadLine(line: seq<Byte>, tooLong: bool, error: Option<ReadError>)

  /** readShimLine: the next line of the stream, flagged when it is over the cap
      and then not handed out; in every case the stream resumes just past it. */
  method ReadShimLine(r: Reader, cap: nat) returns (out: ReadLine)
    requires r.size > 0
    modifies r
    ensures var s := old(r.rest);
      if HasNewline(s) then
        && r.rest == s[LineEnd(s)..]
        && out.error.None? && out.tooLong == (LineEnd(s) > cap)
        && (!out.tooLong ==> out.line == s[..LineEnd(s)])
      else
        && r.rest == []
        && out.error == Some(r.atEnd) && out.tooLong == (|s| > cap)
        && (!out.tooLong ==> out.line == s)
  {
    ghost var s := r.rest;
    var line: seq<Byte> := [];
    var terminated := false;
    while true
      invariant s == line + r.rest && NL !in line && |line| <= cap
      decreases |r.rest|
    {
      ghost var before := r.rest;
      var chunk, end := r.ReadSlice();
      LineAfterChunk(line, before, chunk, r.rest, s);
      if |chunk| > 0 {
        if |line| + |chunk| > cap {
          terminated := end.AtNewline?;
          if !terminated {
            var error := DrainLine(r, line + chunk, s);
            return ReadLine(line, true, error);
          }
          return ReadLine(line, true, None);
        }
        line := line + chunk;
      }
      match end
      case AtNewline => return ReadLine(line, false, None);
      case BufferFull => 
      case Ended(e) => return ReadLine(line, false, Some(e));
    }
  }

  /** The drain of an overlong line: up to its newline or the stream's end. */
  method DrainLine(r: Reader, ghost gone: seq<Byte>, ghost s: seq<Byte>) returns (error: Option<ReadError>)
    requires r.size > 0 && s == gone + r.rest && NL !in gone
    modifies r
    ensures if HasNewline(s) then error.None? && r.rest == s[LineEnd(s)..] else error == Some(r.atEnd) && r.rest == []
  {
    ghost var read := gone;
    while true
      invariant s == read + r.rest && NL !in read
      decreases |r.rest|
    {
      ghost var before := r.rest;
      var chunk, end := r.ReadSlice();
      LineAfterChunk(read, before, chunk, r.rest, s);
      match end
      case AtNewline => return None;
      case BufferFull => read := read + chunk;
      case Ended(e) => return Some(e);
    }
  }

  // ---------- the loop over it ----------

  datatype Message = Whole(line: seq<Byte>) | TooLong

  function Received(line: seq<Byte>, cap: nat): Message { if |line| <= cap then Whole(line) else TooLong }

  function Messages(lines: seq<seq<Byte>>, cap: nat): seq<Message> {
    if lines == [] then [] else [Received(lines[0], cap)] + Messages(lines[1..], cap)
  }

  /** readLoop's reads until the stream ends: the messages are exactly the
      stream's lines, whatever the buffer size, an overlong one costing no other;
      and the end is classified by whether an overlong piece preceded it. */
  method ReadAll(r: Reader, cap: nat) returns (messages: seq<Message>, afterOversize: bool, error: ReadError)
    requires r.size > 0
    modifies r
    ensures messages == Messages(CompleteLines(old(r.rest)), cap)
    ensures afterOversize == (|Tail(old(r.rest))| > cap) && error == r.atEnd
  {
    messages := [];
    ghost var s := r.rest;
    while true
      invariant Messages(CompleteLines(s), cap) == messages + Messages(CompleteLines(r.rest), cap)
      invariant Tail(s) == Tail(r.rest)
      decreases |r.rest|
    {
      ghost var before := r.rest;
      var out := ReadShimLine(r, cap);
      if out.error.Some? { return messages, out.tooLong, out.error.value; }
      MessagesStep(before, cap);
      Regroup(messages, [if out.tooLong then TooLong else Whole(out.line)], Messages(CompleteLines(r.rest), cap));
      messages := messages + [if out.tooLong then TooLong else Whole(out.line)];
    }
  }

  lemma MessagesStep(s: seq<Byte>, cap: nat)
    requires HasNewline(s)
    ensures var n := LineEnd(s);
      && Messages(CompleteLines(s), cap)
           == [Received(s[..n], cap)] + Messages(CompleteLines(s[n..]), cap)
      && Tail(s) == Tail(s[n..])
  {
    var n := LineEnd(s);
    MessagesAppend([s[..n]], CompleteLines(s[n..]), cap);
  }

  /** Cutting the stream anywhere else reads nothing else: what one reader gives
      for s + t is what it gives for s, then for the unfinished line and t. */
  lemma MessagesSplitAtBoundary(s: seq<Byte>, t: seq<Byte>, cap: nat)
    ensures Messages(CompleteLines(s + t), cap)
         == Messages(CompleteLines(s), cap) + Messages(CompleteLines(Tail(s) + t), cap)
  {
    LinesAppend(s, t);
    MessagesAppend(CompleteLines(s), CompleteLines(Tail(s) + t), cap);
  }

  lemma {:induction false} MessagesAppend(a: seq<seq<Byte>>, b: seq<seq<Byte>>, cap: nat)
    ensures Messages(a + b, cap) == Messages(a, cap) + Messages(b, cap)
  {
    if a == [] {
      assert a + b == b;
    } else {
      MessagesAppend(a[1..], b, cap);
      assert (a + b)[1..] == a[1..] + b;
      Regroup([Received(a[0], cap)], Messages(a[1..], cap), Messages(b, cap));
    }
  }

  // ---------- what the loop hands to the decoder ----------

  /** The line without "\n" or "\r\n". */
  function Trimmed(line: seq<Byte>): seq<Byte> {
    if line == [] || line[|line| - 1] != NL then line
    else if |line| > 1 && line[|line| - 2] == 13 then line[..|line| - 2]
    else line[..|line| - 1]
  }

  /** A frame written with either line end comes out as its payload, provided
      the payload does not itself end in a carriage return. */
  lemma TrimUndoesFraming(payload: seq<Byte>)
    ensures Trimmed(payload + [13, NL]) == payload
    ensures Trimmed(payload + [NL]) == payload <==> payload == [] || payload[|payload| - 1] != 13
  {
    assert (payload + [13, NL])[..|payload|] == payload;
    var line := payload + [NL];
    assert line[..|line| - 1] == payload;
  }
}
