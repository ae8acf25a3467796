/** shimWriter.Write: arbitrary fragments in, one frame per line out
    (internal/cli/process_shim_io.go).  The socket is a log of accepted frames
    and may refuse any frame. */
module ShimWriter {
  import opened Wrappers
  import opened Lines

  /** A complete line's bytes without its newline. */
  function Payload(line: seq<Byte>): seq<Byte> {
    if line == [] then [] else line[..|line| - 1]
  }

  /** The payloads of the lines that are not blank. */
  function Frames(lines: seq<seq<Byte>>): seq<seq<Byte>> {
    if lines == [] then []
    else Frames(lines[..|lines| - 1]) + (if |lines[|lines| - 1]| > 1 then [Payload(lines[|lines| - 1])] else [])
  }

  predicate Fits(lines: seq<seq<Byte>>, cap: nat) {
    forall i :: 0 <= i < |lines| ==> |Payload(lines[i])| <= cap
  }

  datatype WriteError = NoError | TooLarge | SendFailed

  /** The writer between calls. */
  datatype State = State(buf: seq<Byte>, sent: seq<seq<Byte>>)

  /** Write while the socket accepts everything. */
  function Written(w: State, data: seq<Byte>, cap: nat): (State, WriteError) {
    var lines := CompleteLines(w.buf + data);
    if !Fits(lines, cap) then (State([], w.sent), TooLarge)
    else if w.buf == [] && IsLine(data) then (State([], w.sent + [Payload(data)]), NoError)
    else (State(Tail(w.buf + data), w.sent + Frames(lines)), NoError)
  }

  /** The socket refused line m of buffer and data: the frames before it are
      sent, and n is what Write reports. */
  ghost predicate Refused(w: State, data: seq<Byte>, m: nat, sent: seq<seq<Byte>>, n: nat) {
    var lines := CompleteLines(w.buf + data);
    && m < |lines| && (|lines[m]| > 1 || (w.buf == [] && IsLine(data)))
    && sent == w.sent + Frames(lines[..m])
    && n == (if w.buf == [] && IsLine(data) then 0 else Min(|Join(lines[..m + 1])|, |data|))
  }

  class Writer {
    var buf: seq<Byte>
    var sent: seq<seq<Byte>>
    const cap: nat

    ghost predicate Valid()
      reads this
    {
      NL !in buf
    }

    ghost function View(): State
      reads this
    {
      State(buf, sent)
    }

    constructor (maxLine: nat)
      ensures Valid() && View() == State([], []) && cap == maxLine
    {
      buf, sent, cap := [], [], maxLine;
    }

    method SendLine(line: seq<Byte>) returns (ok: bool)
      modifies this`sent
      ensures sent == if ok then old(sent) + [line] else old(sent)
    {
      ok := *;
      if ok { sent := sent + [line]; }
    }

    /** Whether every complete line of the buffer fits, checked before any is
        sent. */
    method AllFit() returns (fit: bool)
      ensures fit == Fits(CompleteLines(buf), cap)
    {
      var off := 0;
      ghost var lines, m, rest := CompleteLines(buf), 0, buf;
      while HasNewline(buf[off..])
        invariant off <= |buf| && rest == buf[off..] && m <= |lines| && CompleteLines(rest) == lines[m..]
        invariant forall i :: 0 <= i < m ==> |Payload(lines[i])| <= cap
        decreases |buf| - off
      {
        var n := LineEnd(buf[off..]);
        assert lines[m] == lines[m..][0] && lines[m..][1..] == lines[m + 1..];
        if n - 1 > cap { return false; }
        DropDrop(buf, off, n);
        off, m, rest := off + n, m + 1, rest[n..];
      }
      return true;
    }

    /** Sends the buffered lines; `taken` counts the bytes of those handled, the
        refused one included. */
    method Drain() returns (failed: bool, taken: nat, ghost m: nat)
      modifies this
      ensures !failed ==> buf == Tail(old(buf)) && sent == old(sent) + Frames(CompleteLines(old(buf)))
      ensures failed ==>
        && var lines := CompleteLines(old(buf));
        && buf == [] && m < |lines| && |lines[m]| > 1
        && taken == |Join(lines[..m + 1])| && sent == old(sent) + Frames(lines[..m])
    {
      ghost var lines, tail, rest, before := CompleteLines(buf), Tail(buf), buf, sent;
      failed, taken, m := false, 0, 0;
      assert lines[0..] == lines;
      while HasNewline(buf)
        invariant buf == rest && m <= |lines| && CompleteLines(rest) == lines[m..] && Tail(rest) == tail
        invariant taken == |Join(lines[..m])| && sent == before + Frames(lines[..m])
        decreases |buf|
      {
        var n := LineEnd(buf);
        var line := buf[..n];
        NextHandled(rest, lines, m);
        buf := buf[n..];
        rest := buf;
        taken := taken + n;
        if n > 1 {
          var ok := SendLine(line[..n - 1]);
          if !ok {
            buf, failed := [], true;
            return;
          }
          Regroup(before, Frames(lines[..m]), [line[..n - 1]]);
        }
        m := m + 1;
      }
      assert lines[..m] == lines;
    }

    /** Write.  While no frame is refused it is all or nothing: with a line over
        the cap no frame of this call goes out and what was buffered is gone. */
    method Write(data: seq<Byte>) returns (n: nat, error: WriteError)
      requires Valid()
      modifies this
      ensures Valid()
      ensures !error.SendFailed? ==> (View(), error) == Written(old(View()), data, cap)
      ensures !error.SendFailed? ==> n == if error.NoError? then |data| else 0
      ensures error.SendFailed? ==> buf == [] && exists m: nat :: Refused(old(View()), data, m, sent, n)
    {
      if buf == [] && IsLine(data) {
        n, error := WriteOneLine(data);
      } else {
        n, error := WriteBuffered(data);
      }
    }

    /** The fast path. */
    method WriteOneLine(data: seq<Byte>) returns (n: nat, error: WriteError)
      requires buf == [] && IsLine(data)
      modifies this`sent
      ensures !error.SendFailed? ==> (View(), error) == Written(old(View()), data, cap)
      ensures !error.SendFailed? ==> n == if error.NoError? then |data| else 0
      ensures error.SendFailed? ==> Refused(old(View()), data, 0, sent, n)
    {
      OneLine(data);
      assert buf + data == data;
      FitsOne(data, cap);
      if |data| - 1 > cap { return 0, TooLarge; }
      var ok := SendLine(data[..|data| - 1]);
      if !ok {
        assert [data][..0] == [];
        return 0, SendFailed;
      }
      return |data|, NoError;
    }

    /** The slow path. */
    method WriteBuffered(data: seq<Byte>) returns (n: nat, error: WriteError)
      requires Valid() && !(buf == [] && IsLine(data))
      modifies this
      ensures Valid()
      ensures !error.SendFailed? ==> (View(), error) == Written(old(View()), data, cap)
      ensures !error.SendFailed? ==> n == if error.NoError? then |data| else 0
      ensures error.SendFailed? ==> buf == [] && exists m: nat :: Refused(old(View()), data, m, sent, n)
    {
      ghost var w, stream := View(), buf + data;
      buf := buf + data;
      LinesJoinBack(stream);
      var fit := AllFit();
      if !fit {
        buf := [];
        return 0, TooLarge;
      }
      ghost var m;
      var failed, taken;
      failed, taken, m := Drain();
      if failed {
        n := if taken > |data| then |data| else taken;
        assert Refused(w, data, m, sent, n);
        return n, SendFailed;
      }
      return |data|, NoError;
    }
  }

  lemma DropDrop(s: seq<Byte>, off: nat, n: nat)
    requires off + n <= |s|
    ensures s[off..][n..] == s[off + n..]
  {
  }

  lemma FitsOne(data: seq<Byte>, cap: nat)
    requires data != []
    ensures Fits([data], cap) <==> |data| - 1 <= cap
  {
    assert |Payload([data][0])| == |data| - 1;
  }

  lemma NextHandled(buf: seq<Byte>, lines: seq<seq<Byte>>, m: nat)
    requires HasNewline(buf) && m <= |lines| && CompleteLines(buf) == lines[m..]
    ensures m < |lines| && lines[m] == buf[..LineEnd(buf)]
    ensures CompleteLines(buf[LineEnd(buf)..]) == lines[m + 1..] && Tail(buf[LineEnd(buf)..]) == Tail(buf)
    ensures Join(lines[..m + 1]) == Join(lines[..m]) + lines[m]
    ensures Frames(lines[..m + 1]) == Frames(lines[..m]) + (if |lines[m]| > 1 then [Payload(lines[m])] else [])
  {
    assert lines[m] == lines[m..][0] && lines[m..][1..] == lines[m + 1..];
    HandledOne(lines, m);
  }

  lemma HandledOne(lines: seq<seq<Byte>>, m: nat)
    requires m < |lines|
    ensures Join(lines[..m + 1]) == Join(lines[..m]) + lines[m]
    ensures Frames(lines[..m + 1]) == Frames(lines[..m]) + (if |lines[m]| > 1 then [Payload(lines[m])] else [])
  {
    assert lines[..m + 1][..m] == lines[..m];
    JoinLast(lines[..m], lines[m]);
    assert lines[..m + 1] == lines[..m] + [lines[m]];
  }

  lemma {:induction false} JoinLast(lines: seq<seq<Byte>>, line: seq<Byte>)
    ensures Join(lines + [line]) == Join(lines) + line
  {
    if lines == [] {
      assert lines + [line] == [line];
    } else {
      JoinLast(lines[1..], line);
      assert (lines + [line])[1..] == lines[1..] + [line];
      Regroup(lines[0], Join(lines[1..]), line);
    }
  }

  lemma OneLine(data: seq<Byte>)
    requires IsLine(data)
    ensures CompleteLines(data) == [data] && Tail(data) == []
  {
    FirstLine(data, []);
    assert data + [] == data;
  }

  // ---------- every fragmentation ----------

  function NonBlank(frames: seq<seq<Byte>>): seq<seq<Byte>> {
    if frames == [] then []
    else NonBlank(frames[..|frames| - 1]) + (if frames[|frames| - 1] != [] then [frames[|frames| - 1]] else [])
  }

  lemma {:induction false} NonBlankAppend(a: seq<seq<Byte>>, b: seq<seq<Byte>>)
    ensures NonBlank(a + b) == NonBlank(a) + NonBlank(b)
    decreases |b|
  {
    if b == [] {
      assert a + b == a;
    } else {
      NonBlankAppend(a, b[..|b| - 1]);
      assert (a + b)[..|a + b| - 1] == a + b[..|b| - 1];
      Regroup(NonBlank(a), NonBlank(b[..|b| - 1]), if b[|b| - 1] != [] then [b[|b| - 1]] else []);
    }
  }

  lemma {:induction false} FramesAppend(a: seq<seq<Byte>>, b: seq<seq<Byte>>)
    ensures Frames(a + b) == Frames(a) + Frames(b)
    decreases |b|
  {
    if b == [] {
      assert a + b == a;
    } else {
      FramesAppend(a, b[..|b| - 1]);
      assert (a + b)[..|a + b| - 1] == a + b[..|b| - 1];
      Regroup(Frames(a), Frames(b[..|b| - 1]), if |b[|b| - 1]| > 1 then [Payload(b[|b| - 1])] else []);
    }
  }

  lemma {:induction false} FramesAreNonBlank(lines: seq<seq<Byte>>)
    ensures NonBlank(Frames(lines)) == Frames(lines)
  {
    if lines != [] {
      var init, last := lines[..|lines| - 1], lines[|lines| - 1];
      FramesAreNonBlank(init);
      if |last| > 1 {
        assert (Frames(init) + [Payload(last)])[..|Frames(init)|] == Frames(init);
        assert |Payload(last)| > 0;
      } else {
        assert Frames(init) + [] == Frames(init);
      }
    }
  }

  function WriteAll(w: State, chunks: seq<seq<Byte>>, cap: nat): (State, bool)
    decreases |chunks|
  {
    if chunks == [] then (w, true)
    else
      var before := WriteAll(w, chunks[..|chunks| - 1], cap);
      var after := Written(before.0, chunks[|chunks| - 1], cap);
      (after.0, before.1 && after.1.NoError?)
  }

  /** However the bytes are cut into Write calls, if no line is over the cap then
      no call fails, the non-blank frames sent are the non-blank complete lines
      of the concatenation, in order, and the buffer is its unfinished line. */
  lemma {:induction false} FragmentationDoesNotMatter(chunks: seq<seq<Byte>>, cap: nat)
    requires Fits(CompleteLines(Join(chunks)), cap)
    ensures var out := WriteAll(State([], []), chunks, cap);
      && out.1
      && out.0.buf == Tail(Join(chunks))
      && NonBlank(out.0.sent) == Frames(CompleteLines(Join(chunks)))
    decreases |chunks|
  {
    if chunks != [] {
      var init, last := chunks[..|chunks| - 1], chunks[|chunks| - 1];
      var s := Join(init);
      JoinLast(init, last);
      assert chunks == init + [last];
      LinesAppend(s, last);
      FitsOfParts(CompleteLines(s), CompleteLines(Tail(s) + last), cap);
      FragmentationDoesNotMatter(init, cap);
      OneMoreWrite(WriteAll(State([], []), init, cap).0, s, last, cap);
    }
  }

  lemma FitsOfParts(a: seq<seq<Byte>>, b: seq<seq<Byte>>, cap: nat)
    requires Fits(a + b, cap)
    ensures Fits(a, cap) && Fits(b, cap)
  {
    forall i | 0 <= i < |a| ensures |Payload(a[i])| <= cap { assert a[i] == (a + b)[i]; }
    forall i | 0 <= i < |b| ensures |Payload(b[i])| <= cap { assert b[i] == (a + b)[|a| + i]; }
  }

  lemma OneMoreWrite(w: State, s: seq<Byte>, data: seq<Byte>, cap: nat)
    requires w.buf == Tail(s) && NonBlank(w.sent) == Frames(CompleteLines(s))
    requires Fits(CompleteLines(Tail(s) + data), cap)
    ensures var out := Written(w, data, cap);
      && out.1.NoError? && out.0.buf == Tail(s + data)
      && NonBlank(out.0.sent) == Frames(CompleteLines(s + data))
  {
    var more := CompleteLines(w.buf + data);
    LinesAppend(s, data);
    FramesAppend(CompleteLines(s), more);
    if w.buf == [] && IsLine(data) {
      assert w.buf + data == data;
      OneLine(data);
      FramesOfOne(data);
      NonBlankAppend(w.sent, [Payload(data)]);
      NonBlankOfOne(Payload(data));
    } else {
      NonBlankAppend(w.sent, Frames(more));
      FramesAreNonBlank(more);
    }
  }

  lemma FramesOfOne(line: seq<Byte>)
    ensures Frames([line]) == if |line| > 1 then [Payload(line)] else []
  {
    assert [line][..0] == [];
  }

  lemma NonBlankOfOne(frame: seq<Byte>)
    ensures NonBlank([frame]) == if frame != [] then [frame] else []
  {
    assert [frame][..0] == [];
  }

  /** The one blank frame that does go out: a lone newline on an empty buffer. */
  lemma LoneNewlineIsSent(w: State, data: seq<Byte>, cap: nat)
    requires NL !in w.buf
    ensures [] in Written(w, data, cap).0.sent <==> [] in w.sent || (w.buf == [] && data == [NL])
  {
    var lines := CompleteLines(w.buf + data);
    if [] in Frames(lines) { FramesNotEmpty(lines); }
    if w.buf == [] && IsLine(data) {
      assert w.buf + data == data;
      OneLine(data);
      FramesNotEmpty(lines);
      if data == [NL] {
        assert Payload(data) == [];
        assert (w.sent + [Payload(data)])[|w.sent|] == [];
        assert |Payload(lines[0])| == 0;
      }
    }
    FramesNotEmpty(lines);
  }

  lemma {:induction false} FramesNotEmpty(lines: seq<seq<Byte>>)
    ensures [] !in Frames(lines)
  {
    if lines != [] { FramesNotEmpty(lines[..|lines| - 1]); }
  }

  // ---------- the count after a refused frame ----------

  /** The bytes of `data` in lines the shim has accepted: those before the
      refused line m, less what was buffered before the call. */
  function Accepted(w: State, data: seq<Byte>, m: nat): nat
    requires m <= |CompleteLines(w.buf + data)|
  {
    var sent := |Join(CompleteLines(w.buf + data)[..m])|;
    if sent > |w.buf| then sent - |w.buf| else 0
  }

  /** The refused line ends past what was buffered, within the data. */
  lemma HandledCount(w: State, data: seq<Byte>, m: nat)
    requires NL !in w.buf && m < |CompleteLines(w.buf + data)|
    ensures var lines := CompleteLines(w.buf + data);
      && |Join(lines[..m])| < |Join(lines[..m + 1])|
      && |w.buf| < |Join(lines[..m + 1])| <= |w.buf| + |data|
  {
    var s, lines := w.buf + data, CompleteLines(w.buf + data);
    LinesJoinBack(s);
    LineEndAfter(w.buf, data);
    assert lines[0] == s[..LineEnd(s)];
    HandledOne(lines, m);
    assert IsLine(lines[m]);
    JoinPrefix(lines, m + 1);
    JoinPrefix(lines[..m + 1], 1);
    assert lines[..m + 1][..1] == [lines[0]];
    assert Join([lines[0]]) == lines[0] + Join([lines[0]][1..]);
  }

  /** After a refused frame Write reports the input bytes accepted if and only if
      it took the fast path: the slow path always counts the refused line. */
  lemma ReportedCountIsExactIff(w: State, data: seq<Byte>, m: nat, sent: seq<seq<Byte>>, n: nat)
    requires NL !in w.buf && Refused(w, data, m, sent, n)
    ensures n == Accepted(w, data, m) <==> w.buf == [] && IsLine(data)
    ensures n >= Accepted(w, data, m)
  {
    if w.buf == [] && IsLine(data) {
      assert w.buf + data == data;
      OneLine(data);
      assert CompleteLines(data)[..0] == [];
    } else {
      HandledCount(w, data, m);
    }
  }

  /** Two lines, nothing buffered, the first frame refused: two bytes reported,
      none accepted. */
  lemma RefusedLineIsCounted()
    ensures exists data: seq<Byte> :: Refused(State([], []), data, 0, [], 2) && Accepted(State([], []), data, 0) == 0
  {
    var first: seq<Byte>, second: seq<Byte> := [0x61, NL], [0x62, NL];
    var data := first + second;
    var w := State([], []);
    FirstLine(first, second);
    assert w.buf + data == data;
    var lines := CompleteLines(data);
    assert lines[0] == first && lines[..0] == [] && lines[..1] == [first];
    assert Join([first]) == first + Join([first][1..]);
    assert Refused(w, data, 0, [], 2);
    assert Accepted(w, data, 0) == 0;
  }

  lemma {:induction false} JoinPrefix(lines: seq<seq<Byte>>, m: nat)
    requires m <= |lines|
    ensures |Join(lines[..m])| <= |Join(lines)|
    decreases |lines| - m
  {
    if m < |lines| {
      JoinPrefix(lines, m + 1);
      HandledOne(lines, m);
    } else {
      assert lines[..m] == lines;
    }
  }
}
