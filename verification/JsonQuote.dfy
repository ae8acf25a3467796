/** appendJSONStringBytes and the "write" frame around it
    (internal/cli/process_shim_io.go), against an independent reader of JSON
    strings (section 7 of RFC 8259). */
module JsonQuote {
  import opened Wrappers
  import opened Lines
  import opened Utf8
  import W = ShimWriter

  const QUOTE: Byte := 0x22
  const BACKSLASH: Byte := 0x5C

  predicate Safe(b: Byte) { 0x20 <= b < 0x80 && b != QUOTE && b != BACKSLASH }

  function HexDigit(n: nat): Byte
    requires n < 16
  {
    if n < 10 then 0x30 + n else 0x57 + n
  }

  /** How one ASCII byte is written. */
  function EscapeAscii(b: Byte): seq<Byte>
    requires b < 0x80
  {
    if Safe(b) then [b]
    else if b == QUOTE then [BACKSLASH, QUOTE]
    else if b == BACKSLASH then [BACKSLASH, BACKSLASH]
    else if b == 10 then [BACKSLASH, 0x6E]
    else if b == 13 then [BACKSLASH, 0x72]
    else if b == 9 then [BACKSLASH, 0x74]
    else if b == 8 then [BACKSLASH, 0x62]
    else if b == 12 then [BACKSLASH, 0x66]
    else [BACKSLASH, 0x75, 0x30, 0x30, HexDigit(b / 16), HexDigit(b % 16)]
  }

  const ESCAPED_FFFD: seq<Byte> := [BACKSLASH, 0x75, 0x66, 0x66, 0x66, 0x64]
  const ESCAPED_2028: seq<Byte> := [BACKSLASH, 0x75, 0x32, 0x30, 0x32, 0x38]
  const ESCAPED_2029: seq<Byte> := [BACKSLASH, 0x75, 0x32, 0x30, 0x32, 0x39]

  /** How many bytes the next piece takes. */
  function Step(s: seq<Byte>): (n: nat)
    requires s != []
    ensures 0 < n <= |s|
  {
    if Width(s) > 0 then Width(s) else 1
  }

  /** How they are written. */
  function Piece(s: seq<Byte>): seq<Byte>
    requires s != []
  {
    if s[0] < 0x80 then EscapeAscii(s[0])
    else if Width(s) == 0 then ESCAPED_FFFD
    else if Rune(s) == 0x2028 then ESCAPED_2028
    else if Rune(s) == 0x2029 then ESCAPED_2029
    else s[..Width(s)]
  }

  function Body(s: seq<Byte>): seq<Byte>
    decreases |s|
  {
    if s == [] then [] else Piece(s) + Body(s[Step(s)..])
  }

  function Quote(s: seq<Byte>): seq<Byte> { [QUOTE] + Body(s) + [QUOTE] }

  // ---------- the loop ----------

  /** What is written, with the run not yet copied. */
  ghost predicate Progress(dst: seq<Byte>, start: nat, i: nat, s: seq<Byte>, before: seq<Byte>) {
    && start <= i <= |s|
    && dst + s[start..i] + Body(s[i..]) == before + Body(s)
  }

  /** The next n bytes stand for themselves and join the run. */
  lemma RunGrows(dst: seq<Byte>, start: nat, i: nat, n: nat, s: seq<Byte>, before: seq<Byte>)
    requires Progress(dst, start, i, s, before) && i < |s| && n == Step(s[i..]) && Piece(s[i..]) == s[i..i + n]
    ensures Progress(dst, start, i + n, s, before)
  {
    assert s[i..][n..] == s[i + n..];
    assert s[start..i + n] == s[start..i] + s[i..i + n];
    Regroup(dst + s[start..i], s[i..i + n], Body(s[i + n..]));
    Regroup(dst, s[start..i], s[i..i + n]);
  }

  /** The run and then an escape are written out. */
  lemma EscapeWritten(dst: seq<Byte>, start: nat, i: nat, s: seq<Byte>, before: seq<Byte>)
    requires Progress(dst, start, i, s, before) && i < |s|
    ensures Progress(dst + s[start..i] + Piece(s[i..]), i + Step(s[i..]), i + Step(s[i..]), s, before)
  {
    var n := Step(s[i..]);
    assert s[i..][n..] == s[i + n..];
    Regroup(dst + s[start..i], Piece(s[i..]), Body(s[i + n..]));
    var out := dst + s[start..i] + Piece(s[i..]);
    assert s[i + n..i + n] == [] && out + [] == out;
  }

  lemma ProgressStart(dst: seq<Byte>, s: seq<Byte>)
    ensures Progress(dst, 0, 0, s, dst)
  {
    assert s[0..] == s && dst + s[0..0] == dst;
  }

  /** At the end only the run is left, if anything. */
  lemma RunWritten(dst: seq<Byte>, start: nat, s: seq<Byte>, before: seq<Byte>)
    requires Progress(dst, start, |s|, s, before)
    ensures (if start < |s| then dst + s[start..] else dst) == before + Body(s)
  {
    assert s[start..|s|] == s[start..] && s[|s|..] == [];
    assert dst + s[start..] + [] == dst + s[start..];
    assert start == |s| ==> dst + s[start..] == dst;
  }

  method AppendJSONStringBytes(dst: seq<Byte>, s: seq<Byte>) returns (out: seq<Byte>)
    ensures out == dst + Quote(s)
  {
    out := AppendBody(dst + [QUOTE], s);
    Regroup(dst, [QUOTE], Body(s));
    out := out + [QUOTE];
    Regroup(dst, [QUOTE] + Body(s), [QUOTE]);
  }

  /** The loop: `start` is where the run of bytes not yet copied begins. */
  method AppendBody(dst: seq<Byte>, s: seq<Byte>) returns (out: seq<Byte>)
    ensures out == dst + Body(s)
  {
    out := dst;
    var start: nat, i: nat := 0, 0;
    ProgressStart(dst, s);
    while i < |s|
      invariant Progress(out, start, i, s, dst)
      decreases |s| - i
    {
      var size, escape := Next(s, i);
      if escape.None? {
        RunGrows(out, start, i, size, s, dst);
      } else {
        EscapeWritten(out, start, i, s, dst);
        out := out + s[start..i] + escape.value;
        start := i + size;
      }
      i := i + size;
    }
    RunWritten(out, start, s, dst);
    if start < |s| { out := out + s[start..]; }
  }

  /** The loop's branches: how far the next piece reaches, and its escape unless
      it stands for itself. */
  method Next(s: seq<Byte>, i: nat) returns (size: nat, escape: Option<seq<Byte>>)
    requires i < |s|
    ensures size == Step(s[i..])
    ensures if escape.None? then Piece(s[i..]) == s[i..i + size] else Piece(s[i..]) == escape.value
  {
    var b := s[i];
    ghost var t := s[i..];
    assert t[0] == b;
    if b < 0x80 {
      assert Width(t) == 1 && Piece(t) == EscapeAscii(b);
      if b >= 0x20 && b != QUOTE && b != BACKSLASH {
        assert s[i..i + 1] == [b];
        return 1, None;
      }
      return 1, Some(EscapeAscii(b));
    }
    var decoded := DecodeRune(s[i..]);
    WideWidth(t);
    if decoded.0 == REPLACEMENT && decoded.1 == 1 { return 1, Some(ESCAPED_FFFD); }
    if decoded.0 == 0x2028 { return decoded.1, Some(ESCAPED_2028); }
    if decoded.0 == 0x2029 { return decoded.1, Some(ESCAPED_2029); }
    assert t[..decoded.1] == s[i..i + decoded.1];
    return decoded.1, None;
  }

  /** No valid sequence that starts above ASCII is one byte wide, so U+FFFD of
      width 1 always means an invalid byte. */
  lemma WideWidth(s: seq<Byte>)
    requires s != [] && s[0] >= 0x80
    ensures Width(s) != 1
    ensures forall i :: 0 <= i < Width(s) ==> s[i] >= 0x80
  {
  }

  // ---------- reading a JSON string ----------

  datatype Parsed = Parsed(value: seq<Byte>, rest: seq<Byte>)

  function HexValue(b: Byte): Option<nat> {
    if 0x30 <= b <= 0x39 then Some(b - 0x30)
    else if 0x61 <= b <= 0x66 then Some(b - 0x57)
    else if 0x41 <= b <= 0x46 then Some(b - 0x37)
    else None
  }

  /** Four hexadecimal digits. */
  function Hex4(t: seq<Byte>): (v: Option<nat>)
    ensures v.Some? ==> |t| >= 4 && v.value < 0x10000
  {
    if |t| < 4 || HexValue(t[0]).None? || HexValue(t[1]).None? || HexValue(t[2]).None? || HexValue(t[3]).None? then None
    else Some(((HexValue(t[0]).value * 16 + HexValue(t[1]).value) * 16 + HexValue(t[2]).value) * 16 + HexValue(t[3]).value)
  }

  function Then(value: seq<Byte>, rest: Option<Parsed>): Option<Parsed> {
    if rest.None? then None else Some(Parsed(value + rest.value.value, rest.value.rest))
  }

  function SimpleEscape(b: Byte): Option<Byte> {
    if b == QUOTE || b == BACKSLASH || b == 0x2F then Some(b)
    else if b == 0x62 then Some(8)
    else if b == 0x66 then Some(12)
    else if b == 0x6E then Some(10)
    else if b == 0x72 then Some(13)
    else if b == 0x74 then Some(9)
    else None
  }

  /** The string's value from after its opening quote, and what follows its
      closing one. */
  function ReadBody(t: seq<Byte>): Option<Parsed>
    decreases |t|
  {
    if t == [] || t[0] < 0x20 then None
    else if t[0] == QUOTE then Some(Parsed([], t[1..]))
    else if t[0] != BACKSLASH then Then([t[0]], ReadBody(t[1..]))
    else if |t| < 2 then None
    else if t[1] != 0x75 then
      (if SimpleEscape(t[1]).Some? then Then([SimpleEscape(t[1]).value], ReadBody(t[2..])) else None)
    else
      var v := Hex4(t[2..]);
      if v.None? then None
      else if !(0xD800 <= v.value <= 0xDFFF) then Then(EncodeRune(v.value), ReadBody(t[6..]))
      else if v.value < 0xDC00 && LowSurrogate(t[6..]).Some? then
        Then(EncodeRune(0x10000 + (v.value - 0xD800) * 0x400 + LowSurrogate(t[6..]).value), ReadBody(t[12..]))
      else Then(FFFD_BYTES, ReadBody(t[6..]))
  }

  function LowSurrogate(t: seq<Byte>): (v: Option<nat>)
    ensures v.Some? ==> |t| >= 6 && v.value < 0x400
  {
    if |t| < 6 || t[0] != BACKSLASH || t[1] != 0x75 then None
    else
      var v := Hex4(t[2..]);
      if v.Some? && 0xDC00 <= v.value <= 0xDFFF then Some(v.value - 0xDC00) else None
  }

  function ReadString(t: seq<Byte>): Option<Parsed> {
    if t == [] || t[0] != QUOTE then None else ReadBody(t[1..])
  }

  // ---------- quoting then reading ----------

  /** What a piece stands for. */
  function Meant(s: seq<Byte>): seq<Byte>
    requires s != []
  {
    if Width(s) > 0 then s[..Width(s)] else FFFD_BYTES
  }

  lemma HexDigitReads(n: nat)
    requires n < 16
    ensures HexValue(HexDigit(n)) == Some(n)
  {
  }

  lemma AsciiReads(b: Byte, x: seq<Byte>)
    requires b < 0x80
    ensures ReadBody(EscapeAscii(b) + x) == Then([b], ReadBody(x))
  {
    var e := EscapeAscii(b);
    var t := e + x;
    assert t[|e|..] == x;
    if |e| == 6 {
      HexDigitReads(b / 16);
      HexDigitReads(b % 16);
      assert Hex4(t[2..]) == Some(b);
      assert EncodeRune(b) == [b];
    }
  }

  lemma {:induction false} RawReads(raw: seq<Byte>, x: seq<Byte>)
    requires forall i :: 0 <= i < |raw| ==> raw[i] >= 0x80
    ensures ReadBody(raw + x) == Then(raw, ReadBody(x))
  {
    if raw == [] {
      assert raw + x == x;
      if ReadBody(x).Some? { assert raw + ReadBody(x).value.value == ReadBody(x).value.value; }
    } else {
      RawReads(raw[1..], x);
      assert (raw + x)[1..] == raw[1..] + x;
      if ReadBody(x).Some? {
        Regroup([raw[0]], raw[1..], ReadBody(x).value.value);
        assert [raw[0]] + raw[1..] == raw;
      }
    }
  }

  lemma EscapedRuneReads(e: seq<Byte>, r: nat, x: seq<Byte>)
    requires |e| == 6 && e[0] == BACKSLASH && e[1] == 0x75 && Hex4(e[2..]) == Some(r) && !(0xD800 <= r <= 0xDFFF)
    ensures ReadBody(e + x) == Then(EncodeRune(r), ReadBody(x))
  {
    var t := e + x;
    assert t[6..] == x;
    assert t[2] == e[2..][0] && t[3] == e[2..][1] && t[4] == e[2..][2] && t[5] == e[2..][3];
    assert Hex4(t[2..]) == Some(r);
  }

  lemma PieceReads(s: seq<Byte>, x: seq<Byte>)
    requires s != []
    ensures ReadBody(Piece(s) + x) == Then(Meant(s), ReadBody(x))
  {
    if s[0] < 0x80 {
      AsciiReads(s[0], x);
      assert s[..1] == [s[0]];
    } else if Width(s) == 0 {
      EscapedRuneReads(ESCAPED_FFFD, 0xFFFD, x);
    } else {
      WidePieceReads(s, x);
    }
  }

  lemma WidePieceReads(s: seq<Byte>, x: seq<Byte>)
    requires s != [] && s[0] >= 0x80 && Width(s) > 0
    ensures ReadBody(Piece(s) + x) == Then(s[..Width(s)], ReadBody(x))
  {
    WideWidth(s);
    EncodeDecoded(s);
    if Rune(s) == 0x2028 {
      EscapedRuneReads(ESCAPED_2028, 0x2028, x);
    } else if Rune(s) == 0x2029 {
      EscapedRuneReads(ESCAPED_2029, 0x2029, x);
    } else {
      RawReads(s[..Width(s)], x);
    }
  }

  lemma {:induction false} BodyReads(s: seq<Byte>, rest: seq<Byte>)
    ensures ReadBody(Body(s) + [QUOTE] + rest) == Some(Parsed(Repair(s), rest))
    decreases |s|
  {
    if s == [] {
      assert ([QUOTE] + rest)[1..] == rest;
      assert Body(s) + [QUOTE] + rest == [QUOTE] + rest;
    } else {
      var others := s[Step(s)..];
      BodyReads(others, rest);
      var x := Body(others) + [QUOTE] + rest;
      PieceReads(s, x);
      Regroup(Piece(s), Body(others), [QUOTE]);
      Regroup(Piece(s), Body(others) + [QUOTE], rest);
    }
  }

  /** Reading back what was quoted, whatever follows it, gives the string with
      each invalid byte replaced by U+FFFD: exactly the string when that was
      valid UTF-8, and only then.  In particular the reader stops at the closing
      quote: no inner one is unescaped. */
  lemma QuoteReadsBack(s: seq<Byte>, rest: seq<Byte>)
    ensures ReadString(Quote(s) + rest) == Some(Parsed(Repair(s), rest))
    ensures Repair(s) == s <==> Valid(s)
  {
    BodyReads(s, rest);
    RepairIsValid(s);
    var t := Quote(s) + rest;
    Regroup([QUOTE], Body(s), [QUOTE]);
    Regroup([QUOTE], Body(s) + [QUOTE], rest);
    assert t[1..] == Body(s) + [QUOTE] + rest;
  }

  predicate Clean(t: seq<Byte>) { forall i :: 0 <= i < |t| ==> t[i] >= 0x20 }

  /** The quoted form has no control byte and is valid UTF-8, whatever went in. */
  lemma {:induction false} BodyIsClean(s: seq<Byte>)
    ensures Clean(Body(s)) && Valid(Body(s))
    decreases |s|
  {
    if s != [] {
      var others := s[Step(s)..];
      BodyIsClean(others);
      PieceIsClean(s, Body(others));
    }
  }

  lemma PieceIsClean(s: seq<Byte>, x: seq<Byte>)
    requires s != [] && Valid(x)
    ensures Clean(Piece(s)) && Valid(Piece(s) + x)
  {
    var p := Piece(s);
    if s[0] < 0x80 || Width(s) == 0 || Rune(s) == 0x2028 || Rune(s) == 0x2029 {
      AsciiIsValid(p, x);
    } else {
      HeadWidth(s);
      ValidCons(p, x);
    }
  }

  lemma {:induction false} AsciiIsValid(p: seq<Byte>, x: seq<Byte>)
    requires Valid(x) && forall i :: 0 <= i < |p| ==> p[i] < 0x80
    ensures Valid(p + x)
  {
    if p == [] {
      assert p + x == x;
    } else {
      AsciiIsValid(p[1..], x);
      OneAsciiIsValid(p[0], p[1..] + x);
      Regroup([p[0]], p[1..], x);
      assert [p[0]] + p[1..] == p;
    }
  }

  lemma OneAsciiIsValid(b: Byte, x: seq<Byte>)
    requires b < 0x80 && Valid(x)
    ensures Valid([b] + x)
  {
    ValidCons([b], x);
  }

  // ---------- the frame ----------

  function Ascii(text: string): seq<Byte>
    requires forall i :: 0 <= i < |text| ==> text[i] as int < 128
  {
    seq(|text|, i requires 0 <= i < |text| => text[i] as int)
  }

  const PREFIX: seq<Byte> := Ascii("{\"type\":\"write\",\"line\":")
  const SUFFIX: seq<Byte> := [0x7D, NL]

  function Frame(line: seq<Byte>): seq<Byte> { PREFIX + Quote(line) + SUFFIX }

  /** sendLine's bytes. */
  method SendLine(line: seq<Byte>) returns (frame: seq<Byte>)
    ensures frame == Frame(line)
  {
    frame := AppendJSONStringBytes(PREFIX, line);
    frame := frame + SUFFIX;
  }

  /** What the shim makes of one line: None unless it is such a frame. */
  function ReadFrame(t: seq<Byte>): Option<seq<Byte>> {
    if !(PREFIX <= t) then None
    else
      var parsed := ReadString(t[|PREFIX|..]);
      if parsed.Some? && parsed.value.rest == SUFFIX then Some(parsed.value.value) else None
  }

  lemma QuoteIsClean(s: seq<Byte>)
    ensures Clean(Quote(s)) && Valid(Body(s))
  {
    BodyIsClean(s);
  }

  lemma CleanThenNewline(a: seq<Byte>, b: seq<Byte>)
    requires Clean(a) && Clean(b)
    ensures IsLine(a + b + SUFFIX)
  {
    var t := a + b + SUFFIX;
    assert t[..|t| - 1] == a + b + [0x7D];
    assert forall i :: 0 <= i < |t| - 1 ==> t[i] >= 0x20;
  }

  /** A frame holds one newline, at its end, and reads back as its line. */
  lemma FrameIsOneLine(line: seq<Byte>)
    ensures IsLine(Frame(line))
    ensures ReadFrame(Frame(line)) == Some(Repair(line))
  {
    QuoteIsClean(line);
    CleanThenNewline(PREFIX, Quote(line));
    FrameReads(Quote(line), line);
  }

  lemma FrameReads(quoted: seq<Byte>, line: seq<Byte>)
    requires quoted == Quote(line)
    ensures ReadFrame(PREFIX + quoted + SUFFIX) == Some(Repair(line))
  {
    var t := PREFIX + quoted + SUFFIX;
    Regroup(PREFIX, quoted, SUFFIX);
    assert t[|PREFIX|..] == quoted + SUFFIX;
    QuoteReadsBack(line, SUFFIX);
  }

  // ---------- the wire ----------

  function Wire(sent: seq<seq<Byte>>): seq<seq<Byte>> {
    seq(|sent|, i requires 0 <= i < |sent| => Frame(sent[i]))
  }

  function Received(lines: seq<seq<Byte>>): seq<Option<seq<Byte>>> {
    seq(|lines|, i requires 0 <= i < |lines| => ReadFrame(lines[i]))
  }

  /** Whatever is sent, the stream on the wire cuts back into those frames, and
      each reads as its line, repaired. */
  lemma WireReadsBack(sent: seq<seq<Byte>>)
    ensures var stream := Join(Wire(sent));
      && Tail(stream) == []
      && |CompleteLines(stream)| == |sent|
      && forall i :: 0 <= i < |sent| ==> Received(CompleteLines(stream))[i] == Some(Repair(sent[i]))
  {
    forall i | 0 <= i < |sent| ensures IsLine(Wire(sent)[i]) && ReadFrame(Wire(sent)[i]) == Some(Repair(sent[i])) {
      FrameIsOneLine(sent[i]);
    }
    LinesAreTheOnlyCut(Wire(sent), []);
    assert Join(Wire(sent)) + [] == Join(Wire(sent));
  }

  /** From Write to the shim: input of lines within the cap, each valid UTF-8,
      cut into calls anywhere, arrives as those lines (blank ones aside). */
  lemma WritesArrive(chunks: seq<seq<Byte>>, cap: nat)
    requires W.Fits(CompleteLines(Join(chunks)), cap)
    requires forall line :: line in W.Frames(CompleteLines(Join(chunks))) ==> Valid(line)
    ensures var sent := W.WriteAll(W.State([], []), chunks, cap).0.sent;
      && W.NonBlank(sent) == W.Frames(CompleteLines(Join(chunks)))
      && |CompleteLines(Join(Wire(sent)))| == |sent|
      && forall i :: 0 <= i < |sent| ==> Received(CompleteLines(Join(Wire(sent))))[i] == Some(sent[i])
  {
    W.FragmentationDoesNotMatter(chunks, cap);
    var sent := W.WriteAll(W.State([], []), chunks, cap).0.sent;
    WireReadsBack(sent);
    forall i | 0 <= i < |sent| ensures Repair(sent[i]) == sent[i] {
      if sent[i] != [] { NonBlankKeeps(sent, i); }
      RepairIsValid(sent[i]);
    }
  }

  lemma {:induction false} NonBlankKeeps(frames: seq<seq<Byte>>, i: nat)
    requires i < |frames| && frames[i] != []
    ensures frames[i] in W.NonBlank(frames)
    decreases |frames|
  {
    if i < |frames| - 1 { NonBlankKeeps(frames[..|frames| - 1], i); }
  }
}
