/** TurnWatermark's text form (internal/cli/turn_watermark.go): strconv's decimal
    printing and parsing of 64-bit integers, written out. */
module TurnWatermark {
  import opened Wrappers
  import opened Reconnect

  const MAX_INT64: int := 0x7FFF_FFFF_FFFF_FFFF

  predicate InInt64(n: int) { -MAX_INT64 - 1 <= n <= MAX_INT64 }

  predicate IsDigit(c: char) { '0' <= c <= '9' }

  function DigitOf(d: int): (c: char)
    requires 0 <= d < 10
    ensures IsDigit(c)
  {
    '0' + d as char
  }

  function ValueOf(c: char): (d: int)
    requires IsDigit(c)
    ensures 0 <= d < 10
  {
    c as int - '0' as int
  }

  /** The decimal digits of n, no leading zero. */
  function Digits(n: nat): string {
    if n < 10 then [DigitOf(n)] else Digits(n / 10) + [DigitOf(n % 10)]
  }

  /** strconv.FormatInt in base 10. */
  function FormatInt(n: int): string {
    if n < 0 then "-" + Digits(-n) else Digits(n)
  }

  function ParseDigits(s: string): Option<nat> {
    if s == [] || !IsDigit(s[|s| - 1]) then None
    else if |s| == 1 then Some(ValueOf(s[0]))
    else
      var high := ParseDigits(s[..|s| - 1]);
      if high.None? then None else Some(10 * high.value + ValueOf(s[|s| - 1]))
  }

  /** strconv.ParseInt in base 10 with 64 bits, and Atoi: a sign or none, then
      digits, in range. */
  function ParseInt(s: string): Option<int> {
    var signed := s != [] && (s[0] == '+' || s[0] == '-');
    var n := ParseDigits(if signed then s[1..] else s);
    if n.None? then None
    else
      var sign := if signed && s[0] == '-' then -1 else 1;
      if InInt64(sign * n.value) then Some(sign * n.value) else None
  }

  /** strings.Cut at the first colon. */
  function Cut(s: string): Option<(string, string)> {
    if s == [] then None
    else if s[0] == ':' then Some(("", s[1..]))
    else
      var rest := Cut(s[1..]);
      if rest.None? then None else Some(([s[0]] + rest.value.0, rest.value.1))
  }

  function String(w: Watermark): string { FormatInt(w.shimPID) + ":" + FormatInt(w.seqNo) }

  function Parse(s: string): Option<Watermark> {
    var parts := Cut(s);
    if parts.None? then None
    else
      var p := ParseInt(parts.value.0);
      if p.None? || p.value <= 0 then None
      else
        var n := ParseInt(parts.value.1);
        if n.None? || n.value < 0 then None else Some(Watermark(p.value, n.value))
  }

  lemma {:induction false} DigitsParse(n: nat)
    ensures ParseDigits(Digits(n)) == Some(n)
    ensures forall i :: 0 <= i < |Digits(n)| ==> IsDigit(Digits(n)[i])
    ensures Digits(n) != []
  {
    if n >= 10 {
      DigitsParse(n / 10);
      var s := Digits(n);
      assert s[..|s| - 1] == Digits(n / 10);
    }
  }

  lemma FormatParses(n: int)
    requires InInt64(n)
    ensures ParseInt(FormatInt(n)) == Some(n)
    ensures forall i :: 0 <= i < |FormatInt(n)| ==> FormatInt(n)[i] != ':'
  {
    if n < 0 {
      DigitsParse(-n);
      assert FormatInt(n)[1..] == Digits(-n);
      forall i | 0 <= i < |FormatInt(n)| ensures FormatInt(n)[i] != ':' {
        if i > 0 { assert FormatInt(n)[i] == Digits(-n)[i - 1]; }
      }
    } else {
      DigitsParse(n);
    }
  }

  lemma {:induction false} CutAtColon(a: string, b: string)
    requires forall i :: 0 <= i < |a| ==> a[i] != ':'
    ensures Cut(a + ":" + b) == Some((a, b))
  {
    var s := a + ":" + b;
    if a == [] {
      assert s[1..] == b;
    } else {
      CutAtColon(a[1..], b);
      assert s[1..] == a[1..] + ":" + b && s[0] == a[0];
      assert [a[0]] + a[1..] == a;
    }
  }

  /** A printed watermark parses back exactly when it names a shim and a
      position; otherwise it parses as no watermark at all. */
  lemma PrintedParsesBack(w: Watermark)
    requires InInt64(w.shimPID) && InInt64(w.seqNo)
    ensures Parse(String(w)) == if w.shimPID > 0 && w.seqNo >= 0 then Some(w) else None
  {
    FormatParses(w.shimPID);
    FormatParses(w.seqNo);
    CutAtColon(FormatInt(w.shimPID), FormatInt(w.seqNo));
  }

  /** Whatever text parses, printing the result and parsing again is stable;
      the text itself need not be the printed form. */
  lemma ParseIsStable(s: string)
    requires Parse(s).Some?
    ensures Parse(String(Parse(s).value)) == Parse(s)
    ensures Parse("+7:007") == Some(Watermark(7, 7)) && String(Watermark(7, 7)) != "+7:007"
  {
    PrintedParsesBack(Parse(s).value);
    CutAtColon("+7", "007");
    assert "+7" + ":" + "007" == "+7:007";
    assert "+7"[1..] == "7";
    assert "007"[..2] == "00" && "00"[..1] == "0";
    assert FormatInt(7) == "7";
  }
}
