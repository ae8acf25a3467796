/** UTF-8 as section 4 of RFC 3629 defines it, and Go's DecodeRune: a byte that
    starts no valid sequence decodes to U+FFFD with width 1. */
module Utf8 {
  import opened Lines

  const REPLACEMENT: nat := 0xFFFD

  predicate Cont(b: Byte) { 0x80 <= b <= 0xBF }

  /** The range section 4 gives the second byte after lead byte b. */
  predicate SecondOk(lead: Byte, b: Byte) {
    if lead == 0xE0 then 0xA0 <= b <= 0xBF
    else if lead == 0xED then 0x80 <= b <= 0x9F
    else if lead == 0xF0 then 0x90 <= b <= 0xBF
    else if lead == 0xF4 then 0x80 <= b <= 0x8F
    else Cont(b)
  }

  function LeadWidth(lead: Byte): nat {
    if lead < 0x80 then 1
    else if 0xC2 <= lead <= 0xDF then 2
    else if 0xE0 <= lead <= 0xEF then 3
    else if 0xF0 <= lead <= 0xF4 then 4
    else 0
  }

  /** The width of the valid sequence s begins with; 0 when it begins with none. */
  function Width(s: seq<Byte>): (w: nat)
    ensures w <= |s| && w <= 4
  {
    if s == [] then 0
    else
      var w := LeadWidth(s[0]);
      if w > |s| then 0
      else if w >= 2 && !SecondOk(s[0], s[1]) then 0
      else if w >= 3 && !Cont(s[2]) then 0
      else if w >= 4 && !Cont(s[3]) then 0
      else w
  }

  function Rune(s: seq<Byte>): (r: nat)
    requires Width(s) > 0
    ensures r <= 0x10FFFF && !(0xD800 <= r <= 0xDFFF)
  {
    var w := Width(s);
    if w == 1 then s[0]
    else if w == 2 then Append(s[0] - 0xC0, s[1])
    else if w == 3 then Append(Append(s[0] - 0xE0, s[1]), s[2])
    else Append(Append(Append(s[0] - 0xF0, s[1]), s[2]), s[3])
  }

  /** Six more bits. */
  function Append(high: nat, b: Byte): nat
    requires Cont(b)
  {
    high * 0x40 + (b - 0x80)
  }

  /** utf8.DecodeRune on a non-empty slice. */
  function DecodeRune(s: seq<Byte>): (nat, nat)
    requires s != []
  {
    if Width(s) > 0 then (Rune(s), Width(s)) else (REPLACEMENT, 1)
  }

  /** The UTF-8 bytes of a code point. */
  function EncodeRune(r: nat): seq<Byte>
    requires r <= 0x10FFFF
  {
    if r < 0x80 then [r]
    else if r < 0x800 then [Lead(0xC0, r / 0x40), Low(r)]
    else if r < 0x10000 then [Lead(0xE0, r / 0x40 / 0x40), Low(r / 0x40), Low(r)]
    else [Lead(0xF0, r / 0x40 / 0x40 / 0x40), Low(r / 0x40 / 0x40), Low(r / 0x40), Low(r)]
  }

  function Low(r: nat): Byte { 0x80 + r % 0x40 }

  function Lead(base: nat, high: nat): Byte
    requires base + high < 256
  {
    base + high
  }

  lemma AppendSplits(high: nat, b: Byte)
    requires Cont(b)
    ensures Append(high, b) / 0x40 == high && Low(Append(high, b)) == b
  {
  }

  /** Decoding a valid sequence and encoding the code point gives it back. */
  lemma EncodeDecoded(s: seq<Byte>)
    requires Width(s) > 0
    ensures EncodeRune(Rune(s)) == s[..Width(s)]
  {
    var w := Width(s);
    if w == 2 {
      AppendSplits(s[0] - 0xC0, s[1]);
    } else if w == 3 {
      var r := Append(s[0] - 0xE0, s[1]);
      AppendSplits(s[0] - 0xE0, s[1]);
      AppendSplits(r, s[2]);
    } else if w == 4 {
      var r := Append(s[0] - 0xF0, s[1]);
      AppendSplits(s[0] - 0xF0, s[1]);
      AppendSplits(r, s[2]);
      AppendSplits(Append(r, s[2]), s[3]);
    }
  }

  predicate Valid(s: seq<Byte>)
    decreases |s|
  {
    s == [] || (Width(s) > 0 && Valid(s[Width(s)..]))
  }

  const FFFD_BYTES: seq<Byte> := [0xEF, 0xBF, 0xBD]

  /** s with every byte that starts no valid sequence replaced by U+FFFD. */
  function Repair(s: seq<Byte>): seq<Byte>
    decreases |s|
  {
    if s == [] then []
    else if Width(s) > 0 then s[..Width(s)] + Repair(s[Width(s)..])
    else FFFD_BYTES + Repair(s[1..])
  }

  /** A sequence's validity does not depend on what follows it. */
  lemma WidthOfPrefix(s: seq<Byte>, t: seq<Byte>)
    requires Width(s) > 0
    ensures Width(s[..Width(s)] + t) == Width(s) && Width(s + t) == Width(s)
    ensures Rune(s[..Width(s)] + t) == Rune(s)
  {
  }

  lemma ValidCons(head: seq<Byte>, rest: seq<Byte>)
    requires head != [] && Width(head) == |head|
    ensures Width(head + rest) == |head| && (head + rest)[|head|..] == rest
    ensures Valid(head + rest) <==> Valid(rest)
  {
    WidthOfPrefix(head, rest);
  }

  /** Repairing yields valid UTF-8, and changes nothing exactly when it already
      was. */
  lemma {:induction false} RepairIsValid(s: seq<Byte>)
    ensures Valid(Repair(s))
    ensures Repair(s) == s <==> Valid(s)
    ensures |Repair(s)| >= |s|
    decreases |s|
  {
    if s != [] && Width(s) > 0 {
      var rest := s[Width(s)..];
      RepairIsValid(rest);
      HeadWidth(s);
      ValidCons(s[..Width(s)], Repair(rest));
      SameTail(s[..Width(s)], Repair(rest), rest);
    } else if s != [] {
      RepairIsValid(s[1..]);
      ValidCons(FFFD_BYTES, Repair(s[1..]));
    }
  }

  lemma HeadWidth(s: seq<Byte>)
    requires Width(s) > 0
    ensures Width(s[..Width(s)]) == Width(s) && s == s[..Width(s)] + s[Width(s)..]
  {
  }

  lemma SameTail(head: seq<Byte>, a: seq<Byte>, b: seq<Byte>)
    ensures head + a == head + b <==> a == b
  {
    assert (head + a)[|head|..] == a && (head + b)[|head|..] == b;
  }
}
