/** ProjectSlug: the Claude CLI's name for a project directory
    (internal/claudefs/path.go), against the per-UTF-16-code-unit scheme it
    mirrors (section 2.1 of RFC 2781). */
module Slug {
  import opened Wrappers
  import opened Lines
  import opened Utf8

  const DASH: Byte := 0x2D

  predicate IsAsciiAlnum(c: nat) { 0x30 <= c <= 0x39 || 0x61 <= c <= 0x7A || 0x41 <= c <= 0x5A }

  // ---------- the reference: UTF-16 code units ----------

  function UnitsOf(r: nat): seq<nat> {
    if r < 0x10000 then [r] else [0xD800 + (r - 0x10000) / 0x400, 0xDC00 + (r - 0x10000) % 0x400]
  }

  /** The code units of s as the CLI sees it, invalid bytes as U+FFFD. */
  function Units(s: seq<Byte>): seq<nat>
    decreases |s|
  {
    if s == [] then [] else UnitsOf(DecodeRune(s).0) + Units(s[DecodeRune(s).1..])
  }

  function EncodeUnit(u: nat): Byte { if IsAsciiAlnum(u) then u else DASH }

  /** The CLI's replace(/[^a-zA-Z0-9]/g, "-"). */
  function EncodeUnits(units: seq<nat>): seq<Byte> {
    seq(|units|, i requires 0 <= i < |units| => EncodeUnit(units[i]))
  }

  predicate SlugBytes(t: seq<Byte>) { forall i :: 0 <= i < |t| ==> IsAsciiAlnum(t[i]) || t[i] == DASH }

  // ---------- EncodeSegment ----------

  lemma EncodeAppend(a: seq<nat>, b: seq<nat>)
    ensures EncodeUnits(a + b) == EncodeUnits(a) + EncodeUnits(b)
  {
  }

  /** One rune further. */
  lemma EncodeProgress(out: seq<Byte>, s: seq<Byte>, i: nat, all: seq<Byte>, piece: seq<Byte>, n: nat)
    requires i < |s| && out + EncodeUnits(Units(s[i..])) == all
    requires DecodeRune(s[i..]).1 == n && piece == EncodeUnits(UnitsOf(DecodeRune(s[i..]).0))
    ensures i + n <= |s| && out + piece + EncodeUnits(Units(s[i + n..])) == all
  {
    var t := s[i..];
    var rest := s[i + n..];
    assert t[n..] == rest;
    EncodeAppend(UnitsOf(DecodeRune(t).0), Units(rest));
    Regroup(out, piece, EncodeUnits(Units(rest)));
  }

  method EncodeSegment(s: seq<Byte>) returns (out: seq<Byte>)
    ensures out == EncodeUnits(Units(s))
  {
    var needs := false;
    for i := 0 to |s|
      invariant !needs ==> forall k :: 0 <= k < i ==> IsAsciiAlnum(s[k])
    {
      if !IsAsciiAlnum(s[i]) {
        needs := true;
        break;
      }
    }
    if !needs {
      AsciiUnits(s);
      return s;
    }
    out := EncodeLoop(s);
  }

  method EncodeLoop(s: seq<Byte>) returns (out: seq<Byte>)
    ensures out == EncodeUnits(Units(s))
  {
    out := [];
    var i: nat := 0;
    ghost var all := EncodeUnits(Units(s));
    assert s[0..] == s && [] + all == all;
    while i < |s|
      invariant i <= |s| && out + EncodeUnits(Units(s[i..])) == all
      decreases |s| - i
    {
      var piece, n := EncodeRuneAt(s, i);
      EncodeProgress(out, s, i, all, piece, n);
      out := out + piece;
      i := i + n;
    }
    assert s[i..] == [];
    assert out + [] == out;
  }

  /** The loop's branches: the dashes (or the byte) for the rune at i. */
  method EncodeRuneAt(s: seq<Byte>, i: nat) returns (piece: seq<Byte>, n: nat)
    requires i < |s|
    ensures n == DecodeRune(s[i..]).1 && piece == EncodeUnits(UnitsOf(DecodeRune(s[i..]).0))
  {
    var c := s[i];
    ghost var t := s[i..];
    assert t[0] == c;
    if c < 0x80 {
      assert DecodeRune(t) == (c as nat, 1);
      return [if IsAsciiAlnum(c) then c else DASH], 1;
    }
    NotAlnum(t);
    var d := DecodeRune(s[i..]);
    return if d.0 > 0xFFFF then [DASH, DASH] else [DASH], d.1;
  }

  /** A rune past ASCII has no alphanumeric code unit. */
  lemma NotAlnum(s: seq<Byte>)
    requires s != [] && s[0] >= 0x80
    ensures var r := DecodeRune(s).0;
      r >= 0x80 && EncodeUnits(UnitsOf(r)) == if r > 0xFFFF then [DASH, DASH] else [DASH]
  {
    var r := DecodeRune(s).0;
    assert r > 0xFFFF ==> EncodeUnits(UnitsOf(r))[0] == DASH && EncodeUnits(UnitsOf(r))[1] == DASH;
  }

  lemma {:induction false} AsciiUnits(t: seq<Byte>)
    requires forall i :: 0 <= i < |t| ==> t[i] < 0x80
    ensures |Units(t)| == |t| && forall i :: 0 <= i < |t| ==> Units(t)[i] == t[i]
    ensures (forall i :: 0 <= i < |t| ==> IsAsciiAlnum(t[i]) || t[i] == DASH) ==> EncodeUnits(Units(t)) == t
    decreases |t|
  {
    if t != [] { AsciiUnits(t[1..]); }
  }

  /** The encoding is over [A-Za-z0-9-], never longer than its input, and fixes
      what is already encoded. */
  lemma EncodeIsStable(s: seq<Byte>)
    ensures SlugBytes(EncodeUnits(Units(s)))
    ensures |EncodeUnits(Units(s))| <= |s|
    ensures EncodeUnits(Units(EncodeUnits(Units(s)))) == EncodeUnits(Units(s))
  {
    UnitsAreFewer(s);
    AsciiUnits(EncodeUnits(Units(s)));
  }

  lemma {:induction false} UnitsAreFewer(s: seq<Byte>)
    ensures |Units(s)| <= |s|
    decreases |s|
  {
    if s != [] {
      UnitsAreFewer(s[DecodeRune(s).1..]);
      WideRunes(s);
    }
  }

  /** Two code units take four bytes. */
  lemma WideRunes(s: seq<Byte>)
    requires s != []
    ensures DecodeRune(s).0 >= 0x10000 ==> DecodeRune(s).1 == 4
  {
  }

  // ---------- slugHash ----------

  const TWO31: int := 0x8000_0000
  const TWO32: int := 0x1_0000_0000

  /** Two's-complement wrap to 32 bits. */
  function Wrap(x: int): (w: int)
    ensures -TWO31 <= w < TWO31
  {
    (x + TWO31) % TWO32 - TWO31
  }

  lemma WrapDiffers(x: int) returns (k: int)
    ensures Wrap(x) == x + k * TWO32
  {
    k := -((x + TWO31) / TWO32);
  }

  lemma WrapOfShifted(x: int, k: int)
    ensures Wrap(x + k * TWO32) == Wrap(x)
  {
    assert (x + TWO31 + k * TWO32) % TWO32 == (x + TWO31) % TWO32;
  }

  /** The 31-polynomial of the units, unbounded. */
  function Poly(units: seq<nat>): int {
    if units == [] then 0 else 31 * Poly(units[..|units| - 1]) + units[|units| - 1]
  }

  /** (h << 5) - h + u in int32 arithmetic, each operation wrapping. */
  function Mix(h: int, u: nat): int { Wrap(Wrap(Wrap(h * 32) - h) + u) }

  lemma MixIsPoly(units: seq<nat>, u: nat)
    ensures Mix(Wrap(Poly(units)), u) == Wrap(Poly(units + [u]))
  {
    var p := Poly(units);
    assert (units + [u])[..|units|] == units;
    var a := WrapDiffers(p);
    var h := Wrap(p);
    var b := WrapDiffers(h * 32);
    var c := WrapDiffers(Wrap(h * 32) - h);
    assert Wrap(Wrap(h * 32) - h) + u == 31 * p + u + (31 * a + b + c) * TWO32;
    WrapOfShifted(31 * p + u, 31 * a + b + c);
  }

  function Base36Digit(d: nat): Byte
    requires d < 36
  {
    if d < 10 then 0x30 + d else 0x57 + d
  }

  /** strconv's base-36 digits. */
  function Base36(n: nat): seq<Byte> {
    if n < 36 then [Base36Digit(n)] else Base36(n / 36) + [Base36Digit(n % 36)]
  }

  function Pow36(k: nat): nat { if k == 0 then 1 else 36 * Pow36(k - 1) }

  lemma {:induction false} Base36Length(n: nat, k: nat)
    requires n < Pow36(k) && k > 0
    ensures 0 < |Base36(n)| <= k && forall i :: 0 <= i < |Base36(n)| ==> IsAsciiAlnum(Base36(n)[i])
  {
    if n >= 36 {
      assert k > 1 && n / 36 < Pow36(k - 1);
      Base36Length(n / 36, k - 1);
    }
  }

  function Abs(x: int): nat { if x < 0 then -x else x }

  /** The hash after one more rune. */
  function MixRune(h: int, r: nat): int {
    if r > 0xFFFF then Mix(Mix(h, 0xD800 + (r - 0x10000) / 0x400), 0xDC00 + (r - 0x10000) % 0x400) else Mix(h, r)
  }

  lemma RuneMixed(done: seq<nat>, r: nat)
    ensures MixRune(Wrap(Poly(done)), r) == Wrap(Poly(done + UnitsOf(r)))
  {
    if r > 0xFFFF {
      var hi, lo := 0xD800 + (r - 0x10000) / 0x400, 0xDC00 + (r - 0x10000) % 0x400;
      MixIsPoly(done, hi);
      MixIsPoly(done + [hi], lo);
      assert done + [hi] + [lo] == done + UnitsOf(r);
    } else {
      MixIsPoly(done, r);
    }
  }

  lemma UnitsProgress(done: seq<nat>, s: seq<Byte>, i: nat, all: seq<nat>)
    requires i < |s| && done + Units(s[i..]) == all
    ensures var d := DecodeRune(s[i..]); i + d.1 <= |s| && done + UnitsOf(d.0) + Units(s[i + d.1..]) == all
  {
    var d := DecodeRune(s[i..]);
    assert s[i..][d.1..] == s[i + d.1..];
    Regroup(done, UnitsOf(d.0), Units(s[i + d.1..]));
  }

  /** The loop over the runes. */
  method HashRunes(s: seq<Byte>) returns (h: int)
    ensures h == Wrap(Poly(Units(s)))
  {
    h := 0;
    var i: nat := 0;
    ghost var done: seq<nat>, all := [], Units(s);
    assert s[0..] == s && done + all == all;
    while i < |s|
      invariant i <= |s| && done + Units(s[i..]) == all && h == Wrap(Poly(done))
      decreases |s| - i
    {
      var d := DecodeRune(s[i..]);
      UnitsProgress(done, s, i, all);
      RuneMixed(done, d.0);
      h := MixRune(h, d.0);
      done := done + UnitsOf(d.0);
      i := i + d.1;
    }
    assert s[i..] == [] && done + [] == done;
  }

  method SlugHash(s: seq<Byte>) returns (out: seq<Byte>)
    ensures out == Base36(Abs(Wrap(Poly(Units(s)))))
  {
    var h := HashRunes(s);
    if h == -TWO31 { return Base36(TWO31); }
    if h < 0 { h := -h; }
    return Base36(h);
  }

  /** At most six digits: the absolute value is at most 2^31. */
  lemma HashIsShort(units: seq<nat>)
    ensures var digits := Base36(Abs(Wrap(Poly(units)))); 0 < |digits| <= 6 && SlugBytes(digits)
  {
    assert Pow36(2) == 1296 && Pow36(4) == 36 * 36 * Pow36(2) && Pow36(6) == 36 * 36 * Pow36(4);
    Base36Length(Abs(Wrap(Poly(units))), 6);
  }

  // ---------- ProjectSlug ----------

  const SLUG_MAX: nat := 200

  function Stripped(s: seq<Byte>): seq<Byte> {
    if s == [] then [] else Stripped(s[..|s| - 1]) + (if s[|s| - 1] >= 0x20 then [s[|s| - 1]] else [])
  }

  method StripControlBytes(s: seq<Byte>) returns (out: seq<Byte>)
    ensures out == Stripped(s)
  {
    out := [];
    for i := 0 to |s|
      invariant out == Stripped(s[..i])
    {
      assert s[..i + 1][..i] == s[..i];
      if s[i] >= 0x20 { out := out + [s[i]]; }
    }
    assert s[..|s|] == s;
  }

  lemma {:induction false} StripKeepsClean(s: seq<Byte>)
    ensures forall i :: 0 <= i < |Stripped(s)| ==> Stripped(s)[i] >= 0x20
    ensures (forall i :: 0 <= i < |s| ==> s[i] >= 0x20) ==> Stripped(s) == s
  {
    if s != [] { StripKeepsClean(s[..|s| - 1]); }
  }

  /** What ProjectSlug returns, in the reference's terms. */
  function SlugOf(cwd: seq<Byte>): seq<Byte> {
    var units := Units(Stripped(cwd));
    if |units| <= SLUG_MAX then EncodeUnits(units)
    else EncodeUnits(units[..SLUG_MAX]) + [DASH] + Base36(Abs(Wrap(Poly(units))))
  }

  method ProjectSlug(cwd: seq<Byte>) returns (slug: seq<Byte>)
    ensures slug == SlugOf(cwd)
    ensures |slug| <= 207 && SlugBytes(slug)
  {
    var path := cwd;
    var dirty := false;
    for i := 0 to |cwd|
      invariant !dirty ==> forall k :: 0 <= k < i ==> cwd[k] >= 0x20
    {
      if cwd[i] < 0x20 {
        dirty := true;
        break;
      }
    }
    StripKeepsClean(cwd);
    if dirty { path := StripControlBytes(cwd); }
    slug := EncodeSegment(path);
    if |slug| <= SLUG_MAX { return; }
    var hash := SlugHash(path);
    HashIsShort(Units(path));
    EncodePrefix(Units(path), SLUG_MAX);
    slug := slug[..SLUG_MAX] + [DASH] + hash;
  }

  lemma EncodePrefix(units: seq<nat>, n: nat)
    requires n <= |units|
    ensures EncodeUnits(units)[..n] == EncodeUnits(units[..n]) && SlugBytes(EncodeUnits(units[..n]))
  {
  }
}
