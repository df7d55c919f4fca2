/** JavaScript strings: sequences of UTF-16 code units, lone surrogates included, and their UTF-8 form
    (section 3 of RFC 3629), in which a lone surrogate becomes U+FFFD. */
module Text {
  type Unit = x: nat | x < 0x1_0000
  type Byte = x: nat | x < 0x100
  type Text = seq<Unit>

  predicate IsAscii(s: string) {
    forall i :: 0 <= i < |s| ==> s[i] as int < 0x80
  }

  /** The code units of a source-code literal. */
  function Units(s: string): (t: Text)
    requires IsAscii(s)
  {
    seq(|s|, i requires 0 <= i < |s| => s[i] as int)
  }

  predicate High(u: Unit) { 0xD800 <= u < 0xDC00 }

  predicate Low(u: Unit) { 0xDC00 <= u < 0xE000 }

  predicate PairAt(s: Text, i: nat) {
    i + 1 < |s| && High(s[i]) && Low(s[i+1])
  }

  /** Code units in the first code point of a non-empty string. */
  function Width(s: Text): (w: nat)
    requires s != []
    ensures 1 <= w <= |s|
  {
    if PairAt(s, 0) then 2 else 1
  }

  function CodePoint(s: Text): nat
    requires s != []
  {
    if PairAt(s, 0) then 0x1_0000 + (s[0] as int - 0xD800) * 0x400 + (s[1] as int - 0xDC00)
    else if High(s[0]) || Low(s[0]) then 0xFFFD
    else s[0]
  }

  function EncodePoint(c: nat): (b: seq<Byte>)
    requires c < 0x11_0000
    ensures |b| == if c < 0x80 then 1 else if c < 0x800 then 2 else if c < 0x1_0000 then 3 else 4
  {
    if c < 0x80 then [c]
    else if c < 0x800 then [0xC0 + c / 0x40, 0x80 + c % 0x40]
    else if c < 0x1_0000 then [0xE0 + c / 0x1000, 0x80 + c / 0x40 % 0x40, 0x80 + c % 0x40]
    else [0xF0 + c / 0x4_0000, 0x80 + c / 0x1000 % 0x40, 0x80 + c / 0x40 % 0x40, 0x80 + c % 0x40]
  }

  function Encode(s: Text): seq<Byte> {
    if s == [] then [] else EncodePoint(CodePoint(s)) + Encode(s[Width(s)..])
  }

  function Utf8Length(s: Text): nat {
    |Encode(s)|
  }

  /** Bytes of the first code point. */
  function PointBytes(s: Text): (n: nat)
    requires s != []
    ensures 1 <= n <= 4
  {
    |EncodePoint(CodePoint(s))|
  }

  lemma Utf8LengthStep(s: Text)
    requires s != []
    ensures Utf8Length(s) == PointBytes(s) + Utf8Length(s[Width(s)..])
  {}

  /** At most three bytes for each code unit, and nothing for the empty string only. */
  lemma {:induction false} Utf8LengthBound(s: Text)
    ensures |s| <= Utf8Length(s) <= 3 * |s|
  {
    if s != [] {
      Utf8LengthStep(s);
      Utf8LengthBound(s[Width(s)..]);
    }
  }

  // ---------------------------------------------------------------- what a decoder gets back

  function Continuation(b: seq<Byte>, i: nat): nat
    requires i < |b|
  {
    b[i] % 0x40
  }

  /** The code point at the front of an encoding, and the bytes it took. */
  function DecodePoint(b: seq<Byte>): (r: (nat, nat))
    requires b != []
    ensures 1 <= r.1 <= |b|
  {
    if b[0] >= 0xF0 && |b| >= 4 then
      ((b[0] - 0xF0) * 0x4_0000 + Continuation(b, 1) * 0x1000 + Continuation(b, 2) * 0x40 + Continuation(b, 3), 4)
    else if b[0] >= 0xE0 && |b| >= 3 then ((b[0] - 0xE0) * 0x1000 + Continuation(b, 1) * 0x40 + Continuation(b, 2), 3)
    else if b[0] >= 0xC0 && |b| >= 2 then ((b[0] - 0xC0) * 0x40 + Continuation(b, 1), 2)
    else (b[0], 1)
  }

  function Points(b: seq<Byte>): seq<nat>
    decreases |b|
  {
    if b == [] then [] else var p := DecodePoint(b); [p.0] + Points(b[p.1..])
  }

  function CodePoints(s: Text): seq<nat> {
    if s == [] then [] else [CodePoint(s)] + CodePoints(s[Width(s)..])
  }

  /** The digits of a code point in base 64. */
  lemma Base64Digits(c: nat)
    ensures c / 0x1000 == c / 0x40 / 0x40 && c / 0x4_0000 == c / 0x1000 / 0x40
    ensures c == c / 0x40 * 0x40 + c % 0x40
    ensures c / 0x40 == c / 0x1000 * 0x40 + c / 0x40 % 0x40
    ensures c / 0x1000 == c / 0x4_0000 * 0x40 + c / 0x1000 % 0x40
  {}

  lemma DecodesPoint(c: nat, rest: seq<Byte>)
    requires c < 0x11_0000
    ensures DecodePoint(EncodePoint(c) + rest) == (c, |EncodePoint(c)|)
  {
    var e := EncodePoint(c);
    var b := e + rest;
    Base64Digits(c);
    assert b[0] == e[0] && b[..|e|] == e;
    if c >= 0x1_0000 {
      assert b[1] == e[1] && b[2] == e[2] && b[3] == e[3] && 0xF0 <= b[0] && |b| >= 4;
      assert Continuation(b, 1) == c / 0x1000 % 0x40 && Continuation(b, 2) == c / 0x40 % 0x40
             && Continuation(b, 3) == c % 0x40;
    } else if c >= 0x800 {
      assert b[1] == e[1] && b[2] == e[2] && 0xE0 <= b[0] < 0xF0 && |b| >= 3;
      assert Continuation(b, 1) == c / 0x40 % 0x40 && Continuation(b, 2) == c % 0x40;
    } else if c >= 0x80 {
      assert b[1] == e[1] && 0xC0 <= b[0] < 0xE0;
      assert Continuation(b, 1) == c % 0x40;
    }
  }

  /** The encoding loses nothing but the identity of lone surrogates: its code points are the string's. */
  lemma {:induction false} EncodeKeepsCodePoints(s: Text)
    ensures Points(Encode(s)) == CodePoints(s)
  {
    if s != [] {
      var c, rest := CodePoint(s), Encode(s[Width(s)..]);
      DecodesPoint(c, rest);
      assert (EncodePoint(c) + rest)[|EncodePoint(c)|..] == rest;
      EncodeKeepsCodePoints(s[Width(s)..]);
    }
  }

  // ---------------------------------------------------------------- the code points are the string's

  /** A leading surrogate (110110...) right in front of a trailing one (110111...). */
  predicate LeadsPair(s: Text, i: nat) {
    i + 1 < |s| && s[i] / 0x400 == 0x36 && s[i+1] / 0x400 == 0x37
  }

  predicate LoneSurrogate(s: Text, i: nat) {
    i < |s| && s[i] / 0x800 == 0x1B && !LeadsPair(s, i) && !(i > 0 && LeadsPair(s, i - 1))
  }

  /** The string with each lone surrogate replaced. */
  function Replaced(s: Text): Text {
    seq(|s|, i requires 0 <= i < |s| => if LoneSurrogate(s, i) then 0xFFFD else s[i])
  }

  /** A code point in UTF-16 (section 2.1 of RFC 2781). */
  function ToUnits(c: nat): Text
    requires c < 0x11_0000
  {
    if c < 0x1_0000 then [c] else [0xD800 + (c - 0x1_0000) / 0x400, 0xDC00 + (c - 0x1_0000) % 0x400]
  }

  function AllUnits(cs: seq<nat>): Text
    requires forall i :: 0 <= i < |cs| ==> cs[i] < 0x11_0000
  {
    if cs == [] then [] else ToUnits(cs[0]) + AllUnits(cs[1..])
  }

  lemma CodePointInRange(s: Text)
    requires s != []
    ensures CodePoint(s) < 0x11_0000
  {}

  lemma ReplacedFront(s: Text)
    requires s != []
    ensures Replaced(s) == ToUnits(CodePoint(s)) + Replaced(s[Width(s)..])
  {
    var w, rest := Width(s), s[Width(s)..];
    forall i | 0 <= i < |rest| ensures LoneSurrogate(s, i + w) <==> LoneSurrogate(rest, i) {
      assert rest[i] == s[i + w] && (i + 1 < |rest| ==> rest[i + 1] == s[i + w + 1]);
    }
    assert PairAt(s, 0) <==> LeadsPair(s, 0);
    assert Replaced(s)[..w] == ToUnits(CodePoint(s));
    assert Replaced(s)[w..] == Replaced(rest);
  }

  /** Written in UTF-16 again, the code points are the string, with each lone surrogate replaced by U+FFFD. */
  lemma {:induction false} CodePointsExactly(s: Text)
    ensures forall i :: 0 <= i < |CodePoints(s)| ==> CodePoints(s)[i] < 0x11_0000
    ensures AllUnits(CodePoints(s)) == Replaced(s)
  {
    if s != [] {
      CodePointInRange(s);
      CodePointsExactly(s[Width(s)..]);
      ReplacedFront(s);
      hide CodePoint, Width, Replaced;
      var cs := CodePoints(s);
      assert cs[1..] == CodePoints(s[Width(s)..]);
    }
  }
}
