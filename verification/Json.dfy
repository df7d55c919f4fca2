/** `JSON.stringify` of strings, arrays and objects, and why two values never print alike. */
module Json {
  import opened Text

  datatype Json = Str(text: Text) | Arr(items: seq<Json>) | Obj(fields: seq<Field>)
  datatype Field = Field(name: Text, value: Json)

  const QUOTE: Unit := 0x22
  const COMMA: Unit := 0x2C
  const COLON: Unit := 0x3A
  const OPEN_ARR: Unit := 0x5B
  const BACKSLASH: Unit := 0x5C
  const CLOSE_ARR: Unit := 0x5D
  const OPEN_OBJ: Unit := 0x7B
  const CLOSE_OBJ: Unit := 0x7D

  // ---------------------------------------------------------------- strings

  function HexDigit(n: nat): Unit
    requires n < 16
  {
    if n < 10 then 0x30 + n else 0x61 + n - 10
  }

  function HexValue(u: Unit): nat {
    if 0x30 <= u < 0x3A then u - 0x30 else if 0x61 <= u < 0x67 then u - 0x61 + 10 else 0
  }

  function Hex(u: Unit): Text {
    [BACKSLASH, 0x75, HexDigit(u / 0x1000), HexDigit(u / 0x100 % 16), HexDigit(u / 0x10 % 16), HexDigit(u % 16)]
  }

  /** The letter after the backslash of a two-unit escape. */
  function ShortEscape(u: Unit): (e: Unit) {
    match u
    case 0x08 => 0x62
    case 0x09 => 0x74
    case 0x0A => 0x6E
    case 0x0C => 0x66
    case 0x0D => 0x72
    case 0x22 => 0x22
    case 0x5C => 0x5C
    case _ => 0
  }

  /** How the code unit at `i` is written: control characters, quotes, backslashes and lone surrogates escaped. */
  function QuoteUnit(s: Text, i: nat): Text
    requires i < |s|
  {
    var u := s[i];
    if ShortEscape(u) != 0 then [BACKSLASH, ShortEscape(u)]
    else if u < 0x20 then Hex(u)
    else if High(u) && !PairAt(s, i) then Hex(u)
    else if Low(u) && !(i > 0 && PairAt(s, i - 1)) then Hex(u)
    else [u]
  }

  function QuoteFrom(s: Text, i: nat): Text
    requires i <= |s|
    decreases |s| - i
  {
    if i == |s| then [QUOTE] else QuoteUnit(s, i) + QuoteFrom(s, i + 1)
  }

  function Quote(s: Text): Text {
    [QUOTE] + QuoteFrom(s, 0)
  }

  function UnescapeShort(e: Unit): Unit {
    match e
    case 0x62 => 0x08
    case 0x74 => 0x09
    case 0x6E => 0x0A
    case 0x66 => 0x0C
    case 0x72 => 0x0D
    case _ => e
  }

  /** The code unit of a six-unit escape. */
  function Escaped(t: Text): Unit
    requires |t| >= 6
  {
    (HexValue(t[2]) * 0x1000 + HexValue(t[3]) * 0x100 + HexValue(t[4]) * 0x10 + HexValue(t[5])) % 0x1_0000
  }

  /** Read a quoted string after its opening quote: its code units and what follows the closing quote. */
  function Unquote(t: Text): (Text, Text)
    decreases |t|
  {
    if t == [] then ([], [])
    else if t[0] == QUOTE then ([], t[1..])
    else if t[0] == BACKSLASH && |t| >= 6 && t[1] == 0x75 then
      var r := Unquote(t[6..]);
      ([Escaped(t)] + r.0, r.1)
    else if t[0] == BACKSLASH && |t| >= 2 then
      var r := Unquote(t[2..]);
      ([UnescapeShort(t[1])] + r.0, r.1)
    else
      var r := Unquote(t[1..]);
      ([t[0]] + r.0, r.1)
  }

  lemma HexDigits(u: Unit)
    ensures HexValue(HexDigit(u / 0x1000)) * 0x1000 + HexValue(HexDigit(u / 0x100 % 16)) * 0x100
            + HexValue(HexDigit(u / 0x10 % 16)) * 0x10 + HexValue(HexDigit(u % 16)) == u
  {
    assert u / 0x100 == u / 0x10 / 16 && u / 0x1000 == u / 0x100 / 16;
    assert forall n :: 0 <= n < 16 ==> HexValue(HexDigit(n)) == n;
  }

  lemma EscapedHex(u: Unit, t: Text)
    ensures Escaped(Hex(u) + t) == u
  {
    HexDigits(u);
    hide HexDigit, HexValue;
  }

  lemma UnquoteHex(u: Unit, t: Text)
    ensures Unquote(Hex(u) + t) == ([u] + Unquote(t).0, Unquote(t).1)
  {
    EscapedHex(u, t);
    hide HexDigit, Escaped;
    assert (Hex(u) + t)[6..] == t;
  }

  lemma UnquoteShort(u: Unit, t: Text)
    requires ShortEscape(u) != 0
    ensures Unquote([BACKSLASH, ShortEscape(u)] + t) == ([u] + Unquote(t).0, Unquote(t).1)
  {
    var q := [BACKSLASH, ShortEscape(u)];
    assert (q + t)[2..] == t && (q + t)[0] == BACKSLASH && (q + t)[1] == ShortEscape(u) && ShortEscape(u) != 0x75;
    assert UnescapeShort(ShortEscape(u)) == u;
  }

  lemma UnquoteUnit(s: Text, i: nat, t: Text)
    requires i < |s|
    ensures Unquote(QuoteUnit(s, i) + t) == ([s[i]] + Unquote(t).0, Unquote(t).1)
  {
    hide Hex;
    if ShortEscape(s[i]) != 0 {
      UnquoteShort(s[i], t);
    } else if QuoteUnit(s, i) == Hex(s[i]) {
      UnquoteHex(s[i], t);
    } else {
      assert ([s[i]] + t)[1..] == t;
    }
  }

  lemma UnquoteEnd(rest: Text)
    ensures Unquote([QUOTE] + rest) == ([], rest)
  {
    assert ([QUOTE] + rest)[1..] == rest;
  }

  lemma {:induction false} UnquoteFrom(s: Text, i: nat, rest: Text)
    requires i <= |s|
    ensures Unquote(QuoteFrom(s, i) + rest) == (s[i..], rest)
    decreases |s| - i
  {
    hide Unquote, QuoteUnit;
    if i == |s| {
      UnquoteEnd(rest);
    } else {
      UnquoteFrom(s, i + 1, rest);
      var tail := QuoteFrom(s, i + 1) + rest;
      UnquoteUnit(s, i, tail);
      assert QuoteFrom(s, i) + rest == QuoteUnit(s, i) + tail;
      assert s[i..] == [s[i]] + s[i+1..];
    }
  }

  /** A quoted string tells where it ends and what it quotes, whatever follows. */
  lemma QuoteSelfDelimiting(s: Text, t: Text, r: Text, q: Text)
    requires Quote(s) + r == Quote(t) + q
    ensures s == t && r == q
  {
    hide Unquote, QuoteFrom;
    UnquoteFrom(s, 0, r);
    UnquoteFrom(t, 0, q);
    assert (Quote(s) + r)[1..] == QuoteFrom(s, 0) + r;
    assert (Quote(t) + q)[1..] == QuoteFrom(t, 0) + q;
    assert s[0..] == s && t[0..] == t;
  }

  /** Exactly the control characters, the quote, the backslash and lone surrogates are escaped, in two units if there is
      a short escape and else in six; every other unit stands for itself. */
  lemma QuotesExactly(s: Text, i: nat)
    requires i < |s|
    ensures QuoteUnit(s, i) == [s[i]] <==>
            s[i] >= 0x20 && s[i] != QUOTE && s[i] != BACKSLASH && !LoneSurrogate(s, i)
    ensures QuoteUnit(s, i) != [s[i]] ==> QuoteUnit(s, i)[0] == BACKSLASH
    ensures QuoteUnit(s, i) != [s[i]] ==>
              |QuoteUnit(s, i)| == if s[i] in [0x08, 0x09, 0x0A, 0x0C, 0x0D, QUOTE, BACKSLASH] then 2 else 6
  {
    hide HexDigit;
    assert PairAt(s, i) <==> LeadsPair(s, i);
    assert i > 0 ==> (PairAt(s, i - 1) <==> LeadsPair(s, i - 1));
  }

  // ---------------------------------------------------------------- values

  function Print(j: Json): Text
    decreases j, 1, 0
  {
    match j
    case Str(t) => Quote(t)
    case Arr(xs) => [OPEN_ARR] + ItemsFrom(j, 0)
    case Obj(fs) => [OPEN_OBJ] + FieldsFrom(j, 0)
  }

  function Separator(i: nat): Text {
    if i == 0 then [] else [COMMA]
  }

  function ItemsFrom(j: Json, i: nat): Text
    requires j.Arr? && i <= |j.items|
    decreases j, 0, |j.items| - i
  {
    if i == |j.items| then [CLOSE_ARR] else Separator(i) + (Print(j.items[i]) + ItemsFrom(j, i + 1))
  }

  function FieldsFrom(j: Json, i: nat): Text
    requires j.Obj? && i <= |j.fields|
    decreases j, 0, |j.fields| - i
  {
    if i == |j.fields| then [CLOSE_OBJ]
    else Separator(i) + (Quote(j.fields[i].name) + ([COLON] + (Print(j.fields[i].value) + FieldsFrom(j, i + 1))))
  }

  /** The first code unit tells what kind of value follows. */
  lemma Opens(j: Json, rest: Text)
    ensures Print(j) != []
    ensures (Print(j) + rest)[0] == if j.Str? then QUOTE else if j.Arr? then OPEN_ARR else OPEN_OBJ
  {}

  lemma SameTail(h: Text, a: Text, b: Text)
    requires h + a == h + b
    ensures a == b
  {
    assert (h + a)[|h|..] == a && (h + b)[|h|..] == b;
  }

  /** No value's text is the beginning of another's. */
  lemma {:induction false} PrintSelfDelimiting(a: Json, b: Json, r: Text, q: Text)
    requires Print(a) + r == Print(b) + q
    ensures a == b && r == q
    decreases a, 1, 0
  {
    Opens(a, r);
    Opens(b, q);
    match a
    case Str(s) => QuoteSelfDelimiting(s, b.text, r, q);
    case Arr(_) =>
      assert Print(a) + r == [OPEN_ARR] + (ItemsFrom(a, 0) + r) && Print(b) + q == [OPEN_ARR] + (ItemsFrom(b, 0) + q);
      SameTail([OPEN_ARR], ItemsFrom(a, 0) + r, ItemsFrom(b, 0) + q);
      ItemsSelfDelimiting(a, b, 0, r, q);
    case Obj(_) =>
      assert Print(a) + r == [OPEN_OBJ] + (FieldsFrom(a, 0) + r) && Print(b) + q == [OPEN_OBJ] + (FieldsFrom(b, 0) + q);
      SameTail([OPEN_OBJ], FieldsFrom(a, 0) + r, FieldsFrom(b, 0) + q);
      FieldsSelfDelimiting(a, b, 0, r, q);
  }

  /** Where a list ends there is a bracket; where it goes on there is something else. */
  lemma ItemsStart(j: Json, i: nat, rest: Text)
    requires j.Arr? && i <= |j.items|
    ensures ItemsFrom(j, i) != [] && ((ItemsFrom(j, i) + rest)[0] == CLOSE_ARR <==> i == |j.items|)
  {
    if i < |j.items| { Opens(j.items[i], ItemsFrom(j, i + 1)); }
  }

  lemma FieldsStart(j: Json, i: nat, rest: Text)
    requires j.Obj? && i <= |j.fields|
    ensures FieldsFrom(j, i) != [] && ((FieldsFrom(j, i) + rest)[0] == CLOSE_OBJ <==> i == |j.fields|)
  {}

  lemma {:induction false} ItemsSelfDelimiting(a: Json, b: Json, i: nat, r: Text, q: Text)
    requires a.Arr? && b.Arr? && i <= |a.items| && i <= |b.items| && a.items[..i] == b.items[..i]
    requires ItemsFrom(a, i) + r == ItemsFrom(b, i) + q
    ensures a == b && r == q
    decreases a, 0, |a.items| - i
  {
    ItemsStart(a, i, r);
    ItemsStart(b, i, q);
    if i == |a.items| {
      SameTail([CLOSE_ARR], r, q);
      assert a.items == a.items[..i] && b.items == b.items[..i];
    } else {
      var x, y := a.items[i], b.items[i];
      assert ItemsFrom(a, i) + r == Separator(i) + (Print(x) + (ItemsFrom(a, i + 1) + r));
      assert ItemsFrom(b, i) + q == Separator(i) + (Print(y) + (ItemsFrom(b, i + 1) + q));
      SameTail(Separator(i), Print(x) + (ItemsFrom(a, i + 1) + r), Print(y) + (ItemsFrom(b, i + 1) + q));
      PrintSelfDelimiting(x, y, ItemsFrom(a, i + 1) + r, ItemsFrom(b, i + 1) + q);
      assert a.items[..i+1] == a.items[..i] + [x] && b.items[..i+1] == b.items[..i] + [y];
      ItemsSelfDelimiting(a, b, i + 1, r, q);
    }
  }

  lemma {:induction false} FieldsSelfDelimiting(a: Json, b: Json, i: nat, r: Text, q: Text)
    requires a.Obj? && b.Obj? && i <= |a.fields| && i <= |b.fields| && a.fields[..i] == b.fields[..i]
    requires FieldsFrom(a, i) + r == FieldsFrom(b, i) + q
    ensures a == b && r == q
    decreases a, 0, |a.fields| - i
  {
    FieldsStart(a, i, r);
    FieldsStart(b, i, q);
    if i == |a.fields| {
      SameTail([CLOSE_OBJ], r, q);
      assert a.fields == a.fields[..i] && b.fields == b.fields[..i];
    } else {
      var x, y := a.fields[i], b.fields[i];
      FieldText(a, i, r);
      FieldText(b, i, q);
      SameTail(Separator(i), AfterName(a, i, r), AfterName(b, i, q));
      QuoteSelfDelimiting(x.name, y.name, [COLON] + (Print(x.value) + (FieldsFrom(a, i + 1) + r)),
        [COLON] + (Print(y.value) + (FieldsFrom(b, i + 1) + q)));
      SameTail([COLON], Print(x.value) + (FieldsFrom(a, i + 1) + r), Print(y.value) + (FieldsFrom(b, i + 1) + q));
      PrintSelfDelimiting(x.value, y.value, FieldsFrom(a, i + 1) + r, FieldsFrom(b, i + 1) + q);
      assert a.fields[..i+1] == a.fields[..i] + [x] && b.fields[..i+1] == b.fields[..i] + [y];
      FieldsSelfDelimiting(a, b, i + 1, r, q);
    }
  }

  ghost function AfterName(j: Json, i: nat, rest: Text): Text
    requires j.Obj? && i < |j.fields|
  {
    Quote(j.fields[i].name) + ([COLON] + (Print(j.fields[i].value) + (FieldsFrom(j, i + 1) + rest)))
  }

  lemma FieldText(j: Json, i: nat, rest: Text)
    requires j.Obj? && i < |j.fields|
    ensures FieldsFrom(j, i) + rest == Separator(i) + AfterName(j, i, rest)
  {
    hide Print, Quote;
    var n, v, f := Quote(j.fields[i].name), Print(j.fields[i].value), FieldsFrom(j, i + 1);
    assert (v + f) + rest == v + (f + rest);
    assert ([COLON] + (v + f)) + rest == [COLON] + (v + (f + rest));
    assert (n + ([COLON] + (v + f))) + rest == n + ([COLON] + (v + (f + rest)));
  }

  /** Two values print alike only if they are the same value. */
  lemma PrintInjective(a: Json, b: Json)
    ensures Print(a) == Print(b) <==> a == b
  {
    if Print(a) == Print(b) { PrintSelfDelimiting(a, b, [], []); }
  }

  /** The texts in their order, with a comma between any two and nowhere else. */
  function Joined(ts: seq<Text>): Text {
    if ts == [] then [] else if |ts| == 1 then ts[0] else ts[0] + [COMMA] + Joined(ts[1..])
  }

  function ItemTexts(j: Json): seq<Text>
    requires j.Arr?
  {
    seq(|j.items|, i requires 0 <= i < |j.items| => Print(j.items[i]))
  }

  function FieldTexts(j: Json): seq<Text>
    requires j.Obj?
  {
    seq(|j.fields|, i requires 0 <= i < |j.fields| => Quote(j.fields[i].name) + [COLON] + Print(j.fields[i].value))
  }

  lemma {:induction false} ItemsJoined(j: Json, i: nat)
    requires j.Arr? && i < |j.items|
    ensures ItemsFrom(j, i) == Separator(i) + Joined(ItemTexts(j)[i..]) + [CLOSE_ARR]
    decreases |j.items| - i
  {
    hide Print, Joined;
    var ts, rest := ItemTexts(j)[i..], ItemTexts(j)[i+1..];
    assert ts[0] == Print(j.items[i]) && ts[1..] == rest;
    JoinedStep(ts);
    hide ItemTexts;
    assert ItemsFrom(j, i) == Separator(i) + ts[0] + ItemsFrom(j, i + 1);
    if i + 1 < |j.items| {
      ItemsJoined(j, i + 1);
      CommaMoves(Separator(i), ts[0], Joined(rest), CLOSE_ARR);
    }
  }

  lemma {:induction false} FieldsJoined(j: Json, i: nat)
    requires j.Obj? && i < |j.fields|
    ensures FieldsFrom(j, i) == Separator(i) + Joined(FieldTexts(j)[i..]) + [CLOSE_OBJ]
    decreases |j.fields| - i
  {
    hide Print, Quote, FieldsFrom, Joined;
    var ts, rest := FieldTexts(j)[i..], FieldTexts(j)[i+1..];
    assert ts[0] == FieldTexts(j)[i] && ts[1..] == rest;
    FieldTextFirst(j, i);
    hide FieldTexts;
    JoinedStep(ts);
    if i + 1 < |j.fields| {
      FieldsJoined(j, i + 1);
      CommaMoves(Separator(i), ts[0], Joined(rest), CLOSE_OBJ);
    }
  }

  lemma JoinedStep(ts: seq<Text>)
    requires ts != []
    ensures Joined(ts) == if |ts| == 1 then ts[0] else ts[0] + [COMMA] + Joined(ts[1..])
  {}

  lemma CommaMoves(before: Text, first: Text, rest: Text, close: Unit)
    ensures before + first + ([COMMA] + rest + [close]) == before + (first + [COMMA] + rest) + [close]
  {}

  lemma FieldTextFirst(j: Json, i: nat)
    requires j.Obj? && i < |j.fields|
    ensures FieldsFrom(j, i) == Separator(i) + FieldTexts(j)[i] + FieldsFrom(j, i + 1)
    ensures i + 1 == |j.fields| ==> FieldsFrom(j, i + 1) == [CLOSE_OBJ]
  {
    assert FieldTexts(j)[i] == Quote(j.fields[i].name) + [COLON] + Print(j.fields[i].value);
    hide Print, Quote, FieldTexts;
    var n, v, more := Quote(j.fields[i].name), Print(j.fields[i].value), FieldsFrom(j, i + 1);
    assert n + ([COLON] + (v + more)) == (n + [COLON] + v) + more;
  }

  /** A list or an object is its parts, separated by commas and between brackets. */
  lemma PrintJoined(j: Json)
    ensures j.Arr? ==> Print(j) == [OPEN_ARR] + Joined(ItemTexts(j)) + [CLOSE_ARR]
    ensures j.Obj? ==> Print(j) == [OPEN_OBJ] + Joined(FieldTexts(j)) + [CLOSE_OBJ]
  {
    match j
    case Str(_) =>
    case Arr(xs) => if xs != [] { ItemsJoined(j, 0); assert ItemTexts(j)[0..] == ItemTexts(j); }
    case Obj(fs) => if fs != [] { FieldsJoined(j, 0); assert FieldTexts(j)[0..] == FieldTexts(j); }
  }
}
