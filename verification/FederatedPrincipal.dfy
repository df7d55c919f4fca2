/** The federated principal codec: a length-prefixed encoding of issuer, method and subject whose lengths
    count UTF-8 bytes, its parser, and the execution-scope preimage built on it. */
module FederatedPrincipal {
  import opened Options
  import opened Text
  import opened Json

  datatype Principal = Principal(issuer: Text, methodName: Text, subject: Text)
  datatype Policy = Direct | Federated

  const SEP: Unit := 0x3A
  const ZERO: Unit := 0x30
  const MAX_SAFE_INTEGER := 9007199254740991
  const MAX_BYTES := 512

  function Prefix(): Text { Units("federated:v1:") }

  function DidWeb(): Text { Units("did:web:") }

  // ---------------------------------------------------------------- decimal lengths

  predicate IsDigit(u: Unit) { 0x30 <= u < 0x3A }

  function Digits(n: nat): (t: Text)
    ensures t != [] && forall i :: 0 <= i < |t| ==> IsDigit(t[i])
  {
    if n < 10 then [ZERO + n] else Digits(n / 10) + [ZERO + n % 10]
  }

  /** `^(?:0|[1-9][0-9]*)$` */
  predicate IsCanonicalNumber(t: Text) {
    t != [] && (forall i :: 0 <= i < |t| ==> IsDigit(t[i])) && (t[0] == ZERO ==> |t| == 1)
  }

  function Number(t: Text): nat {
    if t == [] then 0 else Number(t[..|t|-1]) * 10 + (if IsDigit(t[|t|-1]) then t[|t|-1] - ZERO else 0)
  }

  lemma {:induction false} DigitsReadBack(n: nat)
    ensures IsCanonicalNumber(Digits(n)) && Number(Digits(n)) == n && (Digits(n)[0] == ZERO ==> n == 0)
  {
    if n >= 10 {
      DigitsReadBack(n / 10);
      var d := Digits(n / 10);
      assert Digits(n)[..|d|] == d;
    } else {
      assert [ZERO + n][..0] == [];
    }
  }

  // ---------------------------------------------------------------- one component

  function IndexOf(t: Text, u: Unit): (i: nat)
    ensures i <= |t| && u !in t[..i] && (i < |t| ==> t[i] == u)
  {
    if t == [] || t[0] == u then 0
    else
      assert forall i {:trigger t[i]} :: 1 <= i < |t| ==> t[i] == t[1..][i-1];
      1 + IndexOf(t[1..], u)
  }

  /** The length in code units of the prefix that takes exactly `n` bytes, if code points end there. */
  function TakeBytes(body: Text, n: nat): (end: Option<nat>)
    ensures end.Some? ==> end.value <= |body|
    decreases |body|
  {
    if n == 0 then Some(0)
    else if body == [] || PointBytes(body) > n then None
    else
      match TakeBytes(body[Width(body)..], n - PointBytes(body))
      case None => None
      case Some(k) => Some(Width(body) + k)
  }

  function TakePrefixed(input: Text): Option<(Text, Text)> {
    var colon := IndexOf(input, SEP);
    if colon == 0 || colon == |input| || !IsCanonicalNumber(input[..colon]) then None
    else
      var n := Number(input[..colon]);
      if n > MAX_SAFE_INTEGER || n == 0 then None
      else
        var body := input[colon + 1..];
        match TakeBytes(body, n)
        case None => None
        case Some(end) => Some((body[..end], body[end..]))
  }

  /** Whole code points until exactly the announced number of bytes is consumed. */
  method TakeBody(body: Text, byteLength: nat) returns (r: Option<nat>)
    requires byteLength > 0
    ensures r == TakeBytes(body, byteLength)
  {
    hide PointBytes;
    var consumedBytes, end := 0, 0;
    while end < |body|
      invariant 0 <= end <= |body| && consumedBytes < byteLength
      invariant TakeBytes(body, byteLength) == Shifted(end, TakeBytes(body[end..], byteLength - consumedBytes))
    {
      var rest := body[end..];
      consumedBytes := consumedBytes + PointBytes(rest);
      if consumedBytes > byteLength { return None; }
      end := end + Width(rest);
      assert rest[Width(rest)..] == body[end..];
      if consumedBytes == byteLength { return Some(end); }
    }
    r := None;
  }

  function Shifted(end: nat, r: Option<nat>): Option<nat> {
    match r case None => None case Some(k) => Some(end + k)
  }

  method TakeLengthPrefixed(input: Text) returns (r: Option<(Text, Text)>)
    ensures r == TakePrefixed(input)
  {
    hide TakeBytes, Number, IsCanonicalNumber;
    var colon := IndexOf(input, SEP);
    if colon == 0 || colon == |input| || !IsCanonicalNumber(input[..colon]) { return None; }
    var byteLength := Number(input[..colon]);
    if byteLength > MAX_SAFE_INTEGER || byteLength <= 0 { return None; }
    var body := input[colon + 1..];
    var end := TakeBody(body, byteLength);
    if end.None? { return None; }
    r := Some((body[..end.value], body[end.value..]));
  }

  // ---------------------------------------------------------------- the codec

  /** JavaScript white space and line terminators: what `trim` strips and `\\s` matches. */
  predicate IsSpace(u: Unit) {
    || 0x09 <= u <= 0x0D || u == 0x20 || u == 0xA0 || u == 0x1680 || 0x2000 <= u <= 0x200A
    || u == 0x2028 || u == 0x2029 || u == 0x202F || u == 0x205F || u == 0x3000 || u == 0xFEFF
  }

  function Trim(t: Text): Text {
    if t == [] then []
    else if IsSpace(t[0]) then Trim(t[1..])
    else if IsSpace(t[|t|-1]) then Trim(t[..|t|-1])
    else t
  }

  function Component(v: Text): Text {
    Digits(Utf8Length(v)) + [SEP] + v
  }

  function FormatFederatedPrincipal(p: Principal): Option<Text> {
    if Trim(p.issuer) != p.issuer || Trim(p.methodName) != p.methodName || Trim(p.subject) != p.subject then None
    else if !(DidWeb() <= p.issuer) || p.methodName == [] || p.subject == [] then None
    else if exists i :: 0 <= i < |p.issuer| && IsSpace(p.issuer[i]) then None
    else if |p.issuer| > 512 || |p.methodName| > 256 || |p.subject| > 512 then None
    else
      var encoded := Prefix() + Component(p.issuer) + Component(p.methodName) + Component(p.subject);
      if Utf8Length(encoded) <= MAX_BYTES then Some(encoded) else None
  }

  function ParseFederatedPrincipal(value: Text): Option<Principal> {
    if !(Prefix() <= value) then None
    else
      var issuer := TakePrefixed(value[|Prefix()|..]);
      if issuer.None? then None
      else
        var m := TakePrefixed(issuer.value.1);
        if m.None? then None
        else
          var subject := TakePrefixed(m.value.1);
          if subject.None? || subject.value.1 != [] then None
          else
            var p := Principal(issuer.value.0, m.value.0, subject.value.0);
            if FormatFederatedPrincipal(p) == Some(value) then Some(p) else None
  }

  /** Text that cannot complete a surrogate pair begun in front of it. */
  predicate StartsClean(rest: Text) {
    rest == [] || !Low(rest[0])
  }

  /** No surrogate pair straddles the boundary between the two. */
  predicate Clean(v: Text, rest: Text) {
    v == [] || rest == [] || !High(v[|v|-1]) || !Low(rest[0])
  }

  lemma SameFront(v: Text, rest: Text)
    requires v != [] && Clean(v, rest)
    ensures Width(v + rest) == Width(v) && PointBytes(v + rest) == PointBytes(v)
    ensures (v + rest)[Width(v)..] == v[Width(v)..] + rest
  {
    assert (v + rest)[0] == v[0] && (|v| > 1 ==> (v + rest)[1] == v[1]);
    assert CodePoint(v + rest) == CodePoint(v);
  }

  /** Taking as many bytes as a string has takes exactly that string. */
  lemma {:induction false} TakeOwnBytes(v: Text, rest: Text)
    requires Clean(v, rest)
    ensures TakeBytes(v + rest, Utf8Length(v)) == Some(|v|)
  {
    if v != [] {
      Utf8LengthStep(v);
      SameFront(v, rest);
      TakeOwnBytes(v[Width(v)..], rest);
      hide PointBytes, Width, Utf8Length;
      assert Utf8Length(v) - PointBytes(v) == Utf8Length(v[Width(v)..]);
    } else {
      assert Utf8Length(v) == 0;
    }
  }

  lemma ColonAfter(d: Text, tail: Text)
    requires forall i :: 0 <= i < |d| ==> IsDigit(d[i])
    ensures IndexOf(d + [SEP] + tail, SEP) == |d|
    ensures (d + [SEP] + tail)[..|d|] == d && (d + [SEP] + tail)[|d| + 1..] == tail
  {
    var input := d + [SEP] + tail;
    var colon := IndexOf(input, SEP);
    assert input[|d|] == SEP && forall i :: 0 <= i < |d| ==> input[i] == d[i];
    assert forall i :: 0 <= i < colon ==> input[..colon][i] == input[i] != SEP;
  }

  /** A component is read back whatever it contains, whatever clean text follows. */
  lemma TakeComponent(v: Text, rest: Text)
    requires v != [] && Utf8Length(v) <= MAX_SAFE_INTEGER && Clean(v, rest)
    ensures TakePrefixed(Component(v) + rest) == Some((v, rest))
  {
    var n := Utf8Length(v);
    Utf8LengthBound(v);
    DigitsReadBack(n);
    ColonAfter(Digits(n), v + rest);
    TakeOwnBytes(v, rest);
    hide TakeBytes, Digits, Number, IsCanonicalNumber, Utf8Length, IndexOf;
    assert Component(v) + rest == Digits(n) + [SEP] + (v + rest);
    assert (v + rest)[..|v|] == v && (v + rest)[|v|..] == rest;
  }

  /** A canonical number is the decimal form of its value, and no other text is. */
  lemma {:induction false} CanonicalDigits(t: Text)
    requires IsCanonicalNumber(t)
    ensures Digits(Number(t)) == t && (t[0] != ZERO ==> Number(t) > 0)
  {
    var front, last := t[..|t|-1], t[|t|-1];
    if front == [] {
      assert t == [last] && Number(front) == 0;
    } else {
      assert front[0] == t[0] && forall i :: 0 <= i < |front| ==> IsDigit(front[i]);
      CanonicalDigits(front);
      assert t == front + [last];
    }
  }

  /** Taking bytes stops at a code point, after exactly that many. */
  lemma {:induction false} TakenBytes(body: Text, n: nat)
    requires TakeBytes(body, n).Some?
    ensures var k := TakeBytes(body, n).value; Utf8Length(body[..k]) == n && Clean(body[..k], body[k..])
    decreases |body|
  {
    if n == 0 {
      Utf8LengthBound(body[..0]);
    } else {
      var w, k := Width(body), TakeBytes(body, n).value;
      TakenBytes(body[w..], n - PointBytes(body));
      FirstOfFront(body, k);
    }
  }

  lemma FirstOfFront(body: Text, k: nat)
    requires body != [] && Width(body) <= k <= |body|
    requires Clean(body[Width(body)..][..k-Width(body)], body[Width(body)..][k-Width(body)..])
    ensures Utf8Length(body[..k]) == PointBytes(body) + Utf8Length(body[Width(body)..][..k-Width(body)])
    ensures Clean(body[..k], body[k..])
  {
    hide Utf8Length, PointBytes;
    var w, v := Width(body), body[..k];
    assert Width(v) == w && PointBytes(v) == PointBytes(body) by { FirstPoint(body, k); }
    Utf8LengthStep(v);
    assert v[w..] == body[w..][..k-w];
    assert body[k..] == body[w..][k-w..];
    if k > w { assert v[|v|-1] == v[w..][|v[w..]|-1]; }
  }

  lemma FirstPoint(body: Text, k: nat)
    requires body != [] && Width(body) <= k <= |body|
    ensures Width(body[..k]) == Width(body) && PointBytes(body[..k]) == PointBytes(body)
  {
    var v := body[..k];
    assert v[0] == body[0] && (k > 1 ==> v[1] == body[1]);
    assert CodePoint(v) == CodePoint(body);
  }

  lemma TakenIsComponent(input: Text, v: Text, rest: Text)
    requires TakePrefixed(input) == Some((v, rest))
    ensures v != [] && Utf8Length(v) <= MAX_SAFE_INTEGER && Clean(v, rest) && input == Component(v) + rest
  {
    hide Digits, Number, Utf8Length, Clean, TakeBytes, IsCanonicalNumber;
    var colon := IndexOf(input, SEP);
    var t, body := input[..colon], input[colon + 1..];
    CanonicalDigits(t);
    TakenBytes(body, Number(t));
    Utf8LengthBound(v);
    assert input == t + [SEP] + body && body == v + rest;
  }

  /** What is taken is a component, and what follows it: nothing else is accepted. */
  lemma TakePrefixedExactly(input: Text, v: Text, rest: Text)
    ensures TakePrefixed(input) == Some((v, rest)) <==>
            && v != [] && Utf8Length(v) <= MAX_SAFE_INTEGER && Clean(v, rest)
            && input == Component(v) + rest
  {
    hide Component, TakePrefixed, Utf8Length, Clean;
    if v != [] && Utf8Length(v) <= MAX_SAFE_INTEGER && Clean(v, rest) && input == Component(v) + rest {
      TakeComponent(v, rest);
    }
    if TakePrefixed(input) == Some((v, rest)) { TakenIsComponent(input, v, rest); }
  }

  lemma ComponentStartsClean(v: Text, rest: Text)
    ensures StartsClean(Component(v) + rest)
  {
    assert (Component(v) + rest)[0] == Digits(Utf8Length(v))[0];
  }

  lemma FormatText(value: Text, p: Principal)
    requires FormatFederatedPrincipal(p) == Some(value)
    ensures value == Prefix() + (Component(p.issuer) + (Component(p.methodName) + Component(p.subject)))
    ensures 0 < |p.issuer| <= 512 && 0 < |p.methodName| <= 512 && 0 < |p.subject| <= 512
  {
    hide Component, Trim, Encode;
    LiteralLengths();
  }

  lemma TakeThree(i: Text, m: Text, s: Text)
    requires 0 < |i| <= 512 && 0 < |m| <= 512 && 0 < |s| <= 512
    ensures TakePrefixed(Component(i) + (Component(m) + Component(s))) == Some((i, Component(m) + Component(s)))
    ensures TakePrefixed(Component(m) + Component(s)) == Some((m, Component(s)))
    ensures TakePrefixed(Component(s)) == Some((s, []))
  {
    hide Component, TakePrefixed, Utf8Length;
    Utf8LengthBound(i);
    Utf8LengthBound(m);
    Utf8LengthBound(s);
    ComponentStartsClean(m, Component(s));
    TakeComponent(i, Component(m) + Component(s));
    ComponentStartsClean(s, []);
    assert Component(s) + [] == Component(s);
    TakeComponent(m, Component(s));
    TakeComponent(s, []);
  }

  /** The codec is exact: parsing gives a tuple precisely when formatting that tuple gives the string. */
  lemma ParseExactly(value: Text, p: Principal)
    ensures ParseFederatedPrincipal(value) == Some(p) <==> FormatFederatedPrincipal(p) == Some(value)
  {
    hide Component, TakePrefixed, FormatFederatedPrincipal, Prefix;
    if FormatFederatedPrincipal(p) == Some(value) {
      FormatText(value, p);
      var tail := Component(p.issuer) + (Component(p.methodName) + Component(p.subject));
      assert value[|Prefix()|..] == tail && Prefix() <= value;
      TakeThree(p.issuer, p.methodName, p.subject);
    }
  }

  lemma LiteralLengths()
    ensures |DidWeb()| == 8 && |Prefix()| == 13
  {}

  /** Different tuples never share an encoding, delimiters in their components notwithstanding. */
  lemma FormatInjective(p: Principal, q: Principal)
    requires FormatFederatedPrincipal(p).Some? && FormatFederatedPrincipal(p) == FormatFederatedPrincipal(q)
    ensures p == q
  {
    ParseExactly(FormatFederatedPrincipal(p).value, p);
    ParseExactly(FormatFederatedPrincipal(q).value, q);
  }

  // ---------------------------------------------------------------- which tuples have an encoding

  /** White space and line terminators (sections 12.2 and 12.3 of ECMA-262). */
  const WHITE_SPACE: Text :=
    [0x09, 0x0A, 0x0B, 0x0C, 0x0D, 0x20, 0xA0, 0x1680, 0x2000, 0x2001, 0x2002, 0x2003, 0x2004, 0x2005, 0x2006, 0x2007,
     0x2008, 0x2009, 0x200A, 0x2028, 0x2029, 0x202F, 0x205F, 0x3000, 0xFEFF]

  lemma SpaceExactly(u: Unit)
    ensures IsSpace(u) <==> u in WHITE_SPACE
  {
    hide WHITE_SPACE;
    if IsSpace(u) { SpaceIsListed(u); }
    if u in WHITE_SPACE { ListedIsSpace(u); }
  }

  lemma SpaceIsListed(u: Unit)
    requires IsSpace(u)
    ensures u in WHITE_SPACE
  {
    assert WHITE_SPACE[0] == 0x09;
  }

  lemma ListedIsSpace(u: Unit)
    requires u in WHITE_SPACE
    ensures IsSpace(u)
  {}

  predicate Bordered(t: Text) {
    t != [] && (t[0] in WHITE_SPACE || t[|t|-1] in WHITE_SPACE)
  }

  lemma {:induction false} TrimShortens(t: Text)
    ensures |Trim(t)| <= |t|
  {
    if t != [] {
      if IsSpace(t[0]) { TrimShortens(t[1..]); } else if IsSpace(t[|t|-1]) { TrimShortens(t[..|t|-1]); }
    }
  }

  /** Trimming changes exactly the texts that begin or end with white space. */
  lemma TrimExactly(t: Text)
    ensures Trim(t) == t <==> !Bordered(t)
  {
    hide WHITE_SPACE, IsSpace;
    if t != [] {
      SpaceExactly(t[0]);
      SpaceExactly(t[|t|-1]);
      TrimShortens(t[1..]);
      TrimShortens(t[..|t|-1]);
    }
  }

  /** A tuple has an encoding exactly if each component is trimmed and not empty, the issuer is a `did:web` without any
      white space, the method and the subject are short enough, and the whole fits its bytes; the issuer's own limit
      follows. */
  lemma FormatsExactly(p: Principal)
    ensures FormatFederatedPrincipal(p).Some? <==>
            && DidWeb() <= p.issuer && p.methodName != [] && p.subject != []
            && (forall u :: u in p.issuer ==> u !in WHITE_SPACE) && !Bordered(p.methodName) && !Bordered(p.subject)
            && |p.methodName| <= 256 && |p.subject| <= 512
            && Utf8Length(Prefix() + Component(p.issuer) + Component(p.methodName) + Component(p.subject)) <= 512
  {
    TrimExactly(p.issuer);
    TrimExactly(p.methodName);
    TrimExactly(p.subject);
    LiteralLengths();
    hide Trim, WHITE_SPACE, IsSpace, DidWeb;
    forall u | u in p.issuer ensures IsSpace(u) <==> u in WHITE_SPACE { SpaceExactly(u); }
    Utf8LengthBound(Prefix() + Component(p.issuer) + Component(p.methodName) + Component(p.subject));
    hide Utf8Length, Prefix, Digits;
  }

  // ---------------------------------------------------------------- execution scopes

  function ExecutionScopePolicy(principalId: Text): Policy {
    if ParseFederatedPrincipal(principalId).Some? then Federated else Direct
  }

  function PolicyName(p: Policy): Text {
    if p == Direct then Units("direct-principal-v1") else Units("federated-principal-v1")
  }

  function ExecutionScopePreimage(agentId: Text, principalId: Text): Text {
    Print(Arr([Str(Units("vicoop-execution-scope")), Str(PolicyName(ExecutionScopePolicy(principalId))), Str(agentId),
      Str(principalId)]))
  }

  /** A scope's preimage belongs to one agent and one principal. */
  lemma PreimageInjective(agent: Text, principal: Text, agent': Text, principal': Text)
    ensures ExecutionScopePreimage(agent, principal) == ExecutionScopePreimage(agent', principal')
            <==> agent == agent' && principal == principal'
  {
    var a := Arr([Str(Units("vicoop-execution-scope")), Str(PolicyName(ExecutionScopePolicy(principal))), Str(agent),
        Str(principal)]);
    var b := Arr([Str(Units("vicoop-execution-scope")), Str(PolicyName(ExecutionScopePolicy(principal'))), Str(agent'),
        Str(principal')]);
    PrintInjective(a, b);
    if a == b { assert a.items[2] == b.items[2] && a.items[3] == b.items[3]; }
  }

  /** A principal is federated exactly when it is the canonical encoding of some tuple. */
  lemma FederatedExactly(principalId: Text)
    ensures ExecutionScopePolicy(principalId) == Federated <==>
            exists p :: FormatFederatedPrincipal(p) == Some(principalId)
  {
    if p :| FormatFederatedPrincipal(p) == Some(principalId) { ParseExactly(principalId, p); }
    if ParseFederatedPrincipal(principalId).Some? {
      ParseExactly(principalId, ParseFederatedPrincipal(principalId).value);
    }
  }

  /** A scope's preimage names the policy of its principal. */
  lemma PreimageNamesPolicy(agentId: Text, principalId: Text)
    ensures var federated := exists p :: FormatFederatedPrincipal(p) == Some(principalId);
            ExecutionScopePreimage(agentId, principalId) == PreimageUnder(federated, agentId, principalId)
  {
    hide FormatFederatedPrincipal, ParseFederatedPrincipal;
    FederatedExactly(principalId);
    NamedPolicy(agentId, principalId);
  }

  function PreimageUnder(federated: bool, agentId: Text, principalId: Text): Text {
    Print(Arr([Str(Units("vicoop-execution-scope")), Str(Units(if federated then "federated-principal-v1"
                                                               else "direct-principal-v1")),
      Str(agentId), Str(principalId)]))
  }

  lemma NamedPolicy(agentId: Text, principalId: Text)
    ensures ExecutionScopePreimage(agentId, principalId)
            == PreimageUnder(ExecutionScopePolicy(principalId) == Federated, agentId, principalId)
  {
    hide Print, ExecutionScopePolicy, Units;
  }
}
