/** The session key of a caller context: which of its parts it depends on, and that it depends on nothing else. */
module SessionKey {
  import opened Options
  import opened Text
  import opened Json

  datatype Platform = Platform(provider: Option<Text>, workspaceId: Option<Text>)
  datatype Profile = Profile(displayName: Option<Text>, username: Option<Text>)
  datatype Attestation = Attestation(credentialId: Text, issuer: Text, subject: Text, methodName: Text,
                                     assurance: Option<Text>,
    platform: Option<Platform>, observedTarget: Option<Option<Text>>, profile: Option<Profile>)

  /** A caller context as received. The second version uses the first three fields, the first version the next
      two; `unknownField` stands for any field neither version has. */
  datatype Wire = Wire(principal: Option<Text>, actor: Option<Text>, attestations: Option<seq<Attestation>>,
    authenticated: Option<Text>, presented: Option<seq<Attestation>>, unknownField: bool)

  datatype Canonical = Canonical(principal: Option<Text>, actor: Option<Text>, attestations: seq<Attestation>)

  // ---------------------------------------------------------------- schemas

  predicate Identifier(t: Text) { 1 <= |t| <= 512 }

  predicate Summary(t: Text) { 1 <= |t| <= 256 }

  predicate ValidAttestation(a: Attestation) {
    && Identifier(a.credentialId) && Identifier(a.issuer) && Identifier(a.subject) && Summary(a.methodName)
    && (a.assurance.Some? ==> Summary(a.assurance.value))
    && (a.platform.Some? ==>
          (a.platform.value.provider.Some? ==> Summary(a.platform.value.provider.value))
          && (a.platform.value.workspaceId.Some? ==> Summary(a.platform.value.workspaceId.value)))
    && (a.observedTarget.Some? && a.observedTarget.value.Some? ==> Identifier(a.observedTarget.value.value))
    && (a.profile.Some? ==>
          (a.profile.value.displayName.Some? ==> Summary(a.profile.value.displayName.value))
          && (a.profile.value.username.Some? ==> Summary(a.profile.value.username.value)))
  }

  predicate ValidList(l: Option<seq<Attestation>>) {
    l.Some? ==> |l.value| <= 8 && forall a :: a in l.value ==> ValidAttestation(a)
  }

  predicate ValidV2(w: Wire) {
    && !w.unknownField && w.authenticated.None? && w.presented.None?
    && (w.principal.Some? ==> Identifier(w.principal.value))
    && (w.actor.Some? ==> Identifier(w.actor.value) && w.principal.Some? && w.actor != w.principal)
    && ValidList(w.attestations)
  }

  predicate ValidV1(w: Wire) {
    && !w.unknownField && w.principal.None? && w.actor.None? && w.attestations.None?
    && (w.authenticated.Some? ==> Identifier(w.authenticated.value))
    && ValidList(w.presented)
  }

  function ListOf(l: Option<seq<Attestation>>): seq<Attestation> {
    if l.Some? then l.value else []
  }

  function Normalize(caller: Option<Wire>): Option<Canonical> {
    if caller.None? then None
    else
      var w := caller.value;
      if !ValidV2(w) && !ValidV1(w) then None
      else
        var c := if ValidV2(w) then Canonical(w.principal, w.actor, ListOf(w.attestations))
                 else Canonical(w.authenticated, None, ListOf(w.presented));
        if c.principal.None? && c.actor.None? && c.attestations == [] then None else Some(c)
  }

  datatype Bounded = Bounded(text: Text, most: nat)

  function IfPresent(t: Option<Text>, most: nat): seq<Bounded> {
    if t.Some? then [Bounded(t.value, most)] else []
  }

  function MustTexts(a: Attestation): seq<Bounded> {
    [Bounded(a.credentialId, 512), Bounded(a.issuer, 512), Bounded(a.subject, 512), Bounded(a.methodName, 256)]
  }

  function PlatformTexts(a: Attestation): seq<Bounded> {
    if a.platform.None? then []
    else IfPresent(a.platform.value.provider, 256) + IfPresent(a.platform.value.workspaceId, 256)
  }

  function ObservedTexts(a: Attestation): seq<Bounded> {
    if a.observedTarget.None? then [] else IfPresent(a.observedTarget.value, 512)
  }

  function ProfileTexts(a: Attestation): seq<Bounded> {
    if a.profile.None? then []
    else IfPresent(a.profile.value.displayName, 256) + IfPresent(a.profile.value.username, 256)
  }

  /** Every text of an attestation that is present, with the most code units it may have. */
  function TextsOf(a: Attestation): seq<Bounded> {
    MustTexts(a) + IfPresent(a.assurance, 256) + PlatformTexts(a) + ObservedTexts(a) + ProfileTexts(a)
  }

  predicate Fits(b: Bounded) {
    0 < |b.text| && |b.text| < b.most + 1
  }

  predicate AllFit(bs: seq<Bounded>) {
    forall b :: b in bs ==> Fits(b)
  }

  lemma FitTogether(bs: seq<Bounded>, cs: seq<Bounded>)
    ensures AllFit(bs + cs) <==> AllFit(bs) && AllFit(cs)
  {
    if AllFit(bs + cs) {
      forall b | b in bs ensures Fits(b) { assert b in bs + cs; }
      forall b | b in cs ensures Fits(b) { assert b in bs + cs; }
    }
  }

  lemma PresentFits(t: Option<Text>, most: nat)
    ensures AllFit(IfPresent(t, most)) <==> (t.Some? ==> 1 <= |t.value| <= most)
  {
    if t.Some? { assert Bounded(t.value, most) in IfPresent(t, most); }
  }

  lemma MustFit(a: Attestation)
    ensures AllFit(MustTexts(a)) <==>
            Identifier(a.credentialId) && Identifier(a.issuer) && Identifier(a.subject) && Summary(a.methodName)
  {
    var m := MustTexts(a);
    assert m[0] in m && m[1] in m && m[2] in m && m[3] in m;
  }

  lemma PartsFit(a: Attestation)
    ensures AllFit(PlatformTexts(a)) <==>
            (a.platform.Some? ==>
               (a.platform.value.provider.Some? ==> Summary(a.platform.value.provider.value))
               && (a.platform.value.workspaceId.Some? ==> Summary(a.platform.value.workspaceId.value)))
    ensures AllFit(ObservedTexts(a)) <==>
            (a.observedTarget.Some? && a.observedTarget.value.Some? ==> Identifier(a.observedTarget.value.value))
    ensures AllFit(ProfileTexts(a)) <==>
            (a.profile.Some? ==>
               (a.profile.value.displayName.Some? ==> Summary(a.profile.value.displayName.value))
               && (a.profile.value.username.Some? ==> Summary(a.profile.value.username.value)))
  {
    hide IfPresent, AllFit;
    assert AllFit([]) by { NothingToFit(); }
    if a.platform.Some? {
      FitTogether(IfPresent(a.platform.value.provider, 256), IfPresent(a.platform.value.workspaceId, 256));
      PresentFits(a.platform.value.provider, 256);
      PresentFits(a.platform.value.workspaceId, 256);
    }
    if a.observedTarget.Some? { PresentFits(a.observedTarget.value, 512); }
    if a.profile.Some? {
      FitTogether(IfPresent(a.profile.value.displayName, 256), IfPresent(a.profile.value.username, 256));
      PresentFits(a.profile.value.displayName, 256);
      PresentFits(a.profile.value.username, 256);
    }
  }

  lemma NothingToFit()
    ensures AllFit([])
  {}

  /** An attestation is accepted exactly if each text it has is neither empty nor too long. */
  lemma ValidExactly(a: Attestation)
    ensures ValidAttestation(a) <==> AllFit(TextsOf(a))
  {
    hide Identifier, IfPresent, AllFit, MustTexts, PlatformTexts, ObservedTexts, ProfileTexts;
    MustFit(a);
    PresentFits(a.assurance, 256);
    PartsFit(a);
    FitTogether(MustTexts(a) + IfPresent(a.assurance, 256) + PlatformTexts(a) + ObservedTexts(a), ProfileTexts(a));
    FitTogether(MustTexts(a) + IfPresent(a.assurance, 256) + PlatformTexts(a), ObservedTexts(a));
    FitTogether(MustTexts(a) + IfPresent(a.assurance, 256), PlatformTexts(a));
    FitTogether(MustTexts(a), IfPresent(a.assurance, 256));
  }

  predicate ListRefused(l: Option<seq<Attestation>>) {
    l.Some? && (|l.value| > 8 || exists a :: a in l.value && !AllFit(TextsOf(a)))
  }

  /** A field of neither version, or of both; a name or a list out of bounds; an actor for nobody, or for itself. */
  predicate Refused(w: Wire) {
    || w.unknownField
    || ((w.principal.Some? || w.actor.Some? || w.attestations.Some?) && (w.authenticated.Some? || w.presented.Some?))
    || !AllFit(IfPresent(w.principal, 512) + IfPresent(w.actor, 512) + IfPresent(w.authenticated, 512))
    || (w.actor.Some? && (w.principal.None? || w.actor == w.principal))
    || ListRefused(w.attestations) || ListRefused(w.presented)
  }

  lemma ListsExactly(l: Option<seq<Attestation>>)
    ensures ValidList(l) <==> !ListRefused(l)
  {
    hide ValidAttestation, AllFit, TextsOf;
    if l.Some? { forall a | a in l.value ensures ValidAttestation(a) <==> AllFit(TextsOf(a)) { ValidExactly(a); } }
  }

  lemma RefusedExactly(w: Wire)
    ensures Refused(w) <==> !ValidV1(w) && !ValidV2(w)
  {
    hide ValidList, ListRefused, AllFit, IfPresent;
    ListsExactly(w.attestations);
    ListsExactly(w.presented);
    assert ValidList(None) by { ListsExactly(None); NoList(); }
    FitTogether(IfPresent(w.principal, 512) + IfPresent(w.actor, 512), IfPresent(w.authenticated, 512));
    FitTogether(IfPresent(w.principal, 512), IfPresent(w.actor, 512));
    PresentFits(w.principal, 512);
    PresentFits(w.actor, 512);
    PresentFits(w.authenticated, 512);
  }

  lemma NoList()
    ensures !ListRefused(None)
  {}

  /** A context is dropped exactly if it is refused or names nobody and shows nothing. Otherwise what is kept is what
      the version it is in says: its principal, its actor, if that version has one, and its list. */
  lemma NormalizeExactly(w: Wire)
    ensures Normalize(Some(w)) ==
            if Refused(w) || (w.principal.None? && w.authenticated.None? && ListOf(w.attestations) == []
                              && ListOf(w.presented) == []) then None
            else Some(Canonical(if w.authenticated.Some? then w.authenticated else w.principal, w.actor,
                                ListOf(w.attestations) + ListOf(w.presented)))
  {
    RefusedExactly(w);
    hide Refused, ValidList, Identifier;
    assert ListOf(w.attestations) + [] == ListOf(w.attestations) && [] + ListOf(w.presented) == ListOf(w.presented);
  }

  // ---------------------------------------------------------------- the projection

  datatype Projected = Projected(issuer: Text, subject: Text, methodName: Text, assurance: Option<Text>,
                                 platform: Option<Platform>)

  /** What of an attestation identifies a session: no credential id, profile or observed invocation. */
  function Project(a: Attestation): Projected {
    Projected(a.issuer, a.subject, a.methodName, a.assurance,
              if a.platform == Some(Platform(None, None)) then None else a.platform)
  }

  function Provider(a: Attestation): Option<Text> {
    if a.platform.Some? then a.platform.value.provider else None
  }

  function Workspace(a: Attestation): Option<Text> {
    if a.platform.Some? then a.platform.value.workspaceId else None
  }

  /** Two attestations identify a session alike exactly if they agree in these six; a platform that says nothing is as
      good as none. */
  lemma ProjectExactly(a: Attestation, b: Attestation)
    ensures Project(a) == Project(b) <==>
            && a.issuer == b.issuer && a.subject == b.subject && a.methodName == b.methodName
            && a.assurance == b.assurance && Provider(a) == Provider(b) && Workspace(a) == Workspace(b)
  {}

  function Optional(name: Text, v: Option<Json>): seq<Field> {
    if v.Some? then [Field(name, v.value)] else []
  }

  function TextJson(t: Option<Text>): Option<Json> {
    if t.Some? then Some(Str(t.value)) else None
  }

  function PlatformJson(p: Option<Platform>): Option<Json> {
    if p.None? then None
    else Some(Obj(Optional(Units("provider"), TextJson(p.value.provider))
                  + Optional(Units("workspaceId"), TextJson(p.value.workspaceId))))
  }

  function ProjectedJson(p: Projected): Json {
    Obj([Field(Units("issuer"), Str(p.issuer)), Field(Units("subject"), Str(p.subject)),
      Field(Units("method"), Str(p.methodName))]
        + (Optional(Units("assurance"), TextJson(p.assurance)) + Optional(Units("platform"), PlatformJson(p.platform))))
  }

  // ---------------------------------------------------------------- deduplicating and sorting

  /** JavaScript's `<` on strings. */
  predicate Less(a: Text, b: Text) {
    if b == [] then false
    else if a == [] then true
    else if a[0] != b[0] then a[0] < b[0]
    else Less(a[1..], b[1..])
  }

  /** `Map.set`: a known key keeps its place. */
  function Put(m: seq<Json>, j: Json): seq<Json> {
    if k :| 0 <= k < |m| && Print(m[k]) == Print(j) && (forall i :: 0 <= i < k ==> Print(m[i]) != Print(j))
    then m[k := j]
    else m + [j]
  }

  function Dedupe(js: seq<Json>): seq<Json> {
    if js == [] then [] else Put(Dedupe(js[..|js|-1]), js[|js|-1])
  }

  function Insert(js: seq<Json>, j: Json): seq<Json> {
    if js == [] || !Less(Print(js[0]), Print(j)) then [j] + js else [js[0]] + Insert(js[1..], j)
  }

  function Sort(js: seq<Json>): seq<Json> {
    if js == [] then [] else Insert(Sort(js[1..]), js[0])
  }

  function Projections(l: seq<Attestation>): seq<Json> {
    seq(|l|, i requires 0 <= i < |l| => ProjectedJson(Project(l[i])))
  }

  function AttestationsJson(l: seq<Attestation>): seq<Json> {
    Sort(Dedupe(Projections(l)))
  }

  function IdJson(id: Option<Text>): Option<Json> {
    if id.Some? then Some(Obj([Field(Units("id"), Str(id.value))])) else None
  }

  function ListJson(js: seq<Json>): Option<Json> {
    if js == [] then None else Some(Arr(js))
  }

  function IdentityJson(c: Canonical): Json {
    Obj(Optional(Units("principal"), IdJson(c.principal)) + Optional(Units("actor"), IdJson(c.actor))
        + Optional(Units("attestations"), ListJson(AttestationsJson(c.attestations))))
  }

  function CallerContextSessionKey(caller: Option<Wire>): Text {
    var c := Normalize(caller);
    if c.None? then [] else Print(IdentityJson(c.value))
  }

  // ---------------------------------------------------------------- the order on strings

  lemma {:induction false} LessTotal(a: Text, b: Text)
    ensures Less(a, b) || Less(b, a) || a == b
    ensures !(Less(a, b) && Less(b, a)) && !Less(a, a)
  {
    if a != [] && b != [] {
      LessTotal(a[1..], b[1..]);
      if a[0] == b[0] { assert a == [a[0]] + a[1..] && b == [b[0]] + b[1..]; }
    }
    if a != [] { LessTotal(a[1..], a[1..]); }
  }

  lemma {:induction false} LessTransitive(a: Text, b: Text, c: Text)
    requires Less(a, b) && Less(b, c)
    ensures Less(a, c)
  {
    if a != [] && a[0] == b[0] == c[0] { LessTransitive(a[1..], b[1..], c[1..]); }
  }

  ghost predicate Ascending(js: seq<Json>) {
    forall i, j :: 0 <= i < j < |js| ==> Less(Print(js[i]), Print(js[j]))
  }

  lemma HasFirst(b: seq<Json>)
    requires b != []
    ensures b[0] in b
  {}

  /** Two ascending lists with the same elements are the same list. */
  lemma {:induction false} AscendingUnique(a: seq<Json>, b: seq<Json>)
    requires Ascending(a) && Ascending(b) && forall j :: j in a <==> j in b
    ensures a == b
  {
    if a == [] {
      if b != [] { HasFirst(b); }
    } else {
      assert a[0] in b;
      var i :| 0 <= i < |b| && b[i] == a[0];
      assert b[0] in a;
      var k :| 0 <= k < |a| && a[k] == b[0];
      LessTotal(Print(a[0]), Print(b[0]));
      assert a[0] == b[0];
      forall j ensures j in a[1..] <==> j in b[1..] {
        InTail(a, j);
        InTail(b, j);
      }
      AscendingUnique(a[1..], b[1..]);
      assert a == [a[0]] + a[1..] && b == [b[0]] + b[1..];
    }
  }

  lemma InTail(a: seq<Json>, j: Json)
    requires Ascending(a) && a != []
    ensures j in a[1..] <==> j in a && j != a[0]
  {
    assert a == [a[0]] + a[1..];
    if j in a[1..] {
      var k :| 0 <= k < |a[1..]| && a[1..][k] == j;
      assert a[k + 1] == j;
      LessTotal(Print(a[0]), Print(j));
    }
  }

  // ---------------------------------------------------------------- what deduplicating and sorting keep

  ghost predicate Distinct(js: seq<Json>) {
    forall i, j :: 0 <= i < j < |js| ==> js[i] != js[j]
  }

  lemma PutKeeps(m: seq<Json>, j: Json)
    requires Distinct(m)
    ensures Distinct(Put(m, j)) && forall x :: x in Put(m, j) <==> x in m || x == j
  {
    forall k | 0 <= k < |m| ensures Print(m[k]) == Print(j) <==> m[k] == j { PrintInjective(m[k], j); }
    if k :| 0 <= k < |m| && Print(m[k]) == Print(j) && (forall i :: 0 <= i < k ==> Print(m[i]) != Print(j)) {
      assert Put(m, j) == m;
    } else {
      assert j !in m by { if j in m { FirstOf(m, j); } }
      assert Put(m, j) == m + [j];
    }
  }

  lemma FirstOf(m: seq<Json>, j: Json)
    requires j in m
    ensures exists k :: 0 <= k < |m| && Print(m[k]) == Print(j) && (forall i :: 0 <= i < k ==> Print(m[i]) != Print(j))
  {
    var k := 0;
    while Print(m[k]) != Print(j)
      invariant 0 <= k < |m| && forall i :: 0 <= i < k ==> Print(m[i]) != Print(j)
      decreases |m| - k
    {
      var n :| 0 <= n < |m| && m[n] == j;
      k := k + 1;
    }
  }

  lemma {:induction false} DedupeKeeps(js: seq<Json>)
    ensures Distinct(Dedupe(js)) && forall x :: x in Dedupe(js) <==> x in js
  {
    if js != [] {
      var f, l := js[..|js|-1], js[|js|-1];
      DedupeKeeps(f);
      PutKeeps(Dedupe(f), l);
      assert js == f + [l];
    }
  }

  lemma {:induction false} InsertKeeps(js: seq<Json>, j: Json)
    requires Ascending(js) && j !in js
    ensures Ascending(Insert(js, j)) && forall x :: x in Insert(js, j) <==> x in js || x == j
  {
    if js == [] {
    } else if Less(Print(js[0]), Print(j)) {
      assert js == [js[0]] + js[1..];
      InsertKeeps(js[1..], j);
      var r := Insert(js[1..], j);
      forall k | 0 <= k < |r| ensures Less(Print(js[0]), Print(r[k])) {
        assert r[k] in r;
        if r[k] != j { var n :| 0 <= n < |js[1..]| && js[1..][n] == r[k]; assert js[n + 1] == r[k]; }
      }
    } else {
      LessTotal(Print(js[0]), Print(j));
      PrintInjective(js[0], j);
      forall k | 0 <= k < |js| ensures Less(Print(j), Print(js[k])) {
        if k > 0 { LessTransitive(Print(j), Print(js[0]), Print(js[k])); }
      }
    }
  }

  lemma {:induction false} SortKeeps(js: seq<Json>)
    requires Distinct(js)
    ensures Ascending(Sort(js)) && forall x :: x in Sort(js) <==> x in js
  {
    if js != [] {
      SortKeeps(js[1..]);
      assert js == [js[0]] + js[1..];
      InsertKeeps(Sort(js[1..]), js[0]);
    }
  }

  // ---------------------------------------------------------------- reading fields back

  function Lookup(fs: seq<Field>, name: Text): Option<Json> {
    if fs == [] then None else if fs[0].name == name then Some(fs[0].value) else Lookup(fs[1..], name)
  }

  lemma LookupFirst(name: Text, v: Option<Json>, rest: seq<Field>)
    requires Lookup(rest, name).None?
    ensures Lookup(Optional(name, v) + rest, name) == v
  {
    if v.Some? { assert (Optional(name, v) + rest)[0] == Field(name, v.value); }
    else { assert Optional(name, v) + rest == rest; }
  }

  lemma LookupSkip(other: Text, v: Option<Json>, rest: seq<Field>, name: Text)
    requires other != name
    ensures Lookup(Optional(other, v) + rest, name) == Lookup(rest, name)
  {
    if v.Some? { assert (Optional(other, v) + rest)[1..] == rest; }
    else { assert Optional(other, v) + rest == rest; }
  }

  lemma LookupTwo(m: Text, n: Text, v: Option<Json>, w: Option<Json>)
    requires m != n
    ensures Lookup(Optional(m, v) + Optional(n, w), m) == v && Lookup(Optional(m, v) + Optional(n, w), n) == w
  {
    assert Optional(n, w) == Optional(n, w) + [];
    LookupSkip(n, w, [], m);
    LookupFirst(m, v, Optional(n, w));
    LookupFirst(n, w, []);
    LookupSkip(m, v, Optional(n, w), n);
  }

  lemma LookupThree(m: Text, n: Text, o: Text, v: Option<Json>, w: Option<Json>, x: Option<Json>)
    requires m != n && n != o && m != o
    ensures var fs := Optional(m, v) + Optional(n, w) + Optional(o, x);
            Lookup(fs, m) == v && Lookup(fs, n) == w && Lookup(fs, o) == x
  {
    var rest := Optional(n, w) + Optional(o, x);
    assert Optional(m, v) + Optional(n, w) + Optional(o, x) == Optional(m, v) + rest;
    LookupTwo(n, o, w, x);
    assert Optional(o, x) == Optional(o, x) + [];
    LookupSkip(o, x, [], m);
    LookupSkip(n, w, Optional(o, x), m);
    LookupFirst(m, v, rest);
    LookupSkip(m, v, rest, n);
    LookupSkip(m, v, rest, o);
  }

  // ---------------------------------------------------------------- the key

  lemma PlatformJsonInjective(p: Option<Platform>, q: Option<Platform>)
    requires PlatformJson(p) == PlatformJson(q)
    ensures p == q
  {
    if p.Some? {
      var m, n := Units("provider"), Units("workspaceId");
      assert |m| == 8 && |n| == 11;
      LookupTwo(m, n, TextJson(p.value.provider), TextJson(p.value.workspaceId));
      LookupTwo(m, n, TextJson(q.value.provider), TextJson(q.value.workspaceId));
    }
  }

  lemma ProjectedJsonInjective(p: Projected, q: Projected)
    requires ProjectedJson(p) == ProjectedJson(q)
    ensures p == q
  {
    var m, n := Units("assurance"), Units("platform");
    assert |m| == 9 && |n| == 8;
    var a, b := ProjectedJson(p).fields, ProjectedJson(q).fields;
    assert a[0].value == Str(p.issuer) && a[1].value == Str(p.subject) && a[2].value == Str(p.methodName);
    assert b[0].value == Str(q.issuer) && b[1].value == Str(q.subject) && b[2].value == Str(q.methodName);
    assert a[3..] == Optional(m, TextJson(p.assurance)) + Optional(n, PlatformJson(p.platform));
    assert b[3..] == Optional(m, TextJson(q.assurance)) + Optional(n, PlatformJson(q.platform));
    LookupTwo(m, n, TextJson(p.assurance), PlatformJson(p.platform));
    LookupTwo(m, n, TextJson(q.assurance), PlatformJson(q.platform));
    PlatformJsonInjective(p.platform, q.platform);
  }

  ghost function ProjectedSet(l: seq<Attestation>): set<Projected> {
    set a | a in l :: Project(a)
  }

  lemma AttestationsJsonElements(l: seq<Attestation>)
    ensures Ascending(AttestationsJson(l))
    ensures forall j :: j in AttestationsJson(l) <==> exists p :: p in ProjectedSet(l) && ProjectedJson(p) == j
  {
    var js := Projections(l);
    DedupeKeeps(js);
    SortKeeps(Dedupe(js));
    hide Sort, Dedupe, ProjectedJson;
    forall j ensures j in js <==> exists p :: p in ProjectedSet(l) && ProjectedJson(p) == j {
      if j in js { var i :| 0 <= i < |js| && js[i] == j; assert Project(l[i]) in ProjectedSet(l); }
      if p :| p in ProjectedSet(l) && ProjectedJson(p) == j {
        var a :| a in l && Project(a) == p;
        var i :| 0 <= i < |l| && l[i] == a;
        assert js[i] == j;
      }
    }
  }

  lemma AttestationsJsonCanonical(k: seq<Attestation>, l: seq<Attestation>)
    ensures AttestationsJson(k) == AttestationsJson(l) <==> ProjectedSet(k) == ProjectedSet(l)
  {
    AttestationsJsonElements(k);
    AttestationsJsonElements(l);
    hide AttestationsJson, ProjectedSet, ProjectedJson;
    var s, t := ProjectedSet(k), ProjectedSet(l);
    if AttestationsJson(k) == AttestationsJson(l) {
      forall p ensures p in s <==> p in t {
        if p in s {
          assert ProjectedJson(p) in AttestationsJson(k);
          var q :| q in t && ProjectedJson(q) == ProjectedJson(p);
          ProjectedJsonInjective(q, p);
        }
        if p in t {
          assert ProjectedJson(p) in AttestationsJson(l);
          var q :| q in s && ProjectedJson(q) == ProjectedJson(p);
          ProjectedJsonInjective(q, p);
        }
      }
    } else if s == t {
      AscendingUnique(AttestationsJson(k), AttestationsJson(l));
    }
  }

  /** The parts of a context that identify its session. */
  ghost predicate SameSession(c: Canonical, d: Canonical) {
    c.principal == d.principal && c.actor == d.actor && ProjectedSet(c.attestations) == ProjectedSet(d.attestations)
  }

  lemma IdentityCanonical(c: Canonical, d: Canonical)
    ensures IdentityJson(c) == IdentityJson(d) <==> SameSession(c, d)
  {
    var m, n, o := Units("principal"), Units("actor"), Units("attestations");
    assert |m| == 9 && |n| == 5 && |o| == 12;
    AttestationsJsonCanonical(c.attestations, d.attestations);
    hide AttestationsJson, ProjectedSet;
    LookupThree(m, n, o, IdJson(c.principal), IdJson(c.actor), ListJson(AttestationsJson(c.attestations)));
    LookupThree(m, n, o, IdJson(d.principal), IdJson(d.actor), ListJson(AttestationsJson(d.attestations)));
  }

  /** The key is canonical: two contexts share it exactly when both identify nobody, or principal, actor and
      the set of projected attestations agree. Order, repetition, credential ids, profiles and observed
      invocations do not matter, and only a context that identifies nobody has the empty key. */
  lemma SessionKeyCanonical(a: Option<Wire>, b: Option<Wire>)
    ensures CallerContextSessionKey(a) == [] <==> Normalize(a).None?
    ensures CallerContextSessionKey(a) == CallerContextSessionKey(b) <==>
              (Normalize(a).None? && Normalize(b).None?)
              || (Normalize(a).Some? && Normalize(b).Some? && SameSession(Normalize(a).value, Normalize(b).value))
  {
    hide Normalize, IdentityJson, SameSession;
    var c, d := Normalize(a), Normalize(b);
    if c.Some? { Opens(IdentityJson(c.value), []); }
    if d.Some? { Opens(IdentityJson(d.value), []); }
    if c.Some? && d.Some? {
      PrintInjective(IdentityJson(c.value), IdentityJson(d.value));
      IdentityCanonical(c.value, d.value);
    }
  }

  /** A context whose attestations only repeat, reorder or re-issue those of another: each list is drawn from
      the other up to the evidence that changes with every request. */
  lemma EvidenceIsIgnored(w: Wire, v: Wire, at: seq<nat>)
    requires ValidV2(w) && ValidV2(v) && w.principal == v.principal && w.actor == v.actor
    requires ListOf(w.attestations) != []
    requires |at| == |ListOf(v.attestations)| && (forall i :: 0 <= i < |at| ==> at[i] < |ListOf(w.attestations)|)
    requires forall k :: 0 <= k < |ListOf(w.attestations)| ==> k in at
    requires forall i :: 0 <= i < |at| ==> Project(ListOf(v.attestations)[i]) == Project(ListOf(w.attestations)[at[i]])
    ensures CallerContextSessionKey(Some(w)) == CallerContextSessionKey(Some(v)) != []
  {
    assert 0 in at;
    SessionKeyCanonical(Some(w), Some(v));
    DrawnFrom(ListOf(w.attestations), ListOf(v.attestations), at);
    hide ValidV1, ValidList, Identifier, ProjectedSet, CallerContextSessionKey;
  }

  lemma DrawnFrom(k: seq<Attestation>, l: seq<Attestation>, at: seq<nat>)
    requires |at| == |l| && (forall i :: 0 <= i < |at| ==> at[i] < |k|)
    requires forall n :: 0 <= n < |k| ==> n in at
    requires forall i :: 0 <= i < |at| ==> Project(l[i]) == Project(k[at[i]])
    ensures ProjectedSet(k) == ProjectedSet(l)
  {
    hide Project;
    forall p ensures p in ProjectedSet(k) <==> p in ProjectedSet(l) {
      if p in ProjectedSet(k) {
        var a :| a in k && Project(a) == p;
        var n :| 0 <= n < |k| && k[n] == a;
        assert n in at;
        var i :| 0 <= i < |at| && at[i] == n;
        assert l[i] in l;
      }
      if p in ProjectedSet(l) {
        var b :| b in l && Project(b) == p;
        var i :| 0 <= i < |l| && l[i] == b;
        assert k[at[i]] in k;
      }
    }
  }
}
