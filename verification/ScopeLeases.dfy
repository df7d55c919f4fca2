/** The serial path's per-scope leases: a chain of promises through which executions and idle reclaims of a
    scope pass one at a time, in arrival order, however early a queued task gives up. */
module ScopeLeases {
  type Scope = string

  /** `Left`: the task's handler has ended, early or not, but its link waits for the one before it. */
  datatype Phase = Waiting | Inside | Left | Done
  datatype Link = Task(phase: Phase) | Idle(phase: Phase, generation: nat)

  /** An entry object. Each link's promise resolves when the one before it has and it is done itself. */
  datatype Entry = Entry(scope: Scope, users: int, retained: bool, quarantined: bool, generation: nat, links: seq<Link>)

  /** `objects` are all entries there ever were; `entries` is the map that says which one is current. */
  datatype State = State(objects: seq<Entry>, entries: map<Scope, nat>, pending: int)

  datatype Limits = Limits(maxScopes: nat, queueLimit: nat)

  datatype Event =
    | Arrive(scope: Scope)
    | Enter(o: nat, k: nat)
    | GiveUp(o: nat, k: nat)
    | Leave(o: nat, k: nat)
    | Release(o: nat, k: nat)
    | IdleFires(o: nat)
    | IdleRuns(o: nat, k: nat)
    | IdleEnds(o: nat, k: nat, failed: bool)
    | Retain(o: nat)
    | Quarantine(o: nat)

  /** The promise a link waits for: the first `k` links are done. */
  predicate Resolved(links: seq<Link>, k: nat)
    requires k <= |links|
  {
    k == 0 || (links[k-1].phase == Done && Resolved(links, k - 1))
  }

  predicate Current(s: State, o: nat) {
    o < |s.objects| && s.objects[o].scope in s.entries && s.entries[s.objects[o].scope] == o
  }

  predicate LinkAt(s: State, o: nat, k: nat, phase: Phase) {
    o < |s.objects| && k < |s.objects[o].links| && s.objects[o].links[k].phase == phase
  }

  predicate Possible(s: State, e: Event) {
    MapOk(s) &&
    match e
    case Arrive(_) => true
    case Enter(o, k) => LinkAt(s, o, k, Waiting) && s.objects[o].links[k].Task? && Resolved(s.objects[o].links, k)
    case GiveUp(o, k) => LinkAt(s, o, k, Waiting) && s.objects[o].links[k].Task?
    case Leave(o, k) => LinkAt(s, o, k, Inside) && s.objects[o].links[k].Task?
    case Release(o, k) => LinkAt(s, o, k, Left) && s.objects[o].links[k].Task? && Resolved(s.objects[o].links, k)
    case IdleFires(o) => Current(s, o) && s.objects[o].users == 0 && !s.objects[o].quarantined
    case IdleRuns(o, k) => LinkAt(s, o, k, Waiting) && s.objects[o].links[k].Idle? && Resolved(s.objects[o].links, k)
    case IdleEnds(o, k, _) => LinkAt(s, o, k, Inside) && s.objects[o].links[k].Idle?
    case Retain(o) => o < |s.objects|
    case Quarantine(o) => o < |s.objects|
  }

  function Put(s: State, o: nat, e: Entry): State
    requires o < |s.objects|
  {
    s.(objects := s.objects[o := e])
  }

  function Phased(s: State, o: nat, k: nat, phase: Phase): State
    requires o < |s.objects| && k < |s.objects[o].links|
  {
    var e := s.objects[o];
    Put(s, o, e.(links := e.links[k := e.links[k].(phase := phase)]))
  }

  /** Admission: rejected when the queue is full, no scope is left, or the scope is quarantined. */
  function Admit(lim: Limits, s: State, scope: Scope): State
    requires scope in s.entries ==> s.entries[scope] < |s.objects|
  {
    if s.pending >= lim.maxScopes + lim.queueLimit then s
    else if scope !in s.entries then
      if |s.entries| >= lim.maxScopes then s
      else
        s.(objects := s.objects + [Entry(scope, 1, false, false, 1, [Task(Waiting)])],
           entries := s.entries[scope := |s.objects|], pending := s.pending + 1)
    else
      var o := s.entries[scope];
      var e := s.objects[o];
      if e.quarantined then s
      else
        Put(s, o, e.(users := e.users + 1, generation := e.generation + 1, links := e.links + [Task(Waiting)]))
          .(pending := s.pending + 1)
  }

  function Settle(s: State, o: nat, k: nat): State
    requires o < |s.objects| && k < |s.objects[o].links|
  {
    var t := Phased(s, o, k, Done);
    var e := t.objects[o].(users := s.objects[o].users - 1);
    var u := Put(t, o, e).(pending := s.pending - 1);
    if !e.retained && !e.quarantined && e.users == 0 then u.(entries := u.entries - {e.scope}) else u
  }

  /** The timer's decision is checked again when its turn comes: nobody may have arrived since. */
  predicate StillIdle(s: State, o: nat, k: nat)
    requires o < |s.objects| && k < |s.objects[o].links| && s.objects[o].links[k].Idle?
  {
    Current(s, o) && s.objects[o].users == 0 && !s.objects[o].quarantined
    && s.objects[o].links[k].generation == s.objects[o].generation
  }

  function After(lim: Limits, s: State, e: Event): State
    requires Possible(s, e)
  {
    match e
    case Arrive(scope) => Admit(lim, s, scope)
    case Enter(o, k) => Phased(s, o, k, Inside)
    case GiveUp(o, k) => Phased(s, o, k, Left)
    case Leave(o, k) => Phased(s, o, k, Left)
    case Release(o, k) => Settle(s, o, k)
    case IdleFires(o) =>
      Put(s, o, s.objects[o].(links := s.objects[o].links + [Idle(Waiting, s.objects[o].generation)]))
    case IdleRuns(o, k) => Phased(s, o, k, if StillIdle(s, o, k) then Inside else Done)
    case IdleEnds(o, k, failed) =>
      var t := Phased(s, o, k, Done);
      if failed then Put(t, o, t.objects[o].(quarantined := true)) else t
    case Retain(o) => Put(s, o, s.objects[o].(retained := true))
    case Quarantine(o) => Put(s, o, s.objects[o].(quarantined := true))
  }

  // ---------------------------------------------------------------- invariant

  predicate MapOk(s: State) {
    forall x :: x in s.entries ==> s.entries[x] < |s.objects| && s.objects[s.entries[x]].scope == x
  }

  function Users(links: seq<Link>): nat {
    if links == [] then 0
    else Users(links[..|links|-1]) + (if links[|links|-1].Task? && links[|links|-1].phase != Done then 1 else 0)
  }

  function AllUsers(es: seq<Entry>): int {
    if es == [] then 0 else AllUsers(es[..|es|-1]) + es[|es|-1].users
  }

  /** Who is inside or done has only done links in front of it. */
  ghost predicate Ordered(links: seq<Link>) {
    forall j, k :: 0 <= j < k < |links| && links[k].phase in {Inside, Done} ==> links[j].phase == Done
  }

  ghost predicate EntryOk(s: State, o: nat)
    requires o < |s.objects|
  {
    var e := s.objects[o];
    && e.users == Users(e.links)
    && Ordered(e.links)
    && (e.users > 0 ==> Current(s, o))
    && (forall k :: 0 <= k < |e.links| && e.links[k].phase == Inside ==> Current(s, o))
  }

  ghost predicate Inv(lim: Limits, s: State) {
    && MapOk(s)
    && (forall o {:trigger EntryOk(s, o)} :: 0 <= o < |s.objects| ==> EntryOk(s, o))
    && s.pending == AllUsers(s.objects) <= lim.maxScopes + lim.queueLimit
    && |s.entries| <= lim.maxScopes
  }

  /** The scopes retained from earlier runs, each with an entry of its own. */
  ghost predicate Distinct(scopes: seq<Scope>) {
    forall i, j :: 0 <= i < j < |scopes| ==> scopes[i] != scopes[j]
  }

  ghost function Initial(scopes: seq<Scope>): State
    requires Distinct(scopes)
  {
    State(seq(|scopes|, i requires 0 <= i < |scopes| => Entry(scopes[i], 0, true, false, 0, [])),
          map i | 0 <= i < |scopes| :: scopes[i] := i, 0)
  }

  // ---------------------------------------------------------------- lists

  lemma {:induction false} UsersSet(links: seq<Link>, k: nat, l: Link)
    requires k < |links|
    ensures Users(links[k := l]) == Users(links) - (if links[k].Task? && links[k].phase != Done then 1 else 0)
                                    + (if l.Task? && l.phase != Done then 1 else 0)
  {
    var n := |links| - 1;
    if k < n {
      assert links[k := l][..n] == links[..n][k := l];
      UsersSet(links[..n], k, l);
    } else {
      assert links[k := l][..n] == links[..n];
    }
  }

  lemma UsersAppend(links: seq<Link>, l: Link)
    ensures Users(links + [l]) == Users(links) + (if l.Task? && l.phase != Done then 1 else 0)
  {
    assert (links + [l])[..|links|] == links;
  }

  lemma {:induction false} AllUsersSet(es: seq<Entry>, o: nat, e: Entry)
    requires o < |es|
    ensures AllUsers(es[o := e]) == AllUsers(es) - es[o].users + e.users
  {
    var n := |es| - 1;
    if o < n {
      assert es[o := e][..n] == es[..n][o := e];
      AllUsersSet(es[..n], o, e);
    } else {
      assert es[o := e][..n] == es[..n];
    }
  }

  lemma AllUsersAppend(es: seq<Entry>, e: Entry)
    ensures AllUsers(es + [e]) == AllUsers(es) + e.users
  {
    assert (es + [e])[..|es|] == es;
  }

  lemma {:induction false} ResolvedMeansDone(links: seq<Link>, k: nat, j: nat)
    requires k <= |links| && Resolved(links, k) && j < k
    ensures links[j].phase == Done
  {
    if j < k - 1 { ResolvedMeansDone(links, k - 1, j); }
  }

  /** A link whose promise's turn has come may go inside or be done. */
  lemma OrderedSet(links: seq<Link>, k: nat, l: Link)
    requires k < |links| && Ordered(links) && links[k].phase != Done
    requires l.phase in {Inside, Done} ==> Resolved(links, k)
    ensures Ordered(links[k := l])
  {
    var t := links[k := l];
    forall i, j | 0 <= i < j < |t| && t[j].phase in {Inside, Done} ensures t[i].phase == Done {
      if j == k { ResolvedMeansDone(links, k, i); }
    }
  }

  // ---------------------------------------------------------------- steps

  lemma PhasedOk(s: State, o: nat, k: nat, phase: Phase)
    requires o < |s.objects| && k < |s.objects[o].links| && EntryOk(s, o) && s.objects[o].links[k].phase != Done
    requires phase in {Inside, Done} ==> Resolved(s.objects[o].links, k)
    requires phase == Inside ==> Current(s, o)
    requires phase == Done ==> s.objects[o].links[k].Idle?
    ensures EntryOk(Phased(s, o, k, phase), o)
  {
    var e := s.objects[o];
    UsersSet(e.links, k, e.links[k].(phase := phase));
    OrderedSet(e.links, k, e.links[k].(phase := phase));
  }

  /** Updating one entry object, with its scope and its number of users, leaves the rest as it was. */
  lemma OthersOk(lim: Limits, s: State, o: nat, e: Entry)
    requires Inv(lim, s) && o < |s.objects| && e.scope == s.objects[o].scope && e.users == s.objects[o].users
    requires EntryOk(Put(s, o, e), o)
    ensures Inv(lim, Put(s, o, e))
  {
    var t := Put(s, o, e);
    AllUsersSet(s.objects, o, e);
    forall p | 0 <= p < |t.objects| ensures EntryOk(t, p) { if p != o { assert EntryOk(s, p); } }
  }

  lemma WaitingIsCurrent(s: State, o: nat, k: nat)
    requires o < |s.objects| && EntryOk(s, o) && k < |s.objects[o].links|
    requires s.objects[o].links[k].Task? && s.objects[o].links[k].phase != Done
    ensures s.objects[o].users > 0 && Current(s, o)
  {
    UsersPositive(s.objects[o].links, k);
  }

  lemma {:induction false} UsersPositive(links: seq<Link>, k: nat)
    requires k < |links| && links[k].Task? && links[k].phase != Done
    ensures Users(links) > 0
  {
    if k < |links| - 1 { UsersPositive(links[..|links|-1], k); }
  }

  /** Joining a current entry. */
  lemma JoinKeepsInv(lim: Limits, s: State, o: nat)
    requires Inv(lim, s) && Current(s, o) && s.pending < lim.maxScopes + lim.queueLimit
    ensures var e := s.objects[o];
            Inv(lim, Put(s, o,
              e.(users := e.users + 1, generation := e.generation + 1, links := e.links + [Task(Waiting)]))
                       .(pending := s.pending + 1))
  {
    hide Users, AllUsers;
    var e := s.objects[o];
    var f := e.(users := e.users + 1, generation := e.generation + 1, links := e.links + [Task(Waiting)]);
    var t := Put(s, o, f).(pending := s.pending + 1);
    assert EntryOk(s, o);
    UsersAppend(e.links, Task(Waiting));
    AllUsersSet(s.objects, o, f);
    forall p | 0 <= p < |t.objects| ensures EntryOk(t, p) { if p != o { assert EntryOk(s, p); } }
  }

  /** The first task of a scope brings its entry. */
  lemma OpenKeepsInv(lim: Limits, s: State, scope: Scope)
    requires Inv(lim, s) && scope !in s.entries && |s.entries| < lim.maxScopes
             && s.pending < lim.maxScopes + lim.queueLimit
    ensures Inv(lim, s.(objects := s.objects + [Entry(scope, 1, false, false, 1, [Task(Waiting)])],
                        entries := s.entries[scope := |s.objects|], pending := s.pending + 1))
  {
    hide Users, AllUsers;
    var f := Entry(scope, 1, false, false, 1, [Task(Waiting)]);
    var t := s.(objects := s.objects + [f], entries := s.entries[scope := |s.objects|], pending := s.pending + 1);
    OneUser();
    AllUsersAppend(s.objects, f);
    forall p | 0 <= p < |t.objects| ensures EntryOk(t, p) { if p < |s.objects| { assert EntryOk(s, p); } }
  }

  lemma OneUser()
    ensures Users([Task(Waiting)]) == 1
  {
    UsersAppend([], Task(Waiting));
    assert [] + [Task(Waiting)] == [Task(Waiting)];
  }

  lemma ArriveKeepsInv(lim: Limits, s: State, scope: Scope)
    requires Inv(lim, s)
    ensures Inv(lim, Admit(lim, s, scope))
  {
    hide EntryOk, AllUsers;
    if s.pending < lim.maxScopes + lim.queueLimit {
      if scope in s.entries { JoinKeepsInv(lim, s, s.entries[scope]); }
      else if |s.entries| < lim.maxScopes { OpenKeepsInv(lim, s, scope); }
    }
  }

  lemma ReleaseKeepsInv(lim: Limits, s: State, o: nat, k: nat)
    requires Inv(lim, s) && Possible(s, Release(o, k))
    ensures Inv(lim, Settle(s, o, k))
  {
    hide Users, AllUsers;
    var t := Settle(s, o, k);
    var e := s.objects[o];
    assert EntryOk(s, o);
    WaitingIsCurrent(s, o, k);
    UsersSet(e.links, k, Task(Done));
    OrderedSet(e.links, k, Task(Done));
    AllUsersSet(s.objects, o, t.objects[o]);
    assert t.objects == s.objects[o := t.objects[o]];
    assert |t.entries| <= |s.entries|;
    InsideIsFirst(e.links, k);
    forall p | 0 <= p < |t.objects| ensures EntryOk(t, p) { if p != o { assert EntryOk(s, p); } }
  }

  /** While a link that is not done stands at `k`, nobody behind it is inside; nobody in front is either. */
  lemma InsideIsFirst(links: seq<Link>, k: nat)
    requires Ordered(links) && k < |links| && links[k].phase == Left && Resolved(links, k)
    ensures forall j :: 0 <= j < |links| ==> links[j].phase != Inside
  {
    forall j | 0 <= j < |links| ensures links[j].phase != Inside {
      if j < k { ResolvedMeansDone(links, k, j); }
    }
  }

  lemma StepKeepsInv(lim: Limits, s: State, e: Event)
    requires Inv(lim, s) && Possible(s, e)
    ensures Inv(lim, After(lim, s, e))
  {
    hide MapOk, Ordered, Resolved, Users, AllUsers;
    match e
    case Arrive(scope) => ArriveKeepsInv(lim, s, scope);
    case Enter(o, k) =>
      assert EntryOk(s, o);
      WaitingIsCurrent(s, o, k);
      PhasedOk(s, o, k, Inside);
      OthersOk(lim, s, o, Phased(s, o, k, Inside).objects[o]);
    case GiveUp(o, k) =>
      assert EntryOk(s, o);
      PhasedOk(s, o, k, Left);
      OthersOk(lim, s, o, Phased(s, o, k, Left).objects[o]);
    case Leave(o, k) =>
      assert EntryOk(s, o);
      PhasedOk(s, o, k, Left);
      OthersOk(lim, s, o, Phased(s, o, k, Left).objects[o]);
    case Release(o, k) => ReleaseKeepsInv(lim, s, o, k);
    case IdleFires(o) => IdleFiresKeepsInv(lim, s, o);
    case IdleRuns(o, k) =>
      assert EntryOk(s, o);
      var phase := if StillIdle(s, o, k) then Inside else Done;
      PhasedOk(s, o, k, phase);
      OthersOk(lim, s, o, Phased(s, o, k, phase).objects[o]);
    case IdleEnds(o, k, failed) => IdleEndsKeepsInv(lim, s, o, k, failed);
    case Retain(o) => FlagsKeepInv(lim, s, o, s.objects[o].(retained := true));
    case Quarantine(o) => FlagsKeepInv(lim, s, o, s.objects[o].(quarantined := true));
  }

  lemma FlagsKeepInv(lim: Limits, s: State, o: nat, e: Entry)
    requires Inv(lim, s) && o < |s.objects| && e == s.objects[o].(retained := e.retained, quarantined := e.quarantined)
    ensures Inv(lim, Put(s, o, e))
  {
    assert EntryOk(s, o);
    OthersOk(lim, s, o, e);
  }

  lemma IdleFiresKeepsInv(lim: Limits, s: State, o: nat)
    requires Inv(lim, s) && Possible(s, IdleFires(o))
    ensures Inv(lim, After(lim, s, IdleFires(o)))
  {
    var e := s.objects[o];
    var l := Idle(Waiting, e.generation);
    assert EntryOk(s, o);
    UsersAppend(e.links, l);
    OthersOk(lim, s, o, e.(links := e.links + [l]));
  }

  lemma IdleEndsKeepsInv(lim: Limits, s: State, o: nat, k: nat, failed: bool)
    requires Inv(lim, s) && Possible(s, IdleEnds(o, k, failed))
    ensures Inv(lim, After(lim, s, IdleEnds(o, k, failed)))
  {
    assert EntryOk(s, o);
    InsideMeansResolved(s.objects[o].links, k, k);
    PhasedOk(s, o, k, Done);
    var t := Phased(s, o, k, Done);
    OthersOk(lim, s, o, t.objects[o]);
    if failed { FlagsKeepInv(lim, t, o, t.objects[o].(quarantined := true)); }
  }

  lemma {:induction false} InsideMeansResolved(links: seq<Link>, k: nat, n: nat)
    requires Ordered(links) && k < |links| && links[k].phase == Inside && n <= k
    ensures Resolved(links, n)
  {
    if n > 0 { InsideMeansResolved(links, k, n - 1); }
  }

  ghost predicate Runs(lim: Limits, s: State, es: seq<Event>, t: State)
    decreases |es|
  {
    if es == [] then t == s else Possible(s, es[0]) && Runs(lim, After(lim, s, es[0]), es[1..], t)
  }

  ghost predicate Startable(lim: Limits, scopes: seq<Scope>) {
    |scopes| <= lim.maxScopes && Distinct(scopes)
  }

  ghost predicate Reachable(lim: Limits, s: State) {
    exists scopes, es :: Startable(lim, scopes) && Runs(lim, Initial(scopes), es, s)
  }

  lemma ReachableInv(lim: Limits, s: State)
    requires Reachable(lim, s)
    ensures Inv(lim, s)
  {
    var scopes, es :| Startable(lim, scopes) && Runs(lim, Initial(scopes), es, s);
    InitialInv(lim, scopes);
    RunKeepsInv(lim, Initial(scopes), es, s);
  }

  lemma {:induction false} InitialInv(lim: Limits, scopes: seq<Scope>)
    requires Startable(lim, scopes)
    ensures Inv(lim, Initial(scopes))
  {
    var s := Initial(scopes);
    NoUsers(s.objects);
    assert s.entries.Keys == set x | x in scopes;
    DistinctSize(scopes);
    forall o | 0 <= o < |s.objects| ensures EntryOk(s, o) {}
  }

  lemma {:induction false} NoUsers(es: seq<Entry>)
    requires forall i :: 0 <= i < |es| ==> es[i].users == 0
    ensures AllUsers(es) == 0
  {
    if es != [] { NoUsers(es[..|es|-1]); }
  }

  lemma {:induction false} DistinctSize(xs: seq<Scope>)
    ensures |set x | x in xs| <= |xs|
  {
    if xs != [] {
      var n := |xs| - 1;
      DistinctSize(xs[..n]);
      assert xs == xs[..n] + [xs[n]];
      assert (set x | x in xs) == (set x | x in xs[..n]) + {xs[n]};
    }
  }

  lemma {:induction false} RunKeepsInv(lim: Limits, s: State, es: seq<Event>, t: State)
    requires Inv(lim, s) && Runs(lim, s, es, t)
    ensures Inv(lim, t)
    decreases |es|
  {
    hide Inv, Possible, After;
    if es != [] {
      StepKeepsInv(lim, s, es[0]);
      RunKeepsInv(lim, After(lim, s, es[0]), es[1..], t);
    }
  }

  // ---------------------------------------------------------------- what the chain promises

  /** At most one execution or idle reclaim is in a scope's critical section, over every entry object the scope
      ever had; everything that came before it is over; and an entry with users is the current one. */
  lemma OneAtATime(lim: Limits, s: State, o: nat, k: nat, p: nat, l: nat)
    requires Reachable(lim, s)
    requires LinkAt(s, o, k, Inside) && LinkAt(s, p, l, Inside) && s.objects[o].scope == s.objects[p].scope
    ensures o == p && k == l && Current(s, o)
    ensures forall j :: 0 <= j < k ==> s.objects[o].links[j].phase == Done
  {
    ReachableInv(lim, s);
    assert EntryOk(s, o) && EntryOk(s, p);
  }

  /** Queue capacity and the number of entries are bounded, canceled tasks that still wait for their turn
      included; the users of an entry are its unfinished tasks. */
  lemma Bounded(lim: Limits, s: State)
    requires Reachable(lim, s)
    ensures 0 <= s.pending <= lim.maxScopes + lim.queueLimit && |s.entries| <= lim.maxScopes
    ensures forall o :: 0 <= o < |s.objects| ==> s.objects[o].users == Users(s.objects[o].links)
  {
    ReachableInv(lim, s);
    SumNonNegative(s);
    forall o | 0 <= o < |s.objects| ensures s.objects[o].users == Users(s.objects[o].links) { assert EntryOk(s, o); }
  }

  /** An entry with users is the one the map holds, before and after any step that leaves it users. */
  lemma NeverReplaced(lim: Limits, s: State, e: Event, o: nat)
    requires Reachable(lim, s) && Possible(s, e)
    requires o < |s.objects| && s.objects[o].users > 0 && o < |After(lim, s, e).objects|
             && After(lim, s, e).objects[o].users > 0
    ensures Current(s, o) && Current(After(lim, s, e), o)
  {
    ReachableInv(lim, s);
    StepKeepsInv(lim, s, e);
    hide After, Possible;
    assert EntryOk(s, o) && EntryOk(After(lim, s, e), o);
  }

  lemma SumNonNegative(s: State)
    requires forall o {:trigger EntryOk(s, o)} :: 0 <= o < |s.objects| ==> EntryOk(s, o)
    ensures AllUsers(s.objects) >= 0
  {
    forall o | 0 <= o < |s.objects| ensures s.objects[o].users >= 0 { assert EntryOk(s, o); }
    NonNegative(s.objects);
  }

  lemma {:induction false} NonNegative(es: seq<Entry>)
    requires forall o :: 0 <= o < |es| ==> es[o].users >= 0
    ensures AllUsers(es) >= 0
  {
    if es != [] { NonNegative(es[..|es|-1]); }
  }

  /** Arrival order: a link that has not been inside yet never goes inside once a later one has, even when tasks
      in between gave up early. */
  lemma ArrivalOrder(lim: Limits, s: State, es: seq<Event>, t: State, o: nat, j: nat, k: nat)
    requires Reachable(lim, s) && Runs(lim, s, es, t)
    requires LinkAt(s, o, k, Inside) && j < k
    ensures LinkAt(t, o, j, Done)
  {
    ReachableInv(lim, s);
    assert EntryOk(s, o);
    DoneStays(lim, s, es, t, o, j);
  }

  lemma StepKeepsDone(lim: Limits, s: State, e: Event, o: nat, j: nat)
    requires Possible(s, e) && LinkAt(s, o, j, Done)
    ensures LinkAt(After(lim, s, e), o, j, Done)
  {
    hide Resolved, MapOk;
    if e.Arrive? { AdmitKeepsLinks(lim, s, e.scope, o, j); }
  }

  lemma AdmitKeepsLinks(lim: Limits, s: State, scope: Scope, o: nat, j: nat)
    requires MapOk(s) && o < |s.objects| && j < |s.objects[o].links|
    ensures var t := Admit(lim, s, scope);
            o < |t.objects| && j < |t.objects[o].links| && t.objects[o].links[j] == s.objects[o].links[j]
  {}

  lemma {:induction false} DoneStays(lim: Limits, s: State, es: seq<Event>, t: State, o: nat, j: nat)
    requires Runs(lim, s, es, t) && LinkAt(s, o, j, Done)
    ensures LinkAt(t, o, j, Done)
    decreases |es|
  {
    hide Possible, After, LinkAt;
    if es != [] {
      StepKeepsDone(lim, s, es[0], o, j);
      DoneStays(lim, After(lim, s, es[0]), es[1..], t, o, j);
    }
  }
}
