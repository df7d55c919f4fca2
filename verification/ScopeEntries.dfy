/** Who is let into a scope, when its entry is dropped, and when its idle container is reclaimed: exactly, in every
    reachable state. */
module ScopeEntries {
  import opened ScopeLeases

  // ---------------------------------------------------------------- arrivals

  /** An arrival is let in exactly when the queue has room and its scope has a sound entry, or room for a new one. Then
      it stands last in the chain of the current entry; otherwise nothing changes. */
  lemma ArrivalExactly(lim: Limits, s: State, scope: Scope)
    requires Reachable(lim, s)
    ensures Possible(s, Arrive(scope))
    ensures var t := After(lim, s, Arrive(scope));
            if s.pending < lim.maxScopes + lim.queueLimit
               && (if scope in s.entries then !s.objects[s.entries[scope]].quarantined else |s.entries| < lim.maxScopes)
            then
              && scope in t.entries && t.pending == s.pending + 1
              && (var e := t.objects[t.entries[scope]];
                  && e.links != [] && e.links[|e.links|-1] == Task(Waiting)
                  && if scope in s.entries
                     then t.entries == s.entries && e.links[..|e.links|-1] == s.objects[s.entries[scope]].links
                          && t.objects == s.objects[s.entries[scope] := e]
                     else |e.links| == 1 && !e.retained && !e.quarantined && t.objects == s.objects + [e])
            else t == s
  {
    ReachableInv(lim, s);
  }

  // ---------------------------------------------------------------- releases

  /** When a task's turn is over, its entry is dropped exactly if it has no user left and is neither retained nor
      quarantined. */
  lemma ReleaseExactly(lim: Limits, s: State, o: nat, k: nat)
    requires Reachable(lim, s) && Possible(s, Release(o, k))
    ensures var t, e := After(lim, s, Release(o, k)), s.objects[o];
            && t.pending == s.pending - 1 && t.objects[o].users == e.users - 1 && LinkAt(t, o, k, Done)
            && (forall x :: x != e.scope ==> (x in t.entries <==> x in s.entries))
            && (e.scope !in t.entries <==> e.users == 1 && !e.retained && !e.quarantined)
            && (e.scope in t.entries ==> Current(t, o))
  {
    ReachableInv(lim, s);
    assert EntryOk(s, o);
    WaitingIsCurrent(s, o, k);
  }

  /** A retained or quarantined entry is never forgotten: it stays the scope's entry, retained or quarantined, in every
      later state. */
  ghost predicate Kept(s: State, o: nat) {
    Current(s, o) && (s.objects[o].retained || s.objects[o].quarantined)
  }

  lemma StepKeeps(lim: Limits, s: State, e: Event, o: nat)
    requires Inv(lim, s) && Possible(s, e) && Kept(s, o)
    ensures var t := After(lim, s, e);
            && Kept(t, o) && (s.objects[o].retained ==> t.objects[o].retained)
            && (s.objects[o].quarantined ==> t.objects[o].quarantined)
  {
    if e.Release? {
      assert EntryOk(s, e.o);
      WaitingIsCurrent(s, e.o, e.k);
    }
  }

  lemma {:induction false} KeptForGood(lim: Limits, s: State, es: seq<Event>, t: State, o: nat)
    requires Inv(lim, s) && Runs(lim, s, es, t) && Kept(s, o)
    ensures Kept(t, o) && (s.objects[o].quarantined ==> t.objects[o].quarantined)
    decreases |es|
  {
    if es != [] {
      StepKeeps(lim, s, es[0], o);
      StepKeepsInv(lim, s, es[0]);
      hide Inv, Possible, After;
      KeptForGood(lim, After(lim, s, es[0]), es[1..], t, o);
    }
  }

  /** Nobody gets into a quarantined scope any more: neither a task nor an idle reclaim joins its chain. */
  lemma {:induction false} QuarantineCloses(lim: Limits, s: State, es: seq<Event>, t: State, o: nat)
    requires Inv(lim, s) && Runs(lim, s, es, t) && Current(s, o) && s.objects[o].quarantined
    ensures Current(t, o) && t.objects[o].quarantined && |t.objects[o].links| == |s.objects[o].links|
    decreases |es|
  {
    if es != [] {
      StepKeeps(lim, s, es[0], o);
      ChainStays(lim, s, es[0], o);
      StepKeepsInv(lim, s, es[0]);
      hide Inv, Possible, After;
      QuarantineCloses(lim, After(lim, s, es[0]), es[1..], t, o);
    }
  }

  lemma ChainStays(lim: Limits, s: State, e: Event, o: nat)
    requires Inv(lim, s) && Possible(s, e) && Current(s, o) && s.objects[o].quarantined
    ensures |After(lim, s, e).objects[o].links| == |s.objects[o].links|
  {}

  // ---------------------------------------------------------------- idle reclaims

  function Tasks(links: seq<Link>): nat {
    if links == [] then 0 else Tasks(links[..|links|-1]) + (if links[|links|-1].Task? then 1 else 0)
  }

  /** An entry's generation counts its tasks; the link of an idle timer remembers the count, and stands behind tasks
      that are all over. */
  ghost predicate IdleAt(e: Entry, k: nat)
    requires k < |e.links|
  {
    e.links[k].Idle? ==>
      && e.links[k].generation == Tasks(e.links[..k]) && e.links[k].phase != Left
      && forall j :: 0 <= j < k && e.links[j].Task? ==> e.links[j].phase == Done
  }

  ghost predicate IdleOk(e: Entry) {
    e.generation == Tasks(e.links) && forall k {:trigger IdleAt(e, k)} :: 0 <= k < |e.links| ==> IdleAt(e, k)
  }

  ghost predicate AllIdleOk(s: State) {
    forall o {:trigger s.objects[o]} :: 0 <= o < |s.objects| ==> IdleOk(s.objects[o])
  }

  lemma TasksAppend(links: seq<Link>, l: Link)
    ensures Tasks(links + [l]) == Tasks(links) + (if l.Task? then 1 else 0)
  {
    assert (links + [l])[..|links|] == links;
  }

  lemma {:induction false} TasksPhased(links: seq<Link>, k: nat, phase: Phase)
    requires k < |links|
    ensures Tasks(links[k := links[k].(phase := phase)]) == Tasks(links)
  {
    var n := |links| - 1;
    var t := links[k := links[k].(phase := phase)];
    if k < n {
      assert t[..n] == links[..n][k := links[k].(phase := phase)];
      TasksPhased(links[..n], k, phase);
    } else {
      assert t[..n] == links[..n];
    }
  }

  lemma {:induction false} NoUsersAllDone(links: seq<Link>, j: nat)
    requires Users(links) == 0 && j < |links| && links[j].Task?
    ensures links[j].phase == Done
  {
    if j < |links| - 1 { NoUsersAllDone(links[..|links|-1], j); }
  }

  lemma AppendIdleOk(e: Entry, l: Link, f: Entry)
    requires IdleOk(e) && f.links == e.links + [l] && f.generation == e.generation + (if l.Task? then 1 else 0)
    requires l.Idle? ==> l.generation == e.generation && l.phase == Waiting && Users(e.links) == 0
    ensures IdleOk(f)
  {
    TasksAppend(e.links, l);
    forall k | 0 <= k < |f.links| ensures IdleAt(f, k) {
      if k < |e.links| {
        assert IdleAt(e, k) && f.links[..k] == e.links[..k];
      } else {
        assert f.links[..k] == e.links;
        if l.Idle? {
          forall j | 0 <= j < k && f.links[j].Task? ensures f.links[j].phase == Done { NoUsersAllDone(e.links, j); }
        }
      }
    }
  }

  lemma PhasedIdleOk(e: Entry, k: nat, phase: Phase, f: Entry)
    requires IdleOk(e) && k < |e.links| && e.links[k].phase != Done && (e.links[k].Idle? ==> phase != Left)
    requires f.links == e.links[k := e.links[k].(phase := phase)] && f.generation == e.generation
    ensures IdleOk(f)
  {
    TasksPhased(e.links, k, phase);
    forall i | 0 <= i < |f.links| ensures IdleAt(f, i) {
      assert IdleAt(e, i);
      if k < i {
        assert f.links[..i] == e.links[..i][k := e.links[..i][k].(phase := phase)];
        TasksPhased(e.links[..i], k, phase);
      } else {
        assert f.links[..i] == e.links[..i];
      }
    }
  }

  lemma StepKeepsIdle(lim: Limits, s: State, e: Event)
    requires Inv(lim, s) && AllIdleOk(s) && Possible(s, e)
    ensures AllIdleOk(After(lim, s, e))
  {
    hide IdleOk, Users, AllUsers, Ordered, Resolved;
    var t := After(lim, s, e);
    forall o {:trigger t.objects[o]} | 0 <= o < |t.objects| ensures IdleOk(t.objects[o]) {
      if o < |s.objects| {
        assert IdleOk(s.objects[o]);
        if t.objects[o] != s.objects[o] { ChangeKeepsIdle(lim, s, e, o); }
      } else {
        FirstTask(t.objects[o]);
      }
    }
  }

  lemma FirstTask(e: Entry)
    requires e.links == [Task(Waiting)] && e.generation == 1
    ensures IdleOk(e)
  {
    TasksAppend([], Task(Waiting));
    assert [] + [Task(Waiting)] == [Task(Waiting)];
  }

  lemma ChangeKeepsIdle(lim: Limits, s: State, e: Event, o: nat)
    requires Inv(lim, s) && Possible(s, e) && o < |s.objects| && IdleOk(s.objects[o])
    requires o < |After(lim, s, e).objects| && After(lim, s, e).objects[o] != s.objects[o]
    ensures IdleOk(After(lim, s, e).objects[o])
  {
    hide IdleOk, Users, AllUsers, Ordered, Resolved;
    var a, b := s.objects[o], After(lim, s, e).objects[o];
    match e
    case Arrive(_) => AppendIdleOk(a, Task(Waiting), b);
    case Enter(_, k) => PhasedIdleOk(a, k, Inside, b);
    case GiveUp(_, k) => PhasedIdleOk(a, k, Left, b);
    case Leave(_, k) => PhasedIdleOk(a, k, Left, b);
    case Release(_, k) => PhasedIdleOk(a, k, Done, b);
    case IdleFires(_) =>
      assert EntryOk(s, o);
      AppendIdleOk(a, Idle(Waiting, a.generation), b);
    case IdleRuns(_, k) => PhasedIdleOk(a, k, b.links[k].phase, b);
    case IdleEnds(_, k, _) => PhasedIdleOk(a, k, Done, b);
    case Retain(_) => SameLinks(a, b);
    case Quarantine(_) => SameLinks(a, b);
  }

  lemma SameLinks(a: Entry, b: Entry)
    requires IdleOk(a) && b.links == a.links && b.generation == a.generation
    ensures IdleOk(b)
  {
    forall k | 0 <= k < |b.links| ensures IdleAt(b, k) { assert IdleAt(a, k); }
  }

  lemma {:induction false} RunKeepsIdle(lim: Limits, s: State, es: seq<Event>, t: State)
    requires Inv(lim, s) && AllIdleOk(s) && Runs(lim, s, es, t)
    ensures AllIdleOk(t)
    decreases |es|
  {
    hide Inv, AllIdleOk, Possible, After;
    if es != [] {
      StepKeepsInv(lim, s, es[0]);
      StepKeepsIdle(lim, s, es[0]);
      RunKeepsIdle(lim, After(lim, s, es[0]), es[1..], t);
    }
  }

  lemma ReachableIdle(lim: Limits, s: State)
    requires Reachable(lim, s)
    ensures AllIdleOk(s)
  {
    var scopes, es :| Startable(lim, scopes) && Runs(lim, Initial(scopes), es, s);
    InitialInv(lim, scopes);
    RunKeepsIdle(lim, Initial(scopes), es, s);
  }

  lemma {:induction false} TasksAfter(links: seq<Link>, k: nat)
    requires k < |links|
    ensures Tasks(links[..k]) <= Tasks(links)
    ensures Tasks(links[..k]) == Tasks(links) <==> forall j :: k <= j < |links| ==> !links[j].Task?
  {
    var n := |links| - 1;
    if k < n {
      TasksAfter(links[..n], k);
      assert links[..n][..k] == links[..k];
    }
  }

  /** A reclaim whose turn has come goes inside exactly when its entry is still the scope's, is not quarantined, and no
      task has arrived since its timer fired. Then no task is in the scope, or on its way. */
  lemma ReclaimExactly(lim: Limits, s: State, o: nat, k: nat)
    requires Reachable(lim, s) && Possible(s, IdleRuns(o, k))
    ensures var links := s.objects[o].links;
            && LinkAt(After(lim, s, IdleRuns(o, k)), o, k,
                      if Current(s, o) && !s.objects[o].quarantined && (forall j :: k < j < |links| ==> !links[j].Task?)
                      then Inside else Done)
    ensures LinkAt(After(lim, s, IdleRuns(o, k)), o, k, Inside) ==>
              forall j :: 0 <= j < |s.objects[o].links| && s.objects[o].links[j].Task? ==>
                s.objects[o].links[j].phase == Done
  {
    ReachableInv(lim, s);
    ReachableIdle(lim, s);
    var e := s.objects[o];
    assert EntryOk(s, o) && IdleOk(e) && IdleAt(e, k);
    TasksAfter(e.links, k);
    if forall j :: k <= j < |e.links| ==> !e.links[j].Task? { NoTaskWaits(e.links, k); }
  }

  lemma {:induction false} NoTaskWaits(links: seq<Link>, k: nat)
    requires k <= |links| && (forall j :: 0 <= j < k && links[j].Task? ==> links[j].phase == Done)
    requires forall j :: k <= j < |links| ==> !links[j].Task?
    ensures Users(links) == 0
  {
    if links != [] { NoTaskWaits(links[..|links|-1], if k < |links| then k else |links| - 1); }
  }

  /** A timer fires only for a sound entry without users; when it does, its reclaim waits behind tasks that are over. */
  lemma IdleFiresExactly(lim: Limits, s: State, o: nat)
    requires Reachable(lim, s) && o < |s.objects|
    ensures Possible(s, IdleFires(o)) <==>
              Current(s, o) && !s.objects[o].quarantined
              && forall j :: 0 <= j < |s.objects[o].links| && s.objects[o].links[j].Task? ==>
                 s.objects[o].links[j].phase == Done
  {
    ReachableInv(lim, s);
    assert EntryOk(s, o);
    var links := s.objects[o].links;
    if Users(links) == 0 {
      forall j | 0 <= j < |links| && links[j].Task? ensures links[j].phase == Done { NoUsersAllDone(links, j); }
    } else if forall j :: 0 <= j < |links| && links[j].Task? ==> links[j].phase == Done {
      NoTaskWaits(links, |links|);
    }
  }

  /** Idle reclaims never leave their place early: their links are waiting, inside or done. */
  lemma ReclaimsStay(lim: Limits, s: State, o: nat, k: nat)
    requires Reachable(lim, s) && o < |s.objects| && k < |s.objects[o].links| && s.objects[o].links[k].Idle?
    ensures s.objects[o].links[k].phase != Left
  {
    ReachableIdle(lim, s);
    assert IdleOk(s.objects[o]) && IdleAt(s.objects[o], k);
  }
}
