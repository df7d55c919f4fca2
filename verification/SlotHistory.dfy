/** How executions move through their stages: who may go on when, that a scope is prepared once, that nobody gets a
    context before, and that no step touches another execution's containers. */
module SlotHistory {
  import opened Slots

  // ---------------------------------------------------------------- the order of stages

  /** An execution past its preparation finds its scope prepared, and nobody prepares a prepared scope again. */
  ghost predicate Ordered(s: State) {
    && (forall p {:trigger s.busy[p]} :: p in s.busy && s.busy[p] in {Ready, Up} ==> p.scope in s.prepared)
    && (forall p {:trigger IsPreparing(s, p)} :: IsPreparing(s, p) ==> p.scope !in s.prepared)
    && (forall p, q {:trigger IsPreparing(s, p), IsPreparing(s, q)} ::
          IsPreparing(s, p) && IsPreparing(s, q) && p.scope == q.scope ==> p == q)
  }

  lemma StepKeepsOrder(cfg: Config, s: State, e: Event)
    requires Ordered(s) && Possible(cfg, s, e)
    ensures Ordered(After(cfg, s, e))
  {
    hide InScope;
    var t := After(cfg, s, e);
    forall p, q | IsPreparing(t, p) && IsPreparing(t, q) && p.scope == q.scope ensures p == q {
      if e.BeginPrepare? && (p == e.p || q == e.p) {
        assert !IsPreparing(s, p) && !IsPreparing(s, q);
      } else {
        assert IsPreparing(s, p) && IsPreparing(s, q);
      }
    }
    forall p | IsPreparing(t, p) ensures p.scope !in t.prepared {
      if e.BaseStopped? { assert IsPreparing(s, p) && IsPreparing(s, e.p); }
      else if !(e.BeginPrepare? && e.p == p) { assert IsPreparing(s, p); }
    }
  }

  lemma {:induction false} RunKeepsOrder(cfg: Config, s: State, es: seq<Event>, t: State)
    requires Ordered(s) && Runs(cfg, s, es, t)
    ensures Ordered(t)
    decreases |es|
  {
    hide Ordered, Possible, After;
    if es != [] {
      StepKeepsOrder(cfg, s, es[0]);
      RunKeepsOrder(cfg, After(cfg, s, es[0]), es[1..], t);
    }
  }

  /** In every reachable state an execution with a context has its scope prepared, at most one execution prepares a
      scope, and none prepares one that is prepared. */
  lemma PreparedFirst(cfg: Config, s: State)
    requires Reachable(cfg, s)
    ensures forall p :: p in s.busy && s.busy[p] in {Ready, Up} ==> p.scope in s.prepared
    ensures forall p, q :: IsPreparing(s, p) && IsPreparing(s, q) && p.scope == q.scope ==> p == q
    ensures forall p :: IsPreparing(s, p) ==> p.scope !in s.prepared
  {
    var es :| Runs(cfg, Start, es, s);
    RunKeepsOrder(cfg, Start, es, s);
  }

  /** Once prepared, always prepared; once quarantined, always quarantined. */
  lemma {:induction false} PreparedForGood(cfg: Config, s: State, es: seq<Event>, t: State)
    requires Runs(cfg, s, es, t)
    ensures s.prepared <= t.prepared && s.quarantined <= t.quarantined
    decreases |es|
  {
    if es != [] {
      assert s.prepared <= After(cfg, s, es[0]).prepared && s.quarantined <= After(cfg, s, es[0]).quarantined by {
        hide InScope, TailFree;
      }
      hide Possible, After;
      PreparedForGood(cfg, After(cfg, s, es[0]), es[1..], t);
    }
  }

  /** A quarantined scope lets nobody past its allocation any more. */
  lemma QuarantineHolds(cfg: Config, s: State, e: Event, p: Pair)
    requires Possible(cfg, s, e) && p.scope in s.quarantined && At(s, p, Held)
    ensures p in After(cfg, s, e).busy ==> After(cfg, s, e).busy[p] in {Held, Cleaning}
  {
    hide InScope, TailFree;
  }

  // ---------------------------------------------------------------- who may go on

  ghost predicate CanBecome(cfg: Config, s: State, p: Pair, stage: Stage) {
    exists e :: Possible(cfg, s, e) && At(After(cfg, s, e), p, stage)
  }

  /** The stage an execution may reach in one step. */
  predicate MayReach(s: State, p: Pair, stage: Stage)
    requires p in s.busy
  {
    match stage
    case Held => false
    case Preparing(mutated) =>
      if mutated then s.busy[p] == Preparing(false)
      else s.busy[p] == Held && TailFree(s, p.scope) && p.scope !in s.prepared && p.scope !in s.quarantined
    case Ready =>
      s.busy[p].Preparing?
      || (s.busy[p] == Held && TailFree(s, p.scope) && p.scope in s.prepared && p.scope !in s.quarantined)
    case Up => s.busy[p] == Ready && p in s.contexts
    case Cleaning => s.busy[p].Preparing? || s.busy[p] == Held || s.busy[p] == Ready || s.busy[p] == Up
    case BaseFailed => s.busy[p].Preparing?
    case ContextFailed => s.busy[p] == Cleaning || s.busy[p] == Ready
  }

  lemma OnlyReaches(cfg: Config, s: State, e: Event, p: Pair, stage: Stage)
    requires p in s.busy && s.busy[p] != stage && Possible(cfg, s, e) && At(After(cfg, s, e), p, stage)
    ensures MayReach(s, p, stage)
  {
    hide InScope, TailFree;
  }

  function WayTo(s: State, p: Pair, stage: Stage): Event
    requires p in s.busy && MayReach(s, p, stage)
  {
    match stage
    case Preparing(mutated) => if mutated then BaseStart(p) else BeginPrepare(p)
    case Ready => if s.busy[p].Preparing? then BaseStopped(p, true, false) else SkipPrepare(p)
    case Up => ContextFound(p)
    case Cleaning => if s.busy[p].Preparing? then BaseStopped(p, false, false) else BeginCleanup(p)
    case BaseFailed => BaseStopFails(p)
    case ContextFailed => if s.busy[p] == Ready then HelperUnconfirmed(p) else RemoveFails(p)
  }

  /** An execution reaches another stage in one step exactly as it may. */
  lemma MovesExactly(cfg: Config, s: State, p: Pair, stage: Stage)
    requires p in s.busy && s.busy[p] != stage
    ensures CanBecome(cfg, s, p, stage) <==> MayReach(s, p, stage)
  {
    hide TailFree;
    if e :| Possible(cfg, s, e) && At(After(cfg, s, e), p, stage) { OnlyReaches(cfg, s, e, p, stage); }
    if MayReach(s, p, stage) {
      var e := WayTo(s, p, stage);
      assert Possible(cfg, s, e) && At(After(cfg, s, e), p, stage);
    }
  }

  /** A slot is taken exactly while both limits leave room, and given back exactly by an execution that never got to
      prepare, or by one whose containers are gone. */
  lemma SlotsExactly(cfg: Config, s: State, p: Pair)
    ensures p !in s.busy ==>
              (CanBecome(cfg, s, p, Held) <==>
               |s.busy.Keys| < cfg.global && |InScope(s.busy.Keys, p.scope)| < cfg.perCaller)
    ensures p in s.busy ==>
              ((exists e :: Possible(cfg, s, e) && p !in After(cfg, s, e).busy)
               <==> s.busy[p] == Held || s.busy[p] == Cleaning)
  {
    hide InScope, TailFree;
    if p !in s.busy {
      if |s.busy.Keys| < cfg.global && |InScope(s.busy.Keys, p.scope)| < cfg.perCaller {
        assert Possible(cfg, s, Lease(p)) && At(After(cfg, s, Lease(p)), p, Held);
      }
    } else if s.busy[p] == Held {
      assert Possible(cfg, s, Reject(p)) && p !in After(cfg, s, Reject(p)).busy;
    } else if s.busy[p] == Cleaning {
      assert Possible(cfg, s, Removed(p)) && p !in After(cfg, s, Removed(p)).busy;
    }
  }

  // ---------------------------------------------------------------- the containers

  /** What a step does to the containers of executions: one appears stopped under an id of its own, a start runs
      exactly the container with its id, and only an exit, a replacement or the removal ends it. */
  lemma ContextsExactly(cfg: Config, s: State, e: Event, p: Pair)
    requires Possible(cfg, s, e) && IdsOk(s)
    ensures var t := After(cfg, s, e);
            && (p in t.contexts <==> (p in s.contexts && !(e.Removed? && e.p == p)) || (e.ContextAppears? && e.p == p))
            && (RunsContext(t, p) <==>
                || (RunsContext(s, p) && !(e.ContextExits? && e.p == p) && !(e.Removed? && e.p == p))
                || (e.ContextStartLands? && p in s.contexts && s.contexts[p].id == e.id))
            && (p in t.contexts && !(e.ContextAppears? && e.p == p) ==> t.contexts[p].id == s.contexts[p].id)
            && (e.ContextAppears? && e.p == p ==> forall q :: q in s.contexts ==> s.contexts[q].id != t.contexts[p].id)
  {
    hide InScope, TailFree;
  }

  /** What a step does to the base container of a scope, and to the starts on their way. */
  lemma BasesExactly(cfg: Config, s: State, e: Event, x: Scope)
    requires Possible(cfg, s, e)
    ensures var t := After(cfg, s, e);
            && (x in t.baseRunning <==>
                || (x in s.baseRunning && !(e.BaseExits? && e.s == x) && !(e.BaseStopped? && e.p.scope == x))
                || (e.BaseStart? && e.p.scope == x) || (e.BaseStartLands? && e.s == x))
            && (x in t.baseStarts <==>
                || (x in s.baseStarts && !(e.BaseStartLands? && e.s == x))
                || (e.BaseStartGivesUp? && e.p.scope == x))
            && (x in t.prepared <==> x in s.prepared || (e.BaseStopped? && e.done && e.p.scope == x))
            && (x in t.prepared && x !in s.prepared ==> t.quarantined == s.quarantined)
            && (x in t.quarantined <==>
                || x in s.quarantined
                || ((e.BaseStopFails? || e.HelperUnconfirmed? || (e.PrepareRejected? && e.doubt)
                     || (e.BaseStopped? && e.doubt)) && e.p.scope == x))
  {
    hide InScope, TailFree;
  }
}
