/** Concurrent executions and the containers they run. Every Docker start may take effect late; a context's
    container is started and removed by its immutable id, a scope's base container is started by name. */
module Slots {
  import opened Sets
  import Scheduler = SchedulerSpec
  import SchedulerFairness

  type Scope = Scheduler.Scope
  type Pair = Scheduler.Slot
  type ContainerId = nat

  /** Where an execution stands, from its lease on. `Preparing` runs the base container of its scope, and holds
      the scope's allocation; the failed stages keep the slot until the daemon restarts. */
  datatype Stage = Held | Preparing(mutated: bool) | Ready | Up | Cleaning | BaseFailed | ContextFailed

  datatype Container = Container(id: ContainerId, running: bool)

  datatype State = State(
    busy: map<Pair, Stage>,
    prepared: set<Scope>,
    quarantined: set<Scope>,
    baseRunning: set<Scope>,
    baseStarts: set<Scope>,
    contexts: map<Pair, Container>,
    starts: set<ContainerId>,
    next: ContainerId)

  const Start := State(map[], {}, {}, {}, {}, map[], {}, 0)

  /** The scheduler's limits, and whether a base start may take effect after its command gave up. */
  datatype Config = Config(global: nat, perCaller: nat, lateBaseStart: bool)

  datatype Event =
    | Lease(p: Pair)
    | Reject(p: Pair)
    | BeginPrepare(p: Pair)
    | BaseStart(p: Pair)
    | BaseStartGivesUp(p: Pair)
    | BaseStartLands(s: Scope)
    | BaseExits(s: Scope)
    | PrepareRejected(p: Pair, doubt: bool)
    | BaseStopped(p: Pair, done: bool, doubt: bool)
    | BaseStopFails(p: Pair)
    | SkipPrepare(p: Pair)
    | HelperUnconfirmed(p: Pair)
    | ContextAppears(p: Pair)
    | ContextFound(p: Pair)
    | ContextStartSent(p: Pair)
    | ContextStartLands(id: ContainerId)
    | ContextExits(p: Pair)
    | BeginCleanup(p: Pair)
    | Removed(p: Pair)
    | RemoveFails(p: Pair)

  predicate At(s: State, p: Pair, stage: Stage) {
    p in s.busy && s.busy[p] == stage
  }

  predicate IsPreparing(s: State, p: Pair) {
    p in s.busy && s.busy[p].Preparing?
  }

  function InScope(ps: set<Pair>, scope: Scope): set<Pair> {
    set p | p in ps && p.scope == scope
  }

  /** The allocation tail: one preparation of a scope at a time. */
  predicate TailFree(s: State, scope: Scope) {
    forall p :: p in s.busy && p.scope == scope ==> !s.busy[p].Preparing?
  }

  predicate Possible(cfg: Config, s: State, e: Event) {
    match e
    case Lease(p) => p !in s.busy && |s.busy.Keys| < cfg.global && |InScope(s.busy.Keys, p.scope)| < cfg.perCaller
    case Reject(p) => At(s, p, Held)
    case BeginPrepare(p) =>
      At(s, p, Held) && TailFree(s, p.scope) && p.scope !in s.prepared && p.scope !in s.quarantined
    case BaseStart(p) => IsPreparing(s, p)
    case BaseStartGivesUp(p) => cfg.lateBaseStart && IsPreparing(s, p)
    case BaseStartLands(x) => x in s.baseStarts
    case BaseExits(x) => x in s.baseRunning
    case PrepareRejected(p, _) => At(s, p, Preparing(false))
    case BaseStopped(p, done, doubt) => IsPreparing(s, p) && !(done && doubt)
    case BaseStopFails(p) => IsPreparing(s, p)
    case SkipPrepare(p) => At(s, p, Held) && TailFree(s, p.scope) && p.scope in s.prepared && p.scope !in s.quarantined
    case HelperUnconfirmed(p) => At(s, p, Ready)
    case ContextAppears(p) => p !in s.contexts
    case ContextFound(p) => At(s, p, Ready) && p in s.contexts
    case ContextStartSent(p) => At(s, p, Up) && p in s.contexts
    case ContextStartLands(id) => id in s.starts
    case ContextExits(p) => p in s.contexts
    case BeginCleanup(p) => p in s.busy && s.busy[p] in {Held, Ready, Up}
    case Removed(p) => At(s, p, Cleaning)
    case RemoveFails(p) => At(s, p, Cleaning)
  }

  function Goto(s: State, p: Pair, stage: Stage): State {
    s.(busy := s.busy[p := stage])
  }

  function After(cfg: Config, s: State, e: Event): State
    requires Possible(cfg, s, e)
  {
    match e
    case Lease(p) => Goto(s, p, Held)
    case Reject(p) => s.(busy := s.busy - {p})
    case BeginPrepare(p) => Goto(s, p, Preparing(false))
    case BaseStart(p) => Goto(s, p, Preparing(true)).(baseRunning := s.baseRunning + {p.scope})
    case BaseStartGivesUp(p) => Goto(s, p, Preparing(true)).(baseStarts := s.baseStarts + {p.scope})
    case BaseStartLands(x) => s.(baseStarts := s.baseStarts - {x}, baseRunning := s.baseRunning + {x})
    case BaseExits(x) => s.(baseRunning := s.baseRunning - {x})
    // Resources or a reservation in doubt quarantine the scope, though nothing is left running.
    case PrepareRejected(p, doubt) =>
      Goto(s, p, Cleaning).(quarantined := if doubt then s.quarantined + {p.scope} else s.quarantined)
    case BaseStopped(p, done, doubt) =>
      Goto(s, p, if done then Ready else Cleaning)
        .(baseRunning := s.baseRunning - {p.scope}, prepared := if done then s.prepared + {p.scope} else s.prepared,
          quarantined := if doubt then s.quarantined + {p.scope} else s.quarantined)
    case BaseStopFails(p) => Goto(s, p, BaseFailed).(quarantined := s.quarantined + {p.scope})
    case SkipPrepare(p) => Goto(s, p, Ready)
    case HelperUnconfirmed(p) => Goto(s, p, ContextFailed).(quarantined := s.quarantined + {p.scope})
    // Created now, or long after its command gave up: stopped, under a new id.
    case ContextAppears(p) => s.(contexts := s.contexts[p := Container(s.next, false)], next := s.next + 1)
    case ContextFound(p) => Goto(s, p, Up)
    case ContextStartSent(p) => s.(starts := s.starts + {s.contexts[p].id})
    case ContextStartLands(id) =>
      s.(starts := s.starts - {id},
         contexts := map p | p in s.contexts ::
           if s.contexts[p].id == id then s.contexts[p].(running := true) else s.contexts[p])
    case ContextExits(p) => s.(contexts := s.contexts[p := s.contexts[p].(running := false)])
    case BeginCleanup(p) => Goto(s, p, Cleaning)
    case Removed(p) => s.(busy := s.busy - {p}, contexts := s.contexts - {p})
    case RemoveFails(p) => Goto(s, p, ContextFailed)
  }

  ghost predicate Runs(cfg: Config, s: State, es: seq<Event>, t: State)
    decreases |es|
  {
    if es == [] then t == s else Possible(cfg, s, es[0]) && Runs(cfg, After(cfg, s, es[0]), es[1..], t)
  }

  ghost predicate Reachable(cfg: Config, s: State) {
    exists es :: Runs(cfg, Start, es, s)
  }

  // ---------------------------------------------------------------- what holds a container

  predicate RunsContext(s: State, p: Pair) {
    p in s.contexts && s.contexts[p].running
  }

  /** The execution that answers for its scope's base container. */
  predicate HoldsBase(s: State, p: Pair) {
    p in s.busy && (s.busy[p] == Preparing(true) || s.busy[p] == BaseFailed)
  }

  /** Stages in which the execution's own container may run. */
  predicate HoldsContext(s: State, p: Pair) {
    p in s.busy && s.busy[p] in {Up, Cleaning, ContextFailed}
  }

  /** Every running container belongs to an execution whose lease is not released. */
  ghost predicate Attributed(s: State) {
    && (forall p :: RunsContext(s, p) ==> HoldsContext(s, p))
    && (forall x :: x in s.baseRunning ==> exists p :: HoldsBase(s, p) && p.scope == x)
  }

  ghost predicate IdsOk(s: State) {
    && (forall p :: p in s.contexts ==> s.contexts[p].id < s.next)
    && (forall i :: i in s.starts ==> i < s.next)
    && (forall p, q :: p in s.contexts && q in s.contexts && s.contexts[p].id == s.contexts[q].id ==> p == q)
  }

  /** A context start on its way can only hit a container whose execution is past its preparation. */
  ghost predicate StartsOk(s: State) {
    forall p :: p in s.contexts && s.contexts[p].id in s.starts ==> HoldsContext(s, p)
  }

  predicate AtBase(s: State, p: Pair) {
    p in s.busy && (s.busy[p].Preparing? || s.busy[p] == BaseFailed)
  }

  /** Each scope has at most one execution at its base container, none after one failed there. */
  ghost predicate BasesOk(s: State) {
    && (forall p, q :: AtBase(s, p) && AtBase(s, q) && p.scope == q.scope ==> p == q)
    && (forall p :: At(s, p, BaseFailed) ==> p.scope in s.quarantined)
    && s.baseStarts == {}
  }

  ghost predicate WithinLimits(cfg: Config, s: State) {
    && |s.busy.Keys| <= cfg.global
    && forall x :: |InScope(s.busy.Keys, x)| <= cfg.perCaller
  }

  ghost predicate Inv(cfg: Config, s: State) {
    Attributed(s) && IdsOk(s) && StartsOk(s) && BasesOk(s) && WithinLimits(cfg, s)
  }

  /** An execution whose container may run stays in such a stage, or its container is removed. */
  lemma StepKeepsHolder(cfg: Config, s: State, e: Event, p: Pair)
    requires Possible(cfg, s, e) && HoldsContext(s, p)
    ensures HoldsContext(After(cfg, s, e), p) || p !in After(cfg, s, e).contexts
  {}

  lemma StepKeepsIds(cfg: Config, s: State, e: Event)
    requires IdsOk(s) && Possible(cfg, s, e)
    ensures IdsOk(After(cfg, s, e))
  {
    hide InScope, TailFree;
  }

  lemma StepKeepsStarts(cfg: Config, s: State, e: Event, p: Pair)
    requires IdsOk(s) && StartsOk(s) && Possible(cfg, s, e)
    requires p in After(cfg, s, e).contexts && After(cfg, s, e).contexts[p].id in After(cfg, s, e).starts
    ensures HoldsContext(After(cfg, s, e), p)
  {
    hide InScope, TailFree;
    if e.ContextAppears? && e.p == p {
    } else if e.ContextStartSent? && s.contexts[p].id == s.contexts[e.p].id {
      assert p == e.p;
    } else {
      assert HoldsContext(s, p);
      StepKeepsHolder(cfg, s, e, p);
    }
  }

  lemma StepKeepsRunning(cfg: Config, s: State, e: Event, p: Pair)
    requires StartsOk(s) && Possible(cfg, s, e) && (RunsContext(s, p) ==> HoldsContext(s, p))
    requires RunsContext(After(cfg, s, e), p)
    ensures HoldsContext(After(cfg, s, e), p)
  {
    hide InScope, TailFree;
    assert HoldsContext(s, p);
    StepKeepsHolder(cfg, s, e, p);
  }

  lemma StepKeepsContexts(cfg: Config, s: State, e: Event)
    requires Inv(cfg, s) && Possible(cfg, s, e)
    ensures var t := After(cfg, s, e);
            IdsOk(t) && StartsOk(t) && forall p :: RunsContext(t, p) ==> HoldsContext(t, p)
  {
    hide BasesOk, WithinLimits, InScope, IdsOk, Possible, After, HoldsContext, RunsContext, HoldsBase;
    var t := After(cfg, s, e);
    StepKeepsIds(cfg, s, e);
    forall p | p in t.contexts && t.contexts[p].id in t.starts ensures HoldsContext(t, p) {
      StepKeepsStarts(cfg, s, e, p);
    }
    forall p | RunsContext(t, p) ensures HoldsContext(t, p) { StepKeepsRunning(cfg, s, e, p); }
  }

  lemma StepKeepsBases(cfg: Config, s: State, e: Event)
    requires Inv(cfg, s) && Possible(cfg, s, e) && !cfg.lateBaseStart
    ensures BasesOk(After(cfg, s, e))
  {
    hide IdsOk, StartsOk, WithinLimits, InScope, Attributed, RunsContext;
    var t := After(cfg, s, e);
    forall p, q | AtBase(t, p) && AtBase(t, q) && p.scope == q.scope ensures p == q {
      if e.BeginPrepare? {
        if p == e.p { FreeTailNoBase(s, p.scope); } else { assert AtBase(s, p); }
        if q == e.p { FreeTailNoBase(s, q.scope); } else { assert AtBase(s, q); }
      } else {
        assert AtBase(s, p) && AtBase(s, q);
      }
    }
  }

  lemma FreeTailNoBase(s: State, x: Scope)
    requires BasesOk(s) && TailFree(s, x) && x !in s.quarantined
    ensures forall p :: AtBase(s, p) ==> p.scope != x
  {
    forall p | AtBase(s, p) ensures p.scope != x { if s.busy[p] == BaseFailed { assert At(s, p, BaseFailed); } }
  }

  lemma StepKeepsBaseHolders(cfg: Config, s: State, e: Event, x: Scope)
    requires Inv(cfg, s) && Possible(cfg, s, e) && !cfg.lateBaseStart
    requires x in After(cfg, s, e).baseRunning
    ensures exists p :: HoldsBase(After(cfg, s, e), p) && p.scope == x
  {
    hide IdsOk, StartsOk, WithinLimits, InScope, TailFree, RunsContext, HoldsContext;
    var t := After(cfg, s, e);
    if e.BaseStart? && e.p.scope == x {
      assert HoldsBase(t, e.p);
    } else {
      assert x in s.baseRunning;
      var p :| HoldsBase(s, p) && p.scope == x;
      assert AtBase(s, p);
      if e.BaseStopped? { assert AtBase(s, e.p); }
      assert HoldsBase(t, p);
    }
  }

  /** The scheduler admits only what `Lease` allows: its occupied slots are the pairs with a lease. */
  lemma AdmissionIsLease(lim: Scheduler.Limits, st: Scheduler.State, scope: Scope)
    requires Scheduler.Core(lim, st) && st.running < lim.global && Scheduler.Eligible(lim, st, scope)
    ensures var ws := Scheduler.QueueOf(st.queues, scope);
            var p := Scheduler.Slot(scope, ws[Scheduler.FirstFree(ws, Scheduler.BusyOf(st.busy, scope))].context);
            && p !in st.busy && Scheduler.Admit(st, scope).busy.Keys == st.busy.Keys + {p}
            && |st.busy.Keys| < lim.global && |InScope(st.busy.Keys, scope)| < lim.perCaller
  {
    var ws := Scheduler.QueueOf(st.queues, scope);
    var c := ws[Scheduler.FirstFree(ws, Scheduler.BusyOf(st.busy, scope))].context;
    assert Scheduler.Slot(scope, c) in st.busy ==> c in Scheduler.BusyOf(st.busy, scope);
    var held := InScope(st.busy.Keys, scope);
    forall x ensures x in Scheduler.BusyOf(st.busy, scope) <==> Scheduler.Slot(scope, x) in held {}
    SchedulerFairness.SameSize(held, Scheduler.BusyOf(st.busy, scope), scope);
  }

  lemma LeasedPairs(cfg: Config, s: State, e: Event)
    requires Possible(cfg, s, e)
    ensures if e.Lease? then e.p !in s.busy && After(cfg, s, e).busy.Keys == s.busy.Keys + {e.p}
                               && |s.busy.Keys| < cfg.global && |InScope(s.busy.Keys, e.p.scope)| < cfg.perCaller
            else After(cfg, s, e).busy.Keys <= s.busy.Keys
  {}

  lemma StepKeepsLimits(cfg: Config, s: State, e: Event)
    requires WithinLimits(cfg, s) && Possible(cfg, s, e)
    ensures WithinLimits(cfg, After(cfg, s, e))
  {
    var t := After(cfg, s, e);
    hide TailFree;
    LeasedPairs(cfg, s, e);
    hide After, Possible;
    if e.Lease? {
      forall x ensures |InScope(t.busy.Keys, x)| <= cfg.perCaller {
        if x == e.p.scope { assert InScope(t.busy.Keys, x) == InScope(s.busy.Keys, x) + {e.p}; }
        else { assert InScope(t.busy.Keys, x) == InScope(s.busy.Keys, x); }
      }
    } else {
      SubsetSize(t.busy.Keys, s.busy.Keys);
      forall x ensures |InScope(t.busy.Keys, x)| <= cfg.perCaller {
        SubsetSize(InScope(t.busy.Keys, x), InScope(s.busy.Keys, x));
      }
    }
  }

  lemma StepKeepsInv(cfg: Config, s: State, e: Event)
    requires Inv(cfg, s) && Possible(cfg, s, e) && !cfg.lateBaseStart
    ensures Inv(cfg, After(cfg, s, e))
  {
    StepKeepsContexts(cfg, s, e);
    StepKeepsBases(cfg, s, e);
    StepKeepsLimits(cfg, s, e);
    forall x | x in After(cfg, s, e).baseRunning ensures exists p :: HoldsBase(After(cfg, s, e), p) && p.scope == x {
      StepKeepsBaseHolders(cfg, s, e, x);
    }
    hide IdsOk, StartsOk, BasesOk, WithinLimits, After, Possible, HoldsBase, HoldsContext, RunsContext;
  }

  lemma {:induction false} RunKeepsInv(cfg: Config, s: State, es: seq<Event>, t: State)
    requires Inv(cfg, s) && Runs(cfg, s, es, t) && !cfg.lateBaseStart
    ensures Inv(cfg, t)
    decreases |es|
  {
    hide Inv, Possible, After;
    if es != [] {
      StepKeepsInv(cfg, s, es[0]);
      RunKeepsInv(cfg, After(cfg, s, es[0]), es[1..], t);
    }
  }

  lemma StartInv(cfg: Config)
    ensures Inv(cfg, Start)
  {
    assert Start.busy.Keys == {};
    forall x ensures InScope(Start.busy.Keys, x) == {} {}
  }

  // ---------------------------------------------------------------- counting

  function RunningContexts(s: State): set<Pair> {
    set p | p in s.contexts && s.contexts[p].running
  }

  function BaseHolders(s: State): set<Pair> {
    set p | p in s.busy && (s.busy[p] == Preparing(true) || s.busy[p] == BaseFailed)
  }

  lemma {:induction false} ScopesOf(ps: set<Pair>, scopes: set<Scope>)
    requires forall x :: x in scopes ==> exists p :: p in ps && p.scope == x
    ensures |scopes| <= |ps|
    decreases |scopes|
  {
    if scopes != {} {
      var x :| x in scopes;
      var p :| p in ps && p.scope == x;
      forall y | y in scopes - {x} ensures exists q :: q in ps - {p} && q.scope == y {
        var q :| q in ps && q.scope == y;
        assert q in ps - {p};
      }
      ScopesOf(ps - {p}, scopes - {x});
    }
  }

  lemma DisjointSizes<T>(a: set<T>, b: set<T>, c: set<T>)
    requires a !! b && a <= c && b <= c
    ensures |a| + |b| <= |c|
  {
    assert |a + b| == |a| + |b|;
    SubsetSize(a + b, c);
  }

  /** Running containers, of executions and of scopes, never exceed the held slots: at most `global` overall. */
  lemma RunningWithinSlots(cfg: Config, s: State)
    requires Reachable(cfg, s) && !cfg.lateBaseStart
    ensures |RunningContexts(s)| + |s.baseRunning| <= |s.busy.Keys| <= cfg.global
    ensures forall x :: |InScope(RunningContexts(s), x)| + (if x in s.baseRunning then 1 else 0)
                        <= |InScope(s.busy.Keys, x)| <= cfg.perCaller
  {
    ReachableInv(cfg, s);
    forall p | p in RunningContexts(s) ensures p in s.busy && p !in BaseHolders(s) { assert RunsContext(s, p); }
    forall x | x in s.baseRunning ensures exists p :: p in BaseHolders(s) && p.scope == x {
      var p :| HoldsBase(s, p) && p.scope == x;
      assert p in BaseHolders(s);
    }
    ScopesOf(BaseHolders(s), s.baseRunning);
    DisjointSizes(RunningContexts(s), BaseHolders(s), s.busy.Keys);
    forall x
      ensures |InScope(RunningContexts(s), x)| + (if x in s.baseRunning then 1 else 0) <= |InScope(s.busy.Keys, x)|
    {
      if x in s.baseRunning {
        var p :| p in BaseHolders(s) && p.scope == x;
        DisjointSizes(InScope(RunningContexts(s), x), {p}, InScope(s.busy.Keys, x));
      } else {
        SubsetSize(InScope(RunningContexts(s), x), InScope(s.busy.Keys, x));
      }
    }
  }

  lemma ReachableInv(cfg: Config, s: State)
    requires Reachable(cfg, s) && !cfg.lateBaseStart
    ensures Inv(cfg, s)
  {
    var es :| Runs(cfg, Start, es, s);
    StartInv(cfg);
    RunKeepsInv(cfg, Start, es, s);
  }

  // ---------------------------------------------------------------- exactly when

  lemma {:induction false} RunsMore(cfg: Config, s: State, es: seq<Event>, t: State, e: Event)
    requires Runs(cfg, s, es, t) && Possible(cfg, t, e)
    ensures Runs(cfg, s, es + [e], After(cfg, t, e))
    decreases |es|
  {
    hide Possible, After;
    if es == [] {
      assert es + [e] == [e] && [e][1..] == [];
    } else {
      RunsMore(cfg, After(cfg, s, es[0]), es[1..], t, e);
      assert (es + [e])[1..] == es[1..] + [e];
    }
  }

  lemma Reach(cfg: Config, s: State, e: Event)
    requires Reachable(cfg, s) && Possible(cfg, s, e)
    ensures Reachable(cfg, After(cfg, s, e))
  {
    var es :| Runs(cfg, Start, es, s);
    RunsMore(cfg, Start, es, s, e);
  }

  lemma Initially(cfg: Config)
    ensures Reachable(cfg, Start)
  {
    assert Runs(cfg, Start, [], Start);
  }

  const P := Scheduler.Slot("s", "c")

  /** A preparation whose base start gave up and has not landed. */
  lemma ReachGivenUp(cfg: Config) returns (s: State)
    requires cfg.lateBaseStart && cfg.global > 0 && cfg.perCaller > 0
    ensures Reachable(cfg, s) && s.busy == map[P := Preparing(true)] && s.baseStarts == {"s"} && s.contexts == map[]
  {
    hide Reachable;
    Initially(cfg);
    assert Start.busy.Keys == {} && InScope(Start.busy.Keys, "s") == {};
    var s1 := After(cfg, Start, Lease(P));
    Reach(cfg, Start, Lease(P));
    var s2 := After(cfg, s1, BeginPrepare(P));
    Reach(cfg, s1, BeginPrepare(P));
    s := After(cfg, s2, BaseStartGivesUp(P));
    Reach(cfg, s2, BaseStartGivesUp(P));
  }

  /** A base start that lands after its scope was stopped runs without a lease. */
  lemma LateBaseStartEscapes(cfg: Config)
    requires cfg.lateBaseStart && cfg.global > 0 && cfg.perCaller > 0
    ensures exists s :: Reachable(cfg, s) && s.busy == map[] && s.baseRunning != {}
  {
    hide Reachable;
    var s3 := ReachGivenUp(cfg);
    var s4 := After(cfg, s3, BaseStopped(P, false, false));
    Reach(cfg, s3, BaseStopped(P, false, false));
    var s5 := After(cfg, s4, Removed(P));
    Reach(cfg, s4, Removed(P));
    assert s5.busy == map[];
    var s6 := After(cfg, s5, BaseStartLands("s"));
    Reach(cfg, s5, BaseStartLands("s"));
    assert "s" in s6.baseRunning;
  }

  /** Every running container belongs to a held slot, in every run, exactly when no base start is late. */
  lemma AttributedExactly(cfg: Config)
    requires cfg.global > 0 && cfg.perCaller > 0
    ensures (forall s :: Reachable(cfg, s) ==> Attributed(s)) <==> !cfg.lateBaseStart
  {
    if cfg.lateBaseStart {
      LateBaseStartEscapes(cfg);
      var s :| Reachable(cfg, s) && s.busy == map[] && s.baseRunning != {};
      assert !Attributed(s);
    } else {
      forall s | Reachable(cfg, s) ensures Attributed(s) { ReachableInv(cfg, s); }
    }
  }
}
