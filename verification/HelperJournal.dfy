/** The storage helper's journal for one scope, step by step. A Docker request may take effect long after the
    local command gave up; the process may die between any two steps. */
module HelperJournal {
  import opened Options

  type Name = string
  type Thread = nat

  /** Where an operation stands. `own` operations created the helper themselves and hold the `active` mark;
      the others are reconciliations. Every cleanup remembers the name it read from the journal row. */
  datatype Pc =
    | Journaled
    | CreateSent
    | Created
    | StartSent
    | Inspecting
    | Removing
    | Confirming
    | Clearing

  datatype Activity = Activity(name: Name, own: bool, pc: Pc)

  /** `row` is durable; `active` and `ops` are the process's. `containers` maps a helper's name to whether it
      runs; the last three are Docker requests that were sent and have not taken effect. Names are fresh. */
  datatype State = State(
    row: Option<Name>,
    active: bool,
    ops: map<Thread, Activity>,
    containers: map<Name, bool>,
    creating: set<Name>,
    starting: set<Name>,
    removing: set<Name>,
    used: set<Name>)

  const Start := State(None, false, map[], map[], {}, {}, {}, {})

  datatype Event =
    | Begin(t: Thread, name: Name)
    | SendCreate(t: Thread)
    | CreateLands(n: Name)
    | CreateReturns(t: Thread)
    | SendStart(t: Thread)
    | StartLands(n: Name)
    | Exits(n: Name)
    | Settle(t: Thread)
    | Reconcile(t: Thread)
    | FindMissing(t: Thread)
    | FindPresent(t: Thread)
    | RemoveLands(n: Name)
    | RemoveReturns(t: Thread)
    | ConfirmGone(t: Thread)
    | GiveUp(t: Thread)
    | Clear(t: Thread)
    | Crash

  /** Whether a scope's operations are serialized by their callers. */
  datatype Config = Config(serialized: bool)

  predicate At(s: State, t: Thread, pc: Pc) {
    t in s.ops && s.ops[t].pc == pc
  }

  predicate MayBegin(cfg: Config, s: State, t: Thread) {
    t !in s.ops && (cfg.serialized ==> s.ops == map[])
  }

  predicate Possible(cfg: Config, s: State, e: Event) {
    match e
    case Begin(t, n) => MayBegin(cfg, s, t) && s.row == None && !s.active && n !in s.used
    case SendCreate(t) => At(s, t, Journaled)
    case CreateLands(n) => n in s.creating
    case CreateReturns(t) => At(s, t, CreateSent) && s.ops[t].name !in s.creating
    case SendStart(t) => At(s, t, Created)
    case StartLands(n) => n in s.starting
    case Exits(n) => n in s.containers
    // The create or start command came back, failed, timed out or was aborted: clean up.
    case Settle(t) => t in s.ops && s.ops[t].own && s.ops[t].pc in {Journaled, CreateSent, Created, StartSent}
    case Reconcile(t) => MayBegin(cfg, s, t) && !s.active && s.row.Some?
    case FindMissing(t) => At(s, t, Inspecting) && s.ops[t].name !in s.containers
    case FindPresent(t) => At(s, t, Inspecting) && s.ops[t].name in s.containers
    case RemoveLands(n) => n in s.removing
    case RemoveReturns(t) => At(s, t, Removing) && s.ops[t].name !in s.removing
    case ConfirmGone(t) => At(s, t, Confirming) && s.ops[t].name !in s.containers
    // Termination is unconfirmed: the operation fails and the row stays.
    case GiveUp(t) => t in s.ops && s.ops[t].pc in {Inspecting, Removing, Confirming, Clearing}
    case Clear(t) => At(s, t, Clearing)
    case Crash => true
  }

  function Goto(s: State, t: Thread, pc: Pc): State
    requires t in s.ops
  {
    s.(ops := s.ops[t := s.ops[t].(pc := pc)])
  }

  function Finished(s: State, t: Thread): State
    requires t in s.ops
  {
    s.(ops := s.ops - {t}, active := if s.ops[t].own then false else s.active)
  }

  function After(cfg: Config, s: State, e: Event): State
    requires Possible(cfg, s, e)
  {
    match e
    case Begin(t, n) =>
      s.(active := true, row := Some(n), used := s.used + {n}, ops := s.ops[t := Activity(n, true, Journaled)])
    case SendCreate(t) => Goto(s, t, CreateSent).(creating := s.creating + {s.ops[t].name})
    case CreateLands(n) => s.(creating := s.creating - {n}, containers := s.containers[n := false])
    case CreateReturns(t) => Goto(s, t, Created)
    case SendStart(t) => Goto(s, t, StartSent).(starting := s.starting + {s.ops[t].name})
    case StartLands(n) =>
      s.(starting := s.starting - {n},
         containers := if n in s.containers then s.containers[n := true] else s.containers)
    case Exits(n) => s.(containers := s.containers[n := false])
    case Settle(t) => Goto(s, t, Inspecting)
    case Reconcile(t) => s.(ops := s.ops[t := Activity(s.row.value, false, Inspecting)])
    case FindMissing(t) => Goto(s, t, Clearing)
    case FindPresent(t) => Goto(s, t, Removing).(removing := s.removing + {s.ops[t].name})
    case RemoveLands(n) => s.(removing := s.removing - {n}, containers := s.containers - {n})
    case RemoveReturns(t) => Goto(s, t, Confirming)
    case ConfirmGone(t) => Goto(s, t, Clearing)
    case GiveUp(t) => Finished(s, t)
    case Clear(t) => Finished(s, t).(row := None)
    case Crash => s.(ops := map[], active := false)
  }

  /** What the rest of the machine does by itself: requests take effect, helpers exit. Nothing happens out of turn. */
  function Lands(cfg: Config, s: State, e: Event): State {
    if (e.CreateLands? || e.StartLands? || e.RemoveLands? || e.Exits?) && Possible(cfg, s, e) then After(cfg, s, e)
    else s
  }

  function LandAll(cfg: Config, s: State, es: seq<Event>): State {
    if es == [] then s else Lands(cfg, LandAll(cfg, s, es[..|es|-1]), es[|es|-1])
  }

  ghost predicate Runs(cfg: Config, s: State, es: seq<Event>, t: State)
    decreases |es|
  {
    if es == [] then t == s else Possible(cfg, s, es[0]) && Runs(cfg, After(cfg, s, es[0]), es[1..], t)
  }

  predicate Running(s: State, n: Name) {
    n in s.containers && s.containers[n]
  }

  /** What the journal promises: a running helper is the one the row names. Hence at most one runs. */
  ghost predicate Journaling(s: State) {
    forall n :: Running(s, n) ==> s.row == Some(n)
  }

  // ---------------------------------------------------------------- the invariant of serialized operations

  /** A start that is still on its way can only hit the container the row names. */
  ghost predicate StartsOk(s: State) {
    forall n :: n in s.starting ==> n !in s.creating && (n in s.containers ==> s.row == Some(n))
  }

  ghost predicate NamesOk(s: State) {
    && s.containers.Keys <= s.used && s.creating <= s.used && s.starting <= s.used
    && (s.row.Some? ==> s.row.value in s.used)
    && s.containers.Keys !! s.creating
  }

  /** What is known of an operation's helper at each of its steps. */
  ghost predicate OpOk(s: State, a: Activity) {
    && s.row == Some(a.name)
    && (a.own ==> s.active)
    && (!a.own ==> a.pc in {Inspecting, Removing, Confirming, Clearing})
    && (a.pc == Journaled ==> a.name !in s.containers && a.name !in s.creating && a.name !in s.starting)
    && (a.pc == CreateSent ==> a.name !in s.starting)
    && (a.pc == Created ==> a.name !in s.creating)
    && (a.pc == Clearing ==> !Running(s, a.name) && !(a.name in s.containers && a.name in s.starting))
  }

  ghost predicate Inv(s: State) {
    && Journaling(s) && StartsOk(s) && NamesOk(s)
    && (forall t, u :: t in s.ops && u in s.ops ==> t == u)
    && (forall t :: t in s.ops ==> OpOk(s, s.ops[t]))
    && (s.active ==> exists t :: t in s.ops && s.ops[t].own)
  }

  lemma StepKeepsRequests(cfg: Config, s: State, e: Event)
    requires cfg.serialized && Inv(s) && Possible(cfg, s, e)
    ensures var u := After(cfg, s, e); Journaling(u) && StartsOk(u) && NamesOk(u)
  {}

  lemma StepKeepsOps(cfg: Config, s: State, e: Event)
    requires cfg.serialized && Inv(s) && Possible(cfg, s, e)
    ensures var u := After(cfg, s, e);
            && (forall t, v :: t in u.ops && v in u.ops ==> t == v)
            && (forall t :: t in u.ops ==> OpOk(u, u.ops[t]))
  {}

  lemma StepKeepsMark(cfg: Config, s: State, e: Event)
    requires cfg.serialized && Inv(s) && Possible(cfg, s, e)
    ensures var u := After(cfg, s, e); u.active ==> exists t :: t in u.ops && u.ops[t].own
  {
    hide Journaling, StartsOk, NamesOk, OpOk;
    var u := After(cfg, s, e);
    if s.active && e != Crash {
      var t :| t in s.ops && s.ops[t].own;
      assert t in u.ops ==> u.ops[t].own;
    }
    if e.Begin? { assert e.t in u.ops && u.ops[e.t].own; }
  }

  lemma StepKeepsInv(cfg: Config, s: State, e: Event)
    requires cfg.serialized && Inv(s) && Possible(cfg, s, e)
    ensures Inv(After(cfg, s, e))
  {
    hide Journaling, StartsOk, NamesOk, OpOk, Possible, After;
    StepKeepsRequests(cfg, s, e);
    StepKeepsOps(cfg, s, e);
    StepKeepsMark(cfg, s, e);
  }

  lemma {:induction false} RunKeepsInv(cfg: Config, s: State, es: seq<Event>, t: State)
    requires cfg.serialized && Inv(s) && Runs(cfg, s, es, t)
    ensures Inv(t)
    decreases |es|
  {
    hide Inv, Possible, After;
    if es != [] {
      StepKeepsInv(cfg, s, es[0]);
      RunKeepsInv(cfg, After(cfg, s, es[0]), es[1..], t);
    }
  }

  /** A name that was used and is not in the row never returns to it. */
  lemma {:induction false} NeverNamedAgain(cfg: Config, s: State, es: seq<Event>, t: State, n: Name)
    requires n in s.used && s.row != Some(n) && Runs(cfg, s, es, t)
    ensures t.row != Some(n)
    decreases |es|
  {
    if es != [] { NeverNamedAgain(cfg, After(cfg, s, es[0]), es[1..], t, n); }
  }

  /** The row is cleared only when the helper it named cannot run again: however many requests land late,
      processes die and helpers are created afterwards, it never does. */
  lemma ClearedNeverRuns(cfg: Config, s: State, t: Thread, es: seq<Event>, u: State)
    requires cfg.serialized && Inv(s) && Possible(cfg, s, Clear(t)) && Runs(cfg, After(cfg, s, Clear(t)), es, u)
    ensures !Running(u, s.ops[t].name)
  {
    var c := After(cfg, s, Clear(t));
    StepKeepsInv(cfg, s, Clear(t));
    RunKeepsInv(cfg, c, es, u);
    NeverNamedAgain(cfg, c, es, u, s.ops[t].name);
  }

  // ---------------------------------------------------------------- serialization is needed

  ghost predicate Reachable(cfg: Config, s: State) {
    exists es :: Runs(cfg, Start, es, s)
  }

  lemma {:induction false} RunsMore(cfg: Config, s: State, es: seq<Event>, t: State, e: Event)
    requires Runs(cfg, s, es, t) && Possible(cfg, t, e)
    ensures Runs(cfg, s, es + [e], After(cfg, t, e))
    decreases |es|
  {
    hide Possible, After;
    if es == [] {
      assert es + [e] == [e] && [e][1..] == [];
    } else {
      RunsMore(cfg, After(cfg, s, es[0]), es[1..], t, e);
      assert (es + [e])[1..] == es[1..] + [e];
    }
  }

  lemma Reach(cfg: Config, s: State, e: Event)
    requires Reachable(cfg, s) && Possible(cfg, s, e)
    ensures Reachable(cfg, After(cfg, s, e))
  {
    var es :| Runs(cfg, Start, es, s);
    RunsMore(cfg, Start, es, s, e);
  }

  /** An interrupted helper `a` being reconciled twice at once. */
  lemma ReachTwoReconciles(cfg: Config) returns (s: State)
    requires !cfg.serialized
    ensures Reachable(cfg, s)
    ensures s == State(Some("a"), false,
            map[0 := Activity("a", false, Inspecting), 1 := Activity("a", false, Inspecting)],
                       map[], {}, {}, {}, {"a"})
  {
    hide Reachable;
    Initially(cfg);
    var s1 := After(cfg, Start, Begin(0, "a"));
    Reach(cfg, Start, Begin(0, "a"));
    var s2 := After(cfg, s1, Crash);
    Reach(cfg, s1, Crash);
    var s3 := After(cfg, s2, Reconcile(0));
    Reach(cfg, s2, Reconcile(0));
    s := After(cfg, s3, Reconcile(1));
    Reach(cfg, s3, Reconcile(1));
  }

  /** Both find it missing and one has cleared the row: the other is about to. */
  lemma ReachLateClear(cfg: Config) returns (s: State)
    requires !cfg.serialized
    ensures Reachable(cfg, s)
    ensures s == State(None, false, map[1 := Activity("a", false, Clearing)], map[], {}, {}, {}, {"a"})
  {
    hide Reachable;
    var s4 := ReachTwoReconciles(cfg);
    var s5 := After(cfg, s4, FindMissing(0));
    Reach(cfg, s4, FindMissing(0));
    var s6 := After(cfg, s5, FindMissing(1));
    Reach(cfg, s5, FindMissing(1));
    s := After(cfg, s6, Clear(0));
    Reach(cfg, s6, Clear(0));
    assert s.ops == map[1 := Activity("a", false, Clearing)];
  }

  lemma Initially(cfg: Config)
    ensures Reachable(cfg, Start)
  {
    assert Runs(cfg, Start, [], Start);
  }

  /** Without serialization a stale reconciliation can clear the row of the next helper while that one runs. */
  lemma OverlapBreaksJournal(cfg: Config)
    requires !cfg.serialized
    ensures exists s :: Reachable(cfg, s) && !Journaling(s)
  {
    hide Reachable;
    var s := ReachLateClear(cfg);
    var s1 := After(cfg, s, Begin(0, "b"));
    Reach(cfg, s, Begin(0, "b"));
    var s2 := After(cfg, s1, SendCreate(0));
    Reach(cfg, s1, SendCreate(0));
    var s3 := After(cfg, s2, CreateLands("b"));
    Reach(cfg, s2, CreateLands("b"));
    var s4 := After(cfg, s3, CreateReturns(0));
    Reach(cfg, s3, CreateReturns(0));
    var s5 := After(cfg, s4, SendStart(0));
    Reach(cfg, s4, SendStart(0));
    var s6 := After(cfg, s5, StartLands("b"));
    Reach(cfg, s5, StartLands("b"));
    var s7 := After(cfg, s6, Clear(1));
    Reach(cfg, s6, Clear(1));
    assert Running(s7, "b") && s7.row == None;
  }

  /** The journal holds in every run exactly when each scope's operations are serialized. */
  lemma JournalingExactly(cfg: Config)
    ensures (forall s :: Reachable(cfg, s) ==> Journaling(s)) <==> cfg.serialized
  {
    if cfg.serialized {
      forall s | Reachable(cfg, s) ensures Journaling(s) {
        var es :| Runs(cfg, Start, es, s);
        RunKeepsInv(cfg, Start, es, s);
      }
    } else {
      OverlapBreaksJournal(cfg);
    }
  }

  /** At most one helper of a scope runs, and it is the one the journal names. */
  lemma OneHelper(cfg: Config, s: State, m: Name, n: Name)
    requires cfg.serialized && Reachable(cfg, s) && Running(s, m) && Running(s, n)
    ensures m == n && s.row == Some(n)
  {
    JournalingExactly(cfg);
  }

  // ---------------------------------------------------------------- an operation can end

  /** The events of a cleanup that finds its helper. */
  function RemovalEvents(t: Thread, n: Name): seq<Event> {
    [FindPresent(t), RemoveLands(n), RemoveReturns(t), ConfirmGone(t), Clear(t)]
  }

  /** A cleanup that finds the helper and whose removal takes effect clears the row, and nothing else is in its way. */
  lemma CleanupCanFinish(cfg: Config, s: State, t: Thread)
    requires At(s, t, Inspecting) && s.ops[t].name in s.containers
    ensures exists u :: Runs(cfg, s, RemovalEvents(t, s.ops[t].name), u) && u.row == None
                        && s.ops[t].name !in u.containers
                        && t !in u.ops && (s.ops[t].own ==> !u.active)
  {
    var n := s.ops[t].name;
    var a := After(cfg, s, FindPresent(t));
    var b := After(cfg, a, RemoveLands(n));
    var c := After(cfg, b, RemoveReturns(t));
    var d := After(cfg, c, ConfirmGone(t));
    var e := After(cfg, d, Clear(t));
    RunOfFive(cfg, s, a, b, c, d, e, FindPresent(t), RemoveLands(n), RemoveReturns(t), ConfirmGone(t), Clear(t));
  }

  lemma RunOfFive(cfg: Config, s: State, a: State, b: State, c: State, d: State, u: State,
               e: Event, f: Event, g: Event, h: Event, i: Event)
    requires Possible(cfg, s, e) && a == After(cfg, s, e) && Possible(cfg, a, f) && b == After(cfg, a, f)
    requires Possible(cfg, b, g) && c == After(cfg, b, g) && Possible(cfg, c, h) && d == After(cfg, c, h)
    requires Possible(cfg, d, i) && u == After(cfg, d, i)
    ensures Runs(cfg, s, [e, f, g, h, i], u)
  {
    hide Possible, After;
    assert Runs(cfg, u, [], u);
    assert [i][1..] == [] && Runs(cfg, d, [i], u);
    assert [h, i][1..] == [i] && Runs(cfg, c, [h, i], u);
    assert [g, h, i][1..] == [h, i] && Runs(cfg, b, [g, h, i], u);
    assert [f, g, h, i][1..] == [g, h, i] && Runs(cfg, a, [f, g, h, i], u);
    assert [e, f, g, h, i][1..] == [f, g, h, i];
  }

  // ---------------------------------------------------------------- who may go on

  ghost predicate CanReach(cfg: Config, s: State, t: Thread, pc: Pc) {
    exists e :: Possible(cfg, s, e) && At(After(cfg, s, e), t, pc)
  }

  /** The stage an operation may reach in one step: a removal only of a helper that was found, a confirmation only once
      the removal took effect, and clearing only with the helper gone. */
  predicate MayReach(s: State, t: Thread, pc: Pc)
    requires t in s.ops
  {
    var name, now := s.ops[t].name, s.ops[t].pc;
    match pc
    case Journaled => false
    case CreateSent => now == Journaled
    case Created => now == CreateSent && name !in s.creating
    case StartSent => now == Created
    case Inspecting => s.ops[t].own && (now == Journaled || now == CreateSent || now == Created || now == StartSent)
    case Removing => now == Inspecting && name in s.containers
    case Confirming => now == Removing && name !in s.removing
    case Clearing => (now == Inspecting || now == Confirming) && name !in s.containers
  }

  function WayTo(s: State, t: Thread, pc: Pc): Event
    requires t in s.ops && MayReach(s, t, pc)
  {
    match pc
    case CreateSent => SendCreate(t)
    case Created => CreateReturns(t)
    case StartSent => SendStart(t)
    case Inspecting => Settle(t)
    case Removing => FindPresent(t)
    case Confirming => RemoveReturns(t)
    case Clearing => if s.ops[t].pc == Inspecting then FindMissing(t) else ConfirmGone(t)
  }

  lemma OnlyReaches(cfg: Config, s: State, e: Event, t: Thread, pc: Pc)
    requires t in s.ops && s.ops[t].pc != pc && Possible(cfg, s, e) && At(After(cfg, s, e), t, pc)
    ensures MayReach(s, t, pc)
  {}

  lemma Reaches(cfg: Config, s: State, t: Thread, pc: Pc)
    requires t in s.ops && MayReach(s, t, pc)
    ensures Possible(cfg, s, WayTo(s, t, pc)) && At(After(cfg, s, WayTo(s, t, pc)), t, pc)
  {}

  /** An operation reaches another stage in one step exactly as it may. */
  lemma MovesExactly(cfg: Config, s: State, t: Thread, pc: Pc)
    requires t in s.ops && s.ops[t].pc != pc
    ensures CanReach(cfg, s, t, pc) <==> MayReach(s, t, pc)
  {
    hide Possible, After, MayReach, At, WayTo;
    if e :| Possible(cfg, s, e) && At(After(cfg, s, e), t, pc) { OnlyReaches(cfg, s, e, t, pc); }
    if MayReach(s, t, pc) { Reaches(cfg, s, t, pc); }
  }

  ghost predicate CanBegin(cfg: Config, s: State, t: Thread, a: Activity) {
    exists e :: Possible(cfg, s, e) && t in After(cfg, s, e).ops && After(cfg, s, e).ops[t] == a
  }

  /** An operation of its own begins exactly with a fresh name, no row and no mark; a reconciliation exactly with the
      row's name and no mark; both only in turn if operations are serialized. */
  lemma BeginsExactly(cfg: Config, s: State, t: Thread, a: Activity)
    requires t !in s.ops
    ensures CanBegin(cfg, s, t, a) <==>
              && !s.active && (cfg.serialized ==> s.ops == map[])
              && if a.own then a.pc == Journaled && s.row == None && a.name !in s.used
                 else a.pc == Inspecting && s.row == Some(a.name)
  {
    if !s.active && (cfg.serialized ==> s.ops == map[]) {
      if a.own && a.pc == Journaled && s.row == None && a.name !in s.used {
        assert Possible(cfg, s, Begin(t, a.name)) && After(cfg, s, Begin(t, a.name)).ops[t] == a;
      } else if !a.own && a.pc == Inspecting && s.row == Some(a.name) {
        assert Possible(cfg, s, Reconcile(t)) && After(cfg, s, Reconcile(t)).ops[t] == a;
      }
    }
  }

  /** What a step does to the row, the mark and the containers. */
  lemma EffectsExactly(cfg: Config, s: State, e: Event, n: Name)
    requires Possible(cfg, s, e)
    ensures var u := After(cfg, s, e);
            && u.row == (if e.Begin? then Some(e.name) else if e.Clear? then None else s.row)
            && (u.active <==> e.Begin? || (s.active && !e.Crash? && !((e.GiveUp? || e.Clear?) && s.ops[e.t].own)))
            && (n in u.containers <==>
                (n in s.containers && !(e.RemoveLands? && e.n == n)) || (e.CreateLands? && e.n == n))
            && (n in u.containers && u.containers[n] <==>
                || (n in s.containers && s.containers[n]
                    && !((e.RemoveLands? || e.CreateLands? || e.Exits?) && e.n == n))
                || (e.StartLands? && e.n == n && n in s.containers))
  {}
}
