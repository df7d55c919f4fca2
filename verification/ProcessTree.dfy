/** Ending an execution's process tree: the parent-chain closure of a `/proc` snapshot, and why reading the
    supervisor's child list before the reaper's, and finding both empty, means that nothing is left. */
module ProcessTree {
  import opened Sets

  type Pid = nat

  /** One row of a `/proc` snapshot. */
  datatype Row = Row(pid: Pid, parent: Pid, zombie: bool)

  // ---------------------------------------------------------------- the snapshot

  /** The rows lead from `p` to `root` in `n` parent steps. */
  ghost predicate Chain(rows: seq<Row>, root: Pid, p: Pid, n: nat)
    decreases n
  {
    if n == 0 then p == root else exists r :: r in rows && r.pid == p && Chain(rows, root, r.parent, n - 1)
  }

  ghost predicate Owned(rows: seq<Row>, root: Pid, p: Pid) {
    exists n :: Chain(rows, root, p, n)
  }

  function Pids(rows: seq<Row>): set<Pid> {
    set r | r in rows :: r.pid
  }

  lemma ChainGrows(rows: seq<Row>, root: Pid, r: Row)
    requires r in rows && Owned(rows, root, r.parent)
    ensures Owned(rows, root, r.pid)
  {
    var n: nat :| Chain(rows, root, r.parent, n);
    assert Chain(rows, root, r.pid, n + 1);
  }

  /** A set that is closed under the rows and holds the root holds every process whose chain reaches it. */
  lemma {:induction false} ClosedHoldsChains(rows: seq<Row>, root: Pid, owned: set<Pid>, p: Pid, n: nat)
    requires root in owned && forall r :: r in rows && r.parent in owned ==> r.pid in owned
    requires Chain(rows, root, p, n)
    ensures p in owned
    decreases n
  {
    if n > 0 {
      var r :| r in rows && r.pid == p && Chain(rows, root, r.parent, n - 1);
      ClosedHoldsChains(rows, root, owned, r.parent, n - 1);
    }
  }

  ghost predicate Target(rows: seq<Row>, self: Pid, reaper: Pid, r: Row) {
    Owned(rows, reaper, r.pid) && r.pid != self && r.pid != reaper && !r.zombie
  }

  /** Those of the listed rows that are targets in the snapshot, in the order of the list. */
  ghost function Targets(listed: seq<Row>, rows: seq<Row>, self: Pid, reaper: Pid): seq<Row> {
    if listed == [] then []
    else
      var last := listed[|listed|-1];
      Targets(listed[..|listed|-1], rows, self, reaper) + (if Target(rows, self, reaper, last) then [last] else [])
  }

  /** Add to `owned` the processes of the rows whose parents it holds, once through. */
  method Sweep(rows: seq<Row>, reaper: Pid, owned: set<Pid>) returns (grown: set<Pid>)
    requires reaper in owned && (forall p :: p in owned ==> Owned(rows, reaper, p)) && owned <= Pids(rows) + {reaper}
    ensures owned <= grown <= Pids(rows) + {reaper}
    ensures forall p :: p in grown ==> Owned(rows, reaper, p)
    ensures grown == owned ==> forall r :: r in rows && r.parent in owned ==> r.pid in owned
  {
    hide Owned;
    grown := owned;
    for i := 0 to |rows|
      invariant owned <= grown <= Pids(rows) + {reaper}
      invariant forall p :: p in grown ==> Owned(rows, reaper, p)
      invariant grown == owned ==> forall k :: 0 <= k < i && rows[k].parent in owned ==> rows[k].pid in owned
    {
      if rows[i].parent in grown && rows[i].pid !in grown {
        ChainGrows(rows, reaper, rows[i]);
        grown := grown + {rows[i].pid};
      }
    }
  }

  lemma {:induction false} InTargets(listed: seq<Row>, rows: seq<Row>, self: Pid, reaper: Pid, r: Row)
    ensures r in Targets(listed, rows, self, reaper) <==> r in listed && Target(rows, self, reaper, r)
  {
    hide Target;
    if listed != [] {
      var rest, last := listed[..|listed|-1], listed[|listed|-1];
      InTargets(rest, rows, self, reaper, r);
      assert listed == rest + [last];
    }
  }

  /** Sweep until nothing is added. The sweeps end, whatever the snapshot says. */
  method OwnedPids(rows: seq<Row>, reaper: Pid) returns (owned: set<Pid>)
    ensures forall p :: p in owned <==> Owned(rows, reaper, p)
  {
    var changed := true;
    owned := {reaper};
    hide Owned;
    assert Owned(rows, reaper, reaper) by { OwnsItself(rows, reaper); }
    while changed
      invariant reaper in owned && owned <= Pids(rows) + {reaper}
      invariant forall p :: p in owned ==> Owned(rows, reaper, p)
      invariant !changed ==> forall r :: r in rows && r.parent in owned ==> r.pid in owned
      decreases |Pids(rows) + {reaper} - owned|, changed
    {
      var grown := Sweep(rows, reaper, owned);
      changed := grown != owned;
      if changed {
        assert Pids(rows) + {reaper} - grown < Pids(rows) + {reaper} - owned;
        ProperSubsetSize(Pids(rows) + {reaper} - grown, Pids(rows) + {reaper} - owned);
      }
      owned := grown;
    }
    forall p | Owned(rows, reaper, p) ensures p in owned { ClosedHoldsOwned(rows, reaper, owned, p); }
  }

  lemma OwnsItself(rows: seq<Row>, root: Pid)
    ensures Owned(rows, root, root)
  {
    assert Chain(rows, root, root, 0);
  }

  lemma ClosedHoldsOwned(rows: seq<Row>, root: Pid, owned: set<Pid>, p: Pid)
    requires root in owned && forall r :: r in rows && r.parent in owned ==> r.pid in owned
    requires Owned(rows, root, p)
    ensures p in owned
  {
    var n: nat :| Chain(rows, root, p, n);
    ClosedHoldsChains(rows, root, owned, p, n);
  }

  /** Every process whose parent chain reaches the reaper, in snapshot order: not the supervisor, not the
      reaper, no zombie. */
  method Descendants(rows: seq<Row>, self: Pid, reaper: Pid) returns (targets: seq<Row>)
    ensures forall r :: r in targets <==> r in rows && Target(rows, self, reaper, r)
    ensures targets == Targets(rows, rows, self, reaper)
  {
    hide Owned;
    var owned := OwnedPids(rows, reaper);
    targets := [];
    for i := 0 to |rows|
      invariant targets == Targets(rows[..i], rows, self, reaper)
    {
      assert rows[..i+1][..i] == rows[..i];
      if rows[i].pid in owned && rows[i].pid != self && rows[i].pid != reaper && !rows[i].zombie {
        targets := targets + [rows[i]];
      }
    }
    assert rows[..|rows|] == rows;
    forall r ensures r in targets <==> r in rows && Target(rows, self, reaper, r) {
      InTargets(rows, rows, self, reaper, r);
    }
  }

  // ---------------------------------------------------------------- processes as they run

  datatype Proc = Proc(parent: Pid, zombie: bool)

  /** The machine's processes, with the supervisor and its reaper, a subreaper that is its parent. */
  datatype Machine = Machine(procs: map<Pid, Proc>, self: Pid, reaper: Pid)

  datatype Event =
    | Fork(parent: Pid, child: Pid)
    | Exit(p: Pid, adopter: Pid)
    | Reap(p: Pid)

  predicate Live(m: Machine, p: Pid) {
    p in m.procs && !m.procs[p].zombie
  }

  /** `q` is `n` parent steps above `p`. */
  ghost predicate Above(m: Machine, p: Pid, q: Pid, n: nat)
    decreases n
  {
    if n == 0 then p == q else p in m.procs && Above(m, m.procs[p].parent, q, n - 1)
  }

  /** What may happen between two reads: any process but the supervisor and its reaper forks or exits; the
      children of one that exits go to a live ancestor that adopts, which the supervisor never does; a zombie is
      reaped and its number may be used again. */
  ghost predicate Possible(m: Machine, e: Event) {
    match e
    case Fork(p, c) => Live(m, p) && p != m.self && p != m.reaper && c !in m.procs
    case Exit(p, q) =>
      && Live(m, p) && p != m.self && p != m.reaper
      && q != m.self && q != p && (exists n :: n > 0 && Above(m, p, q, n))
    case Reap(p) => p in m.procs && m.procs[p].zombie && p != m.self && p != m.reaper
  }

  function After(m: Machine, e: Event): Machine {
    match e
    case Fork(p, c) => m.(procs := m.procs[c := Proc(p, false)])
    case Exit(p, q) =>
      m.(procs := map x | x in m.procs ::
           if x == p then Proc(m.procs[p].parent, true)
           else if m.procs[x].parent == p then Proc(q, m.procs[x].zombie)
           else m.procs[x])
    case Reap(p) => m.(procs := m.procs - {p})
  }

  /** What each step does to the living and their parents. A fork adds one living child of the process that forked; an
      exit leaves a zombie and hands all its children to the adopter; a reap only removes; nothing else changes. */
  lemma StepExactly(m: Machine, e: Event, x: Pid)
    requires Possible(m, e)
    ensures Live(After(m, e), x) <==> (Live(m, x) && !(e.Exit? && e.p == x)) || (e.Fork? && e.child == x)
    ensures x in After(m, e).procs <==> (x in m.procs && !(e.Reap? && e.p == x)) || (e.Fork? && e.child == x)
    ensures x in After(m, e).procs ==>
              After(m, e).procs[x].parent == (if e.Fork? && e.child == x then e.parent
                                              else if e.Exit? && m.procs[x].parent == e.p && x != e.p then e.adopter
                                              else m.procs[x].parent)
    ensures After(m, e).self == m.self && After(m, e).reaper == m.reaper
    ensures WellFormed(m) ==> Live(After(m, e), m.self) && Live(After(m, e), m.reaper)
  {}

  ghost predicate Runs(m: Machine, es: seq<Event>, t: Machine)
    decreases |es|
  {
    if es == [] then t == m else Possible(m, es[0]) && Runs(After(m, es[0]), es[1..], t)
  }

  /** `/proc/<p>/task/<p>/children`, zombies included. */
  function Children(m: Machine, p: Pid): set<Pid> {
    set c | c in m.procs && m.procs[c].parent == p
  }

  /** Whether the child list of `p` names anything but the supervisor. */
  predicate HasRoots(m: Machine, p: Pid) {
    Children(m, p) - {m.self} != {}
  }

  ghost predicate Descendant(m: Machine, p: Pid) {
    p in m.procs && p != m.self && exists n :: n > 0 && Above(m, p, m.reaper, n)
  }

  /** The supervisor is the reaper's child, never its own parent. */
  predicate WellFormed(m: Machine) {
    && m.self != m.reaper && m.self in m.procs && m.reaper in m.procs
    && m.procs[m.self] == Proc(m.reaper, false) && !m.procs[m.reaper].zombie
  }

  predicate SelfChildless(m: Machine) {
    forall c :: c in m.procs ==> m.procs[c].parent != m.self
  }

  predicate ReaperChildless(m: Machine) {
    forall c :: c in m.procs && m.procs[c].parent == m.reaper ==> c == m.self
  }

  /** Nobody forks from the supervisor or is handed to it: once childless, it stays so. */
  lemma StepKeepsSelfChildless(m: Machine, e: Event)
    requires WellFormed(m) && SelfChildless(m) && Possible(m, e)
    ensures WellFormed(After(m, e)) && SelfChildless(After(m, e))
    ensures After(m, e).self == m.self && After(m, e).reaper == m.reaper
  {}

  /** With both lists empty there is no chain to the reaper but the supervisor's. */
  lemma {:induction false} NoChain(m: Machine, p: Pid, n: nat)
    requires WellFormed(m) && SelfChildless(m) && ReaperChildless(m)
    requires n > 0 && Above(m, p, m.reaper, n)
    ensures p == m.self
    decreases n
  {
    if n > 1 { NoChain(m, m.procs[p].parent, n - 1); }
  }

  lemma StepKeepsEmpty(m: Machine, e: Event)
    requires WellFormed(m) && SelfChildless(m) && ReaperChildless(m) && Possible(m, e)
    ensures ReaperChildless(After(m, e))
  {
    if e.Exit? && e.adopter == m.reaper {
      var n :| n > 0 && Above(m, e.p, e.adopter, n);
      NoChain(m, e.p, n);
    }
  }

  lemma {:induction false} RunKeepsSelfChildless(m: Machine, es: seq<Event>, t: Machine)
    requires WellFormed(m) && SelfChildless(m) && Runs(m, es, t)
    ensures WellFormed(t) && SelfChildless(t) && t.self == m.self && t.reaper == m.reaper
    decreases |es|
  {
    hide Possible, After;
    if es != [] {
      StepKeepsSelfChildless(m, es[0]);
      RunKeepsSelfChildless(After(m, es[0]), es[1..], t);
    }
  }

  lemma {:induction false} RunKeepsEmpty(m: Machine, es: seq<Event>, t: Machine)
    requires WellFormed(m) && SelfChildless(m) && ReaperChildless(m) && Runs(m, es, t)
    ensures WellFormed(t) && SelfChildless(t) && ReaperChildless(t)
    decreases |es|
  {
    hide Possible, After;
    if es != [] {
      StepKeepsSelfChildless(m, es[0]);
      StepKeepsEmpty(m, es[0]);
      RunKeepsEmpty(After(m, es[0]), es[1..], t);
    }
  }

  lemma OnlySupervisor(m: Machine, p: Pid)
    requires !HasRoots(m, p)
    ensures forall c :: c in m.procs && m.procs[c].parent == p ==> c == m.self
  {
    forall c | c in m.procs && m.procs[c].parent == p ensures c == m.self {
      assert c in Children(m, p) && Children(m, p) <= {m.self};
    }
  }

  /** The check at the end of `shutdown` is sound: when the supervisor's list was empty and then, any number of
      forks, exits and adoptions later, the reaper's list names only the supervisor, no descendant is left at
      that moment or at any later one. */
  lemma EmptyReadsAreSound(m: Machine, between: seq<Event>, n: Machine, later: seq<Event>, t: Machine)
    requires WellFormed(m) && !HasRoots(m, m.self)
    requires Runs(m, between, n) && !HasRoots(n, n.reaper)
    requires Runs(n, later, t)
    ensures forall p :: !Descendant(t, p)
    ensures Children(t, t.self) == {} && Children(t, t.reaper) == {t.self}
  {
    OnlySupervisor(m, m.self);
    RunKeepsSelfChildless(m, between, n);
    OnlySupervisor(n, n.reaper);
    RunKeepsEmpty(n, later, t);
    forall p ensures !Descendant(t, p) {
      if Descendant(t, p) {
        var k :| k > 0 && Above(t, p, t.reaper, k);
        NoChain(t, p, k);
      }
    }
  }

  // ---------------------------------------------------------------- the order of the reads matters

  const ROOT: Pid := 1
  const REAPER: Pid := 2
  const SELF: Pid := 3
  const CHILD: Pid := 4
  const GRANDCHILD: Pid := 5

  const BEFORE := Machine(map[REAPER := Proc(ROOT, false), SELF := Proc(REAPER, false), CHILD := Proc(SELF, false),
                              GRANDCHILD := Proc(CHILD, false)], SELF, REAPER)

  /** Reading the reaper's list first proves nothing: a grandchild can move from the supervisor's side to the
      reaper's between the reads. */
  lemma ReversedReadsMissOrphans()
    ensures exists between, n :: WellFormed(BEFORE) && !HasRoots(BEFORE, BEFORE.reaper) && Runs(BEFORE, between, n)
              && !HasRoots(n, n.self) && Descendant(n, GRANDCHILD)
  {
    var m1 := After(BEFORE, Exit(CHILD, REAPER));
    assert Above(BEFORE, REAPER, REAPER, 0) && Above(BEFORE, SELF, REAPER, 1) && Above(BEFORE, CHILD, REAPER, 2);
    assert m1.procs ==
           map[REAPER := Proc(ROOT, false), SELF := Proc(REAPER, false), CHILD := Proc(SELF, true),
             GRANDCHILD := Proc(REAPER, false)];
    var n := After(m1, Reap(CHILD));
    assert n.procs == map[REAPER := Proc(ROOT, false), SELF := Proc(REAPER, false), GRANDCHILD := Proc(REAPER, false)];
    var es := [Exit(CHILD, REAPER), Reap(CHILD)];
    assert es[1..] == [Reap(CHILD)] && es[1..][1..] == [];
    assert Runs(n, [], n) && Runs(m1, [Reap(CHILD)], n) && Runs(BEFORE, es, n);
    assert Above(n, REAPER, REAPER, 0) && Above(n, GRANDCHILD, REAPER, 1);
    assert Children(BEFORE, REAPER) == {SELF} && Children(n, SELF) == {};
  }
}
