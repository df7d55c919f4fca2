/** The manifest version fences old clients out of state they cannot administer. Writers overlap, writes fail,
    the process dies and restarts; the version on disk never decreases, and a stored row always lies behind it,
    unless the migration itself imported a federated principal. */
module ManifestFence {
  import opened Options

  type Id = string
  type Thread = nat

  datatype Kind = FixedStorage | Preparation | FederatedScope | Context
  datatype Row = Row(kind: Kind, id: Id)

  /** The oldest manifest version whose clients know rows of this kind. */
  function Fence(k: Kind): nat {
    match k
    case FixedStorage => 5
    case Preparation => 6
    case FederatedScope => 7
    case Context => 8
  }

  /** A call that stores a row: its manifest write is queued, running or done. */
  datatype Call = Call(row: Row, written: bool)

  /** `version`, `rows` and `imported` are on disk. `memory` is the open store's `manifestVersion`, `queue` the
      calls whose manifest writes have not begun, in order, and `writing` the one that has, with its content. */
  datatype State = State(
    version: nat,
    rows: set<Row>,
    imported: bool,
    memory: Option<nat>,
    calls: map<Thread, Call>,
    queue: seq<Thread>,
    writing: Option<(Thread, nat)>)

  /** The scopes among the JSON client's records whose principal is federated. */
  datatype Config = Config(legacy: set<Id>)

  datatype WriteResult = Succeeds | FailsBefore | FailsAfter

  datatype Event =
    | Open
    | Crash
    | Enter(t: Thread, row: Row)
    | WriteBegins
    | WriteEnds(result: WriteResult)
    | Store(t: Thread)
    | Remove(row: Row)

  /** A directory a JSON client may have left, or a new one. */
  const Start := State(2, {}, false, None, map[], [], None)

  predicate Possible(s: State, e: Event) {
    match e
    case Open => s.memory.None?
    case Crash => true
    case Enter(t, _) => s.memory.Some? && t !in s.calls
    case WriteBegins => s.writing.None? && s.queue != [] && s.memory.Some?
    case WriteEnds(_) => s.writing.Some?
    case Store(t) => t in s.calls && s.calls[t].written
    case Remove(_) => s.memory.Some?
  }

  function Max(a: nat, b: nat): nat {
    if a < b then b else a
  }

  function Imported(cfg: Config): set<Row> {
    set id | id in cfg.legacy :: Row(FederatedScope, id)
  }

  function After(cfg: Config, s: State, e: Event): State
    requires Possible(s, e)
  {
    match e
    case Open =>
      var v := Max(4, s.version);
      s.(version := v, memory := Some(v), imported := true,
         rows := if s.imported then s.rows else s.rows + Imported(cfg))
    case Crash => s.(memory := None, calls := map[], queue := [], writing := None)
    case Enter(t, row) =>
      s.(memory := Some(Max(Fence(row.kind), s.memory.value)), calls := s.calls[t := Call(row, false)],
         queue := s.queue + [t])
    // The content is fixed when the write begins, not when the call was made.
    case WriteBegins => s.(writing := Some((s.queue[0], s.memory.value)), queue := s.queue[1..])
    case WriteEnds(r) =>
      var t := s.writing.value.0;
      s.(version := if r == FailsBefore then s.version else s.writing.value.1,
         writing := None,
         calls := if t !in s.calls then s.calls
                  else if r == Succeeds then s.calls[t := s.calls[t].(written := true)] else s.calls - {t})
    case Store(t) => s.(rows := s.rows + {s.calls[t].row}, calls := s.calls - {t})
    case Remove(row) => s.(rows := s.rows - {row})
  }

  ghost predicate Runs(cfg: Config, s: State, es: seq<Event>, t: State)
    decreases |es|
  {
    if es == [] then t == s else Possible(s, es[0]) && Runs(cfg, After(cfg, s, es[0]), es[1..], t)
  }

  ghost predicate Reachable(cfg: Config, s: State) {
    exists es :: Runs(cfg, Start, es, s)
  }

  /** Every stored row lies behind the version on disk. */
  ghost predicate Fenced(s: State) {
    forall r :: r in s.rows ==> s.version >= Fence(r.kind)
  }

  // ---------------------------------------------------------------- the version never decreases

  /** What the open store holds in memory, and what is being written, is never behind the disk. */
  ghost predicate Ahead(s: State) {
    && (s.memory.None? ==> s.writing.None? && s.queue == [] && s.calls == map[])
    && (s.memory.Some? ==> s.memory.value >= s.version)
    && (s.writing.Some? ==> s.version <= s.writing.value.1 <= s.memory.value)
  }

  lemma VersionMonotone(cfg: Config, s: State, e: Event)
    requires Ahead(s) && Possible(s, e)
    ensures Ahead(After(cfg, s, e)) && After(cfg, s, e).version >= s.version
  {}

  lemma {:induction false} VersionNeverDecreases(cfg: Config, s: State, es: seq<Event>, t: State)
    requires Ahead(s) && Runs(cfg, s, es, t)
    ensures Ahead(t) && t.version >= s.version
    decreases |es|
  {
    hide Ahead, Possible, After;
    if es != [] {
      VersionMonotone(cfg, s, es[0]);
      VersionNeverDecreases(cfg, After(cfg, s, es[0]), es[1..], t);
    }
  }

  // ---------------------------------------------------------------- rows behind the fence

  ghost predicate CallOk(s: State, t: Thread)
    requires t in s.calls
  {
    var need := Fence(s.calls[t].row.kind);
    && s.memory.Some? && s.memory.value >= need
    && (s.calls[t].written ==> s.version >= need)
    && (!s.calls[t].written ==> t in s.queue || (s.writing.Some? && s.writing.value.0 == t))
    && (s.writing.Some? && s.writing.value.0 == t ==> s.writing.value.1 >= need)
  }

  ghost predicate Distinct(q: seq<Thread>) {
    forall i, j :: 0 <= i < j < |q| ==> q[i] != q[j]
  }

  /** Calls that stand in the queue are not yet written, and each stands there once. */
  ghost predicate QueueOk(s: State) {
    && Distinct(s.queue)
    && (forall t :: t in s.queue ==> t in s.calls && !s.calls[t].written)
    && (s.writing.Some? ==>
       s.writing.value.0 in s.calls && !s.calls[s.writing.value.0].written && s.writing.value.0 !in s.queue)
  }

  /** Rows that the migration imported are the only ones that may lie before the fence. */
  ghost predicate Stored(cfg: Config, s: State) {
    forall r :: r in s.rows ==> s.version >= Fence(r.kind) || r in Imported(cfg)
  }

  ghost predicate Inv(cfg: Config, s: State) {
    && Ahead(s) && QueueOk(s) && Stored(cfg, s)
    && (forall t {:trigger CallOk(s, t)} :: t in s.calls ==> CallOk(s, t))
  }

  lemma StepKeepsQueue(cfg: Config, s: State, e: Event)
    requires Ahead(s) && QueueOk(s) && Possible(s, e)
    ensures QueueOk(After(cfg, s, e))
  {
    var u := After(cfg, s, e);
    if e.WriteBegins? {
      forall t | t in u.queue ensures t in s.queue && t != s.queue[0] {
        var i :| 0 <= i < |u.queue| && u.queue[i] == t;
        assert s.queue[i + 1] == t;
      }
    }
  }

  lemma StepKeepsCalls(cfg: Config, s: State, e: Event, t: Thread)
    requires Inv(cfg, s) && Possible(s, e) && t in After(cfg, s, e).calls
    ensures CallOk(After(cfg, s, e), t)
  {
    VersionMonotone(cfg, s, e);
    var u := After(cfg, s, e);
    if t in s.calls { assert CallOk(s, t); }
    if e.WriteBegins? {
      assert s.queue == [s.queue[0]] + u.queue;
    }
    if e.Enter? { assert u.queue[|s.queue|] == e.t; }
  }

  lemma StepKeepsStored(cfg: Config, s: State, e: Event)
    requires Inv(cfg, s) && Possible(s, e)
    ensures Stored(cfg, After(cfg, s, e))
  {
    VersionMonotone(cfg, s, e);
    if e.Store? { assert CallOk(s, e.t); }
  }

  lemma StepKeepsInv(cfg: Config, s: State, e: Event)
    requires Inv(cfg, s) && Possible(s, e)
    ensures Inv(cfg, After(cfg, s, e))
  {
    VersionMonotone(cfg, s, e);
    StepKeepsQueue(cfg, s, e);
    StepKeepsStored(cfg, s, e);
    forall t | t in After(cfg, s, e).calls ensures CallOk(After(cfg, s, e), t) { StepKeepsCalls(cfg, s, e, t); }
    hide Ahead, QueueOk, Stored, CallOk, After;
  }

  lemma {:induction false} RunKeepsInv(cfg: Config, s: State, es: seq<Event>, t: State)
    requires Inv(cfg, s) && Runs(cfg, s, es, t)
    ensures Inv(cfg, t)
    decreases |es|
  {
    hide Inv, Possible, After;
    if es != [] {
      StepKeepsInv(cfg, s, es[0]);
      RunKeepsInv(cfg, After(cfg, s, es[0]), es[1..], t);
    }
  }

  /** Across overlapping writers, failed writes, crashes and restarts, every row lies behind its fence exactly
      when no imported record names a federated principal. */
  lemma FencedExactly(cfg: Config)
    ensures (forall s :: Reachable(cfg, s) ==> Fenced(s)) <==> cfg.legacy == {}
  {
    if cfg.legacy == {} {
      forall s | Reachable(cfg, s) ensures Fenced(s) {
        var es :| Runs(cfg, Start, es, s);
        RunKeepsInv(cfg, Start, es, s);
        assert Imported(cfg) == {};
      }
    } else {
      var id :| id in cfg.legacy;
      var s := After(cfg, Start, Open);
      assert [Open][1..] == [] && Runs(cfg, s, [], s);
      assert Runs(cfg, Start, [Open], s);
      assert Row(FederatedScope, id) in s.rows && s.version == 4;
      assert Reachable(cfg, s) && !Fenced(s);
    }
  }

  /** Whatever was imported, all other rows are fenced. */
  lemma OthersFenced(cfg: Config, s: State, r: Row)
    requires Reachable(cfg, s) && r in s.rows && (r.kind == FederatedScope ==> r.id !in cfg.legacy)
    ensures s.version >= Fence(r.kind)
  {
    var es :| Runs(cfg, Start, es, s);
    RunKeepsInv(cfg, Start, es, s);
  }

  // ---------------------------------------------------------------- what stays gone

  /** The migration is over, the row is gone, and no call is about to store it. */
  ghost predicate Gone(s: State, r: Row) {
    s.imported && r !in s.rows && forall t :: t in s.calls ==> s.calls[t].row != r
  }

  lemma StepKeepsGone(cfg: Config, s: State, e: Event, r: Row)
    requires Gone(s, r) && Possible(s, e) && !(e.Enter? && e.row == r)
    ensures Gone(After(cfg, s, e), r)
  {}

  /** A removed row never comes back by itself: whatever crashes, restarts and other calls follow, only a call for that
      very row stores it again. The legacy records are imported once. */
  lemma {:induction false} GoneForGood(cfg: Config, s: State, es: seq<Event>, t: State, r: Row)
    requires Gone(s, r) && Runs(cfg, s, es, t) && forall e :: e in es ==> !(e.Enter? && e.row == r)
    ensures r !in t.rows && t.imported
    decreases |es|
  {
    hide Possible, After, Gone;
    if es != [] {
      StepKeepsGone(cfg, s, es[0], r);
      GoneForGood(cfg, After(cfg, s, es[0]), es[1..], t, r);
    } else {
      IsGone(s, r);
    }
  }

  lemma IsGone(s: State, r: Row)
    requires Gone(s, r)
    ensures r !in s.rows && s.imported
  {}

  /** The process may die at any moment; what is on disk stays, and the next opening starts from it. */
  lemma CrashKeepsDisk(cfg: Config, s: State)
    requires Ahead(s)
    ensures Possible(s, Crash)
    ensures var c := After(cfg, s, Crash);
            && c.version == s.version && c.rows == s.rows && c.imported == s.imported && c.memory.None?
            && Possible(c, Open) && After(cfg, c, Open).memory == Some(After(cfg, c, Open).version)
            && After(cfg, c, Open).version >= 4 && After(cfg, c, Open).version >= s.version
            && After(cfg, c, Open).rows == (if s.imported then s.rows else s.rows + Imported(cfg))
            && After(cfg, c, Open).imported
  {}
}
