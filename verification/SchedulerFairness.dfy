/** Consequences of the scheduler's invariant over whole runs: promises settle once,
    slots are counted exactly, and no eligible caller is bypassed more often than
    there are callers ahead of it. */
module SchedulerFairness {
  import opened SchedulerSpec
  import opened Sets
  import opened SchedulerProofs

  lemma InitialInv(lim: Limits)
    ensures Inv(lim, Initial)
  {
    assert forall scope :: BusyOf(Initial.busy, scope) == {};
  }

  lemma {:induction false} RunKeepsInv(lim: Limits, s: State, ops: seq<Op>)
    requires Inv(lim, s)
    ensures Inv(lim, Run(lim, s, ops))
    decreases |ops|
  {
    hide Inv, Step;
    if ops != [] {
      StepKeepsInv(lim, s, ops[0]);
      RunKeepsInv(lim, Step(lim, s, ops[0]), ops[1..]);
    }
  }

  // ---------------------------------------------------------------- every promise settles once

  /** Settled promises stay as they are, origins are fixed for good, and the log only grows. */
  ghost predicate Grows(s: State, t: State) {
    && (forall id :: id in s.outcomes ==> id in t.outcomes && t.outcomes[id] == s.outcomes[id])
    && (forall id :: id in s.origin ==> id in t.origin && t.origin[id] == s.origin[id])
    && s.log <= t.log
  }

  lemma GrowsTransitive(s: State, t: State, u: State)
    requires Grows(s, t) && Grows(t, u)
    ensures Grows(s, u)
  {}

  lemma RoundGrows(lim: Limits, s: State)
    requires Core(lim, s) && !Idle(lim, s)
    ensures Grows(s, AdmitFirst(lim, s))
  {
    var x := s.queues[FirstEligible(lim, s, 0)].scope;
    assert QueuedRight(s, x, QueueOf(s.queues, x)[Next(s, x)]);
  }

  lemma {:induction false} DrainGrows(lim: Limits, s: State, n: nat)
    requires Core(lim, s)
    ensures Grows(s, DrainN(lim, s, n))
    decreases n
  {
    hide Core, Idle, AdmitFirst;
    if n > 0 && !Idle(lim, s) {
      RoundGrows(lim, s);
      RoundKeepsCore(lim, s);
      DrainGrows(lim, AdmitFirst(lim, s), n - 1);
      GrowsTransitive(s, AdmitFirst(lim, s), DrainN(lim, AdmitFirst(lim, s), n - 1));
    }
  }

  lemma RejectGrows(s: State, scope: Scope, id: nat, why: Outcome)
    requires QueuesOk(s)
    ensures Grows(s, Reject(s, scope, id, why))
  {
    if IsQueued(s, scope, id) {
      assert QueuedRight(s, scope, QueueOf(s.queues, scope)[IndexOfId(QueueOf(s.queues, scope), id)]);
    }
  }

  lemma EnqueueGrows(s: State, slot: Slot)
    requires IdsOk(s)
    ensures Grows(s, Enqueue(s, slot))
  {}

  lemma ArrivalGrows(lim: Limits, s: State, slot: Slot)
    requires Inv(lim, s)
    ensures Grows(s, Acquire(lim, s, slot, false))
  {
    hide Core, Conserved, QueueLimitsOk, Enqueue, Reject, OverLimit, IsQueued, Grows;
    var e := Enqueue(s, slot);
    var d := Drain(lim, e);
    CoreFacts(lim, s);
    EnqueueGrows(s, slot);
    EnqueueKeepsCore(lim, s, slot);
    DrainKeepsCore(lim, e);
    DrainGrows(lim, e, Total(e.queues));
    GrowsTransitive(s, e, d);
    CoreFacts(lim, d);
    RejectGrows(d, slot.scope, s.nextId, Full);
    GrowsTransitive(s, d, Reject(d, slot.scope, s.nextId, Full));
  }

  lemma AbortGrows(lim: Limits, s: State, id: nat)
    requires Inv(lim, s)
    ensures Grows(s, Abort(lim, s, id))
  {
    hide Core, Conserved, QueueLimitsOk, Reject, IsQueued;
    CoreFacts(lim, s);
    if id in s.origin {
      var t := Reject(s, s.origin[id].scope, id, Aborted);
      RejectGrows(s, s.origin[id].scope, id, Aborted);
      RejectKeepsCore(lim, s, s.origin[id].scope, id, Aborted);
      DrainGrows(lim, t, Total(t.queues));
    }
  }

  lemma ReleaseGrows(lim: Limits, s: State, id: nat)
    requires Inv(lim, s)
    ensures Grows(s, Release(lim, s, id))
  {
    hide Core, Conserved, QueueLimitsOk;
    if Live(s, id) {
      VacateKeepsCore(lim, s, id);
      DrainGrows(lim, Vacate(s, id), Total(s.queues));
    }
  }

  /** No promise settles twice: an outcome, once there, is there with the same value after every run. */
  lemma {:induction false} SettlesOnce(lim: Limits, s: State, ops: seq<Op>)
    requires Inv(lim, s)
    ensures Grows(s, Run(lim, s, ops))
    decreases |ops|
  {
    if ops != [] {
      var t := Step(lim, s, ops[0]);
      StepGrows(lim, s, ops[0]);
      StepKeepsInv(lim, s, ops[0]);
      hide Inv, Step;
      SettlesOnce(lim, t, ops[1..]);
      GrowsTransitive(s, t, Run(lim, t, ops[1..]));
    }
  }

  lemma StepGrows(lim: Limits, s: State, op: Op)
    requires Inv(lim, s)
    ensures Grows(s, Step(lim, s, op))
  {
    hide Core, Conserved, QueueLimitsOk, Release, Abort, Drain, Enqueue, Reject, IsQueued, OverLimit;
    match op
    case AcquireOp(slot, aborted) => if aborted { RefusedGrows(lim, s, slot); } else { ArrivalGrows(lim, s, slot); }
    case AbortOp(id) => AbortGrows(lim, s, id);
    case ReleaseOp(id) => ReleaseGrows(lim, s, id);
  }

  lemma RefusedGrows(lim: Limits, s: State, slot: Slot)
    requires Inv(lim, s)
    ensures Grows(s, Acquire(lim, s, slot, true))
  {
    assert IdsOk(s);
  }

  // ---------------------------------------------------------------- running is the sum of the busy sets

  function SumSizes(busy: map<Slot, nat>, scopes: seq<Scope>): nat {
    if scopes == [] then 0 else |BusyOf(busy, scopes[0])| + SumSizes(busy, scopes[1..])
  }

  /** The number of slots held within the listed scopes. */
  function HeldIn(busy: map<Slot, nat>, scopes: seq<Scope>): set<Slot> {
    set b | b in busy && b.scope in scopes
  }

  lemma {:induction false} SumIsHeld(busy: map<Slot, nat>, scopes: seq<Scope>)
    requires forall i, j :: 0 <= i < j < |scopes| ==> scopes[i] != scopes[j]
    ensures SumSizes(busy, scopes) == |HeldIn(busy, scopes)|
  {
    if scopes == [] {
      assert HeldIn(busy, scopes) == {};
    } else {
      var here, rest := HeldIn(busy, [scopes[0]]), HeldIn(busy, scopes[1..]);
      SumIsHeld(busy, scopes[1..]);
      assert HeldIn(busy, scopes) == here + rest;
      assert here !! rest;
      SameSize(here, BusyOf(busy, scopes[0]), scopes[0]);
    }
  }

  lemma {:induction false} SameSize(slots: set<Slot>, contexts: set<Context>, scope: Scope)
    requires forall b :: b in slots ==> b.scope == scope && b.context in contexts
    requires forall c :: c in contexts ==> Slot(scope, c) in slots
    ensures |slots| == |contexts|
    decreases contexts
  {
    if contexts == {} {
      assert slots == {};
    } else {
      var c :| c in contexts;
      assert slots == (slots - {Slot(scope, c)}) + {Slot(scope, c)};
      SameSize(slots - {Slot(scope, c)}, contexts - {c}, scope);
    }
  }

  /** `running` equals the sum of the sizes of the busy sets, over any listing of the scopes that hold slots. */
  lemma RunningIsSum(lim: Limits, s: State, scopes: seq<Scope>)
    requires Inv(lim, s)
    requires forall i, j :: 0 <= i < j < |scopes| ==> scopes[i] != scopes[j]
    requires forall b :: b in s.busy ==> b.scope in scopes
    ensures s.running == SumSizes(s.busy, scopes)
  {
    SumIsHeld(s.busy, scopes);
    assert HeldIn(s.busy, scopes) == s.busy.Keys;
    assert CountsOk(lim, s);
  }

  // ---------------------------------------------------------------- bounded bypass

  /** The scopes a drain would look at before this one. */
  function Ahead(qs: seq<Queue>, x: Scope): set<Scope> {
    ScopesBefore(qs, IndexOf(qs, x))
  }

  /** Waiter `id` could start now but for the global limit: its context is idle and its caller has a slot left. */
  ghost predicate Waits(lim: Limits, s: State, x: Scope, id: nat) {
    && id in s.origin && s.origin[id].scope == x
    && IsQueued(s, x, id)
    && s.origin[id].context !in BusyOf(s.busy, x)
    && |BusyOf(s.busy, x)| < lim.perCaller
  }

  lemma WaitsIsEligible(lim: Limits, s: State, x: Scope, id: nat)
    requires QueuesOk(s) && Waits(lim, s, x, id)
    ensures Eligible(lim, s, x)
    ensures IndexOf(s.queues, x) < |s.queues|
  {
    var ws := QueueOf(s.queues, x);
    var i := IndexOfId(ws, id);
    assert QueuedRight(s, x, ws[i]);
    assert ws[i].context !in BusyOf(s.busy, x);
  }

  lemma IndexWithout(qs: seq<Queue>, k: nat, x: Scope)
    requires Distinct(qs) && k < |qs| && qs[k].scope != x && IndexOf(qs, x) < |qs|
    ensures var i := IndexOf(qs, x); IndexOf(Without(qs, k), x) == if i < k then i else i - 1
  {
    var i, d := IndexOf(qs, x), Without(qs, k);
    assert d[if i < k then i else i - 1] == qs[i];
    var j := IndexOf(d, x);
    assert d[j] == qs[if j < k then j else j + 1];
  }

  function ScopesBefore(qs: seq<Queue>, i: nat): set<Scope>
    requires i <= |qs|
  {
    set j | 0 <= j < i :: qs[j].scope
  }

  lemma ScopesWithout(qs: seq<Queue>, k: nat, i: nat)
    requires Distinct(qs) && k < |qs| && i < |qs| && i != k
    ensures ScopesBefore(Without(qs, k), if i < k then i else i - 1) == ScopesBefore(qs, i) - {qs[k].scope}
  {
    var d, i' := Without(qs, k), if i < k then i else i - 1;
    forall z | z in ScopesBefore(qs, i) && z != qs[k].scope ensures z in ScopesBefore(d, i') {
      var j :| 0 <= j < i && qs[j].scope == z;
      assert d[if j < k then j else j - 1].scope == z;
    }
    forall z | z in ScopesBefore(d, i') ensures z in ScopesBefore(qs, i) && z != qs[k].scope {
      var j :| 0 <= j < i' && d[j].scope == z;
      assert qs[if j < k then j else j + 1].scope == z;
    }
  }

  lemma AheadDelete(qs: seq<Queue>, y: Scope, x: Scope)
    requires Distinct(qs) && y != x && IndexOf(qs, x) < |qs|
    ensures Ahead(Delete(qs, y), x) == Ahead(qs, x) - {y}
    ensures IndexOf(Delete(qs, y), x) < |Delete(qs, y)|
  {
    hide ScopesBefore, Distinct, IndexOf;
    var k := IndexOf(qs, y);
    if k < |qs| {
      IndexWithout(qs, k, x);
      ScopesWithout(qs, k, IndexOf(qs, x));
    } else {
      NotBefore(qs, IndexOf(qs, x), y);
    }
  }

  lemma NotBefore(qs: seq<Queue>, i: nat, y: Scope)
    requires i <= |qs| && forall j :: 0 <= j < |qs| ==> qs[j].scope != y
    ensures y !in ScopesBefore(qs, i)
  {}

  lemma AheadPut(qs: seq<Queue>, q: Queue, x: Scope)
    requires IndexOf(qs, x) < |qs|
    ensures Ahead(Put(qs, q), x) == Ahead(qs, x)
    ensures IndexOf(Put(qs, q), x) < |Put(qs, q)|
  {
    var i, p := IndexOf(qs, x), Put(qs, q);
    assert forall j :: 0 <= j < |qs| ==> p[j].scope == qs[j].scope;
    assert IndexOf(p, x) == i;
  }

  lemma AheadShrink(qs: seq<Queue>, y: Scope, rest: seq<Waiter>, x: Scope)
    requires Distinct(qs) && IndexOf(qs, x) < |qs| && (rest == [] ==> y != x)
    ensures Ahead(Shrink(qs, y, rest), x) <= Ahead(qs, x)
  {
    if rest == [] { AheadDelete(qs, y, x); } else { AheadPut(qs, Queue(y, rest), x); }
  }

  /** What one step can do to a waiting scope: serve it, or leave it waiting with nobody new ahead of it;
      whoever was served instead was ahead and no longer is. */
  ghost predicate Overtakes(s: State, t: State, x: Scope) {
    && Ahead(t.queues, x) <= Ahead(s.queues, x)
    && (t.log != s.log ==>
          |t.log| == |s.log| + 1 && t.log[|s.log|] in t.origin
          && t.origin[t.log[|s.log|]].scope in Ahead(s.queues, x) - Ahead(t.queues, x))
  }

  ghost predicate Serves(s: State, t: State, x: Scope) {
    |t.log| > |s.log| && t.log[|s.log|] in t.origin && t.origin[t.log[|s.log|]].scope == x
  }

  lemma AdmitOvertakes(lim: Limits, v: State, k: nat, x: Scope, id: nat)
    requires Core(lim, v) && Waits(lim, v, x, id)
    requires k == FirstEligible(lim, v, 0) < |v.queues|
    ensures var y := v.queues[k].scope;
            var t := Admit(v, y);
            if y == x then Serves(v, t, x) else Overtakes(v, t, x) && Waits(lim, t, x, id)
  {
    CoreFacts(lim, v);
    WaitsIsEligible(lim, v, x, id);
    var y := v.queues[k].scope;
    var ws := QueueOf(v.queues, y);
    assert QueuedRight(v, y, ws[Next(v, y)]);
    if y != x {
      assert y in Ahead(v.queues, x);
      AheadDelete(v.queues, y, x);
      var rest := Without(ws, Next(v, y));
      if rest != [] { AheadPut(Delete(v.queues, y), Queue(y, rest), x); }
      AdmitQueues(v, y);
      AdmitBusy(v, y);
    }
  }

  lemma ReleaseOvertakes(lim: Limits, s: State, gone: nat, x: Scope, id: nat)
    requires Inv(lim, s) && Waits(lim, s, x, id)
    ensures var t := Release(lim, s, gone);
            Serves(s, t, x) || (Overtakes(s, t, x) && Waits(lim, t, x, id))
  {
    hide Core, Conserved, QueueLimitsOk, Admit;
    if Live(s, gone) {
      var v := Vacate(s, gone);
      VacateKeepsCore(lim, s, gone);
      ReleaseAdmitsOne(lim, s, gone);
      StillWaits(lim, s, gone, x, id);
      CoreFacts(lim, v);
      WaitsIsEligible(lim, v, x, id);
      AdmitOvertakes(lim, v, FirstEligible(lim, v, 0), x, id);
    }
  }

  lemma StillWaits(lim: Limits, s: State, gone: nat, x: Scope, id: nat)
    requires Live(s, gone) && Waits(lim, s, x, id)
    ensures Waits(lim, Vacate(s, gone), x, id)
  {
    BusyOfRemove(s.busy, s.origin[gone], x);
  }

  lemma AbortOvertakes(lim: Limits, s: State, gone: nat, x: Scope, id: nat)
    requires Inv(lim, s) && Waits(lim, s, x, id) && gone != id
    ensures var t := Abort(lim, s, gone);
            Overtakes(s, t, x) && Waits(lim, t, x, id)
  {
    hide Core, Conserved, QueueLimitsOk, IsQueued, Reject, Waits, Drain;
    if gone in s.origin && IsQueued(s, s.origin[gone].scope, gone) {
      AbortDrainsNothing(lim, s, gone);
      CoreFacts(lim, s);
      LeaveOvertakes(lim, s, s.origin[gone].scope, gone, x, id);
    }
  }

  lemma LeaveOvertakes(lim: Limits, s: State, y: Scope, gone: nat, x: Scope, id: nat)
    requires QueuesOk(s) && Waits(lim, s, x, id) && gone != id && IsQueued(s, y, gone)
    ensures var t := Reject(s, y, gone, Aborted);
            && Ahead(t.queues, x) <= Ahead(s.queues, x) && t.log == s.log
            && Waits(lim, t, x, id)
  {
    var ws, i := QueueOf(s.queues, y), IndexOfId(QueueOf(s.queues, y), gone);
    WaitsIsEligible(lim, s, x, id);
    WithoutWaiter(ws, i);
    OthersRemain(s, y, gone, x, id);
    hide Ahead, Shrink;
    AheadShrink(s.queues, y, Without(ws, i), x);
  }

  lemma OthersRemain(s: State, y: Scope, gone: nat, x: Scope, id: nat)
    requires QueuesOk(s) && IsQueued(s, y, gone) && IsQueued(s, x, id) && gone != id
    ensures IsQueued(Reject(s, y, gone, Aborted), x, id)
    ensures y == x ==> Without(QueueOf(s.queues, y), IndexOfId(QueueOf(s.queues, y), gone)) != []
  {
    RejectQueues(s, y, gone, Aborted);
    var ws, i := QueueOf(s.queues, y), IndexOfId(QueueOf(s.queues, y), gone);
    WithoutWaiter(ws, i);
    assert y == x ==> IndexOfId(Without(ws, i), id) < |ws| - 1;
  }

  lemma AbortDrainsNothing(lim: Limits, s: State, id: nat)
    requires Inv(lim, s) && id in s.origin && IsQueued(s, s.origin[id].scope, id)
    ensures Abort(lim, s, id) == Reject(s, s.origin[id].scope, id, Aborted)
  {
    var x := s.origin[id].scope;
    var t := Reject(s, x, id, Aborted);
    hide Core;
    CoreFacts(lim, s);
    forall y | Eligible(lim, t, y) ensures Eligible(lim, s, y) { RejectEligible(lim, s, x, id, Aborted, y); }
    DrainNothing(lim, t);
  }

  lemma ArrivalOvertakes(lim: Limits, s: State, slot: Slot, x: Scope, id: nat)
    requires Inv(lim, s) && Waits(lim, s, x, id)
    ensures var t := Acquire(lim, s, slot, false);
            Overtakes(s, t, x) && Waits(lim, t, x, id)
  {
    hide Core, QueueLimitsOk, Enqueue, Reject, Eligible, Waits, Ahead;
    CoreFacts(lim, s);
    WaitsIsEligible(lim, s, x, id);
    var e := Enqueue(s, slot);
    EnqueueOvertakes(lim, s, slot, x, id);
    if OverLimit(lim, e, slot.scope) { RejectOvertakes(lim, s, slot, x, id); }
  }

  lemma EnqueueOvertakes(lim: Limits, s: State, slot: Slot, x: Scope, id: nat)
    requires QueuesOk(s) && IdsOk(s) && Waits(lim, s, x, id)
    ensures var e := Enqueue(s, slot);
            && Ahead(e.queues, x) == Ahead(s.queues, x)
            && Waits(lim, e, x, id) && e.log == s.log && e.running == s.running
  {
    var w, ws := Waiter(s.nextId, slot.context), QueueOf(s.queues, slot.scope);
    WaitsIsEligible(lim, s, x, id);
    EnqueueQueues(s, slot);
    AheadPut(s.queues, Queue(slot.scope, ws + [w]), x);
    if x == slot.scope { Prolonged(ws, w, id); }
  }

  /** Rejecting the newcomer restores every queue. */
  lemma RejectRestores(s: State, slot: Slot)
    requires QueuesOk(s) && IdsOk(s)
    ensures var t := Reject(Enqueue(s, slot), slot.scope, s.nextId, Full);
            && (forall y :: QueueOf(t.queues, y) == QueueOf(s.queues, y))
            && t.busy == s.busy && t.log == s.log && t.origin == s.origin[s.nextId := slot]
            && t.queues == Shrink(Enqueue(s, slot).queues, slot.scope, QueueOf(s.queues, slot.scope))
  {
    var e, w, ws := Enqueue(s, slot), Waiter(s.nextId, slot.context), QueueOf(s.queues, slot.scope);
    EnqueueQueues(s, slot);
    NotYetQueued(s, slot.scope);
    assert e.busy == s.busy && e.log == s.log && e.origin == s.origin[s.nextId := slot];
    hide Enqueue, IdsOk, Put, Delete;
    RejectQueues(e, slot.scope, s.nextId, Full);
    assert Without(ws + [w], |ws|) == ws;
  }

  lemma StaysWaiting(lim: Limits, s: State, t: State, x: Scope, id: nat)
    requires Waits(lim, s, x, id) && QueueOf(t.queues, x) == QueueOf(s.queues, x) && t.busy == s.busy
    requires id in t.origin && t.origin[id] == s.origin[id]
    ensures Waits(lim, t, x, id)
  {}

  lemma RejectOvertakes(lim: Limits, s: State, slot: Slot, x: Scope, id: nat)
    requires QueuesOk(s) && IdsOk(s) && Waits(lim, s, x, id)
    ensures var t := Reject(Enqueue(s, slot), slot.scope, s.nextId, Full);
            && Ahead(t.queues, x) <= Ahead(s.queues, x)
            && Waits(lim, t, x, id) && t.log == s.log
  {
    var e, t := Enqueue(s, slot), Reject(Enqueue(s, slot), slot.scope, s.nextId, Full);
    assert id in s.origin && id < s.nextId;
    EnqueueOvertakes(lim, s, slot, x, id);
    WaitsIsEligible(lim, s, x, id);
    PresentAfterEnqueue(s, slot, x);
    EnqueueQueues(s, slot);
    assert QueueOf(s.queues, slot.scope) == [] ==> slot.scope != x;
    hide Enqueue, Reject, Waits, IdsOk, Ahead, Shrink;
    RejectRestores(s, slot);
    StaysWaiting(lim, s, t, x, id);
    AheadShrink(e.queues, slot.scope, QueueOf(s.queues, slot.scope), x);
  }

  lemma PresentAfterEnqueue(s: State, slot: Slot, x: Scope)
    requires IndexOf(s.queues, x) < |s.queues|
    ensures Enqueue(s, slot).queues ==
            Put(s.queues, Queue(slot.scope, QueueOf(s.queues, slot.scope) + [Waiter(s.nextId, slot.context)]))
    ensures IndexOf(Enqueue(s, slot).queues, x) < |Enqueue(s, slot).queues|
  {
    AheadPut(s.queues, Queue(slot.scope, QueueOf(s.queues, slot.scope) + [Waiter(s.nextId, slot.context)]), x);
  }

  /** One step never moves anybody in front of a waiting scope. */
  lemma StepOvertakes(lim: Limits, s: State, op: Op, x: Scope, id: nat)
    requires Inv(lim, s) && Waits(lim, s, x, id) && op != AbortOp(id)
    ensures var t := Step(lim, s, op);
            Serves(s, t, x) || (Overtakes(s, t, x) && Waits(lim, t, x, id))
  {
    hide Core, Conserved, QueueLimitsOk, Release, Abort;
    match op
    case AcquireOp(slot, aborted) =>
      if !aborted { hide Acquire; ArrivalOvertakes(lim, s, slot, x, id); }
      else { assert id < s.nextId by { CoreFacts(lim, s); } }
    case AbortOp(gone) => AbortOvertakes(lim, s, gone, x, id);
    case ReleaseOp(gone) => ReleaseOvertakes(lim, s, gone, x, id);
  }

  /** The scopes admitted after log position `from`. */
  ghost predicate NotServed(t: State, from: nat, x: Scope) {
    forall i :: from <= i < |t.log| ==> t.log[i] in t.origin && t.origin[t.log[i]].scope != x
  }

  /** Bounded bypass. Take any reachable state, a waiter that could start but for the global limit, and any
      run in which it is not aborted. As long as its scope is not served, the waiter stays startable, every
      admission goes to a scope that was ahead of it, and no such scope is served twice: so at most as many
      admissions pass by as there were scopes ahead. */
  lemma {:induction false} BoundedBypass(lim: Limits, s: State, ops: seq<Op>, x: Scope, id: nat)
    requires Inv(lim, s) && Waits(lim, s, x, id) && AbortOp(id) !in ops
    requires NotServed(Run(lim, s, ops), |s.log|, x)
    ensures var t := Run(lim, s, ops);
            && Waits(lim, t, x, id)
            && Ahead(t.queues, x) <= Ahead(s.queues, x)
            && s.log <= t.log
            && (forall i :: |s.log| <= i < |t.log| ==>
                  t.origin[t.log[i]].scope in Ahead(s.queues, x) - Ahead(t.queues, x))
            && (forall i, j :: |s.log| <= i < j < |t.log| ==> t.origin[t.log[i]].scope != t.origin[t.log[j]].scope)
            && |t.log| - |s.log| <= |Ahead(s.queues, x)| - |Ahead(t.queues, x)|
    decreases |ops|
  {
    hide Inv, Step, Waits, Ahead;
    if ops != [] {
      var s1, t := Step(lim, s, ops[0]), Run(lim, s, ops);
      StepOvertakes(lim, s, ops[0], x, id);
      StepKeepsInv(lim, s, ops[0]);
      StepGrows(lim, s, ops[0]);
      SettlesOnce(lim, s1, ops[1..]);
      assert !Serves(s, s1, x);
      assert NotServed(Run(lim, s1, ops[1..]), |s1.log|, x);
      BoundedBypass(lim, s1, ops[1..], x, id);
      SubsetSize(Ahead(s1.queues, x), Ahead(s.queues, x));
      if Ahead(s1.queues, x) < Ahead(s.queues, x) { ProperSubsetSize(Ahead(s1.queues, x), Ahead(s.queues, x)); }
    }
  }

  // ---------------------------------------------------------------- progress

  /** A release of a held slot, with a startable waiter present, admits exactly one waiter. */
  lemma ReleaseServesSomebody(lim: Limits, s: State, gone: nat, x: Scope, id: nat)
    requires Inv(lim, s) && Waits(lim, s, x, id) && Live(s, gone)
    ensures |Release(lim, s, gone).log| == |s.log| + 1
  {
    hide Core, Conserved, QueueLimitsOk, Waits, Eligible;
    VacateKeepsCore(lim, s, gone);
    ReleaseAdmitsOne(lim, s, gone);
    StillWaits(lim, s, gone, x, id);
    CoreFacts(lim, Vacate(s, gone));
    WaitsIsEligible(lim, Vacate(s, gone), x, id);
  }

  predicate IsRelease(s: State, op: Op) {
    op.ReleaseOp? && Live(s, op.id)
  }

  /** How many steps of a run give back a slot that was still held. */
  function LiveReleases(lim: Limits, s: State, ops: seq<Op>): nat
    decreases |ops|
  {
    if ops == [] then 0
    else (if IsRelease(s, ops[0]) then 1 else 0) + LiveReleases(lim, Step(lim, s, ops[0]), ops[1..])
  }

  lemma {:induction false} ReleasesServe(lim: Limits, s: State, ops: seq<Op>, x: Scope, id: nat)
    requires Inv(lim, s) && Waits(lim, s, x, id) && AbortOp(id) !in ops
    requires NotServed(Run(lim, s, ops), |s.log|, x)
    ensures |Run(lim, s, ops).log| >= |s.log| + LiveReleases(lim, s, ops)
    decreases |ops|
  {
    hide Inv, Waits, Ahead, Live;
    if ops != [] {
      var s1 := Step(lim, s, ops[0]);
      StepOvertakes(lim, s, ops[0], x, id);
      StepKeepsInv(lim, s, ops[0]);
      StepGrows(lim, s, ops[0]);
      SettlesOnce(lim, s1, ops[1..]);
      if IsRelease(s, ops[0]) { ReleaseServesSomebody(lim, s, ops[0].id, x, id); }
      hide Step;
      assert !Serves(s, s1, x);
      assert NotServed(Run(lim, s1, ops[1..]), |s1.log|, x);
      ReleasesServe(lim, s1, ops[1..], x, id);
    }
  }

  /** No starvation: once more held slots have been given back than there were scopes ahead of a startable waiter,
      its scope has been served, whatever else arrived meanwhile. */
  lemma ServedInTime(lim: Limits, s: State, ops: seq<Op>, x: Scope, id: nat)
    requires Inv(lim, s) && Waits(lim, s, x, id) && AbortOp(id) !in ops
    requires LiveReleases(lim, s, ops) > |Ahead(s.queues, x)|
    ensures !NotServed(Run(lim, s, ops), |s.log|, x)
  {
    hide Inv, Step, Waits, Ahead, NotServed;
    if NotServed(Run(lim, s, ops), |s.log|, x) {
      BoundedBypass(lim, s, ops, x, id);
      ReleasesServe(lim, s, ops, x, id);
    }
  }
}
