/** The scheduler object: counters, an insertion-ordered map of queues, one busy set per scope that is
    shared by the map and by every lease handed out for it, and release closures that keep that set. */
module CallerExecutionScheduler {
  import opened SchedulerSpec
  import opened SchedulerProofs

  /** The mutable `Set<string>` of contexts a scope is running. */
  class BusySet {
    ghost const scope: Scope
    var contexts: set<Context>

    constructor (ghost scope: Scope)
      ensures contexts == {} && this.scope == scope
    {
      this.scope, contexts := scope, {};
    }
  }

  /** What a release closure captured: its slot and the busy set that was current when it was admitted. */
  datatype Lease = Lease(slot: Slot, busy: BusySet)

  /** The busy map has a set for every busy scope; a lease is live exactly while it holds its slot. */
  ghost predicate SlotsOk(scopes: set<Scope>, holders: map<Slot, nat>, leases: map<nat, Lease>,
                          outcomes: map<nat, Outcome>, origin: map<nat, Slot>, released: set<nat>) {
    && (forall b :: b in holders ==> b.scope in scopes && holders[b] in leases)
    && (forall id :: id in leases ==> id in outcomes && id in origin && origin[id] == leases[id].slot)
    && (forall id :: id in leases ==>
       (id !in released <==> leases[id].slot in holders && holders[leases[id].slot] == id))
    && released <= leases.Keys
  }

  /** A live lease captured the very set that the map holds for its scope. */
  ghost predicate AliasesOk(busy: map<Scope, BusySet>, leases: map<nat, Lease>, released: set<nat>) {
    && (forall x :: x in busy ==> busy[x].scope == x)
    && (forall id :: id in leases && id !in released ==>
          leases[id].slot.scope in busy && leases[id].busy == busy[leases[id].slot.scope])
  }

  lemma OccupyKeeps(busy: map<Scope, BusySet>, busySet: BusySet, holders: map<Slot, nat>, leases: map<nat, Lease>,
                    outcomes: map<nat, Outcome>, origin: map<nat, Slot>, released: set<nat>, slot: Slot, id: nat)
    requires SlotsOk(busy.Keys, holders, leases, outcomes, origin, released) && AliasesOk(busy, leases, released)
    requires id in origin && origin[id] == slot && id !in outcomes && slot !in holders
    requires busySet.scope == slot.scope && (slot.scope in busy ==> busySet == busy[slot.scope])
    ensures var busy', leases' := busy[slot.scope := busySet], leases[id := Lease(slot, busySet)];
            && SlotsOk(busy'.Keys, holders[slot := id], leases', outcomes[id := Admitted], origin, released)
            && AliasesOk(busy', leases', released)
  {}

  lemma AskedKeeps(scopes: set<Scope>, holders: map<Slot, nat>, leases: map<nat, Lease>,
                   outcomes: map<nat, Outcome>, origin: map<nat, Slot>, released: set<nat>, id: nat, slot: Slot,
                     o: Outcome)
    requires SlotsOk(scopes, holders, leases, outcomes, origin, released) && id !in origin
    ensures SlotsOk(scopes, holders, leases, outcomes, origin[id := slot], released)
    ensures SlotsOk(scopes, holders, leases, outcomes[id := o], origin[id := slot], released)
  {}

  lemma VacateKeeps(busy: map<Scope, BusySet>, holders: map<Slot, nat>, leases: map<nat, Lease>,
                    outcomes: map<nat, Outcome>, origin: map<nat, Slot>, released: set<nat>, id: nat, kept: bool)
    requires SlotsOk(busy.Keys, holders, leases, outcomes, origin, released) && AliasesOk(busy, leases, released)
    requires id in leases && id !in released
    requires forall b :: b in holders ==> holders[b] in origin && origin[holders[b]] == b
    requires !kept ==> BusyOf(holders, leases[id].slot.scope) <= {leases[id].slot.context}
    ensures var slot := leases[id].slot;
            var busy' := if kept then busy else busy - {slot.scope};
            && id in origin && origin[id] == slot && slot in holders && holders[slot] == id
            && slot.scope in busy && leases[id].busy == busy[slot.scope]
               && (forall x :: x in busy ==> busy[x].scope == x)
            && SlotsOk(busy'.Keys, holders - {slot}, leases, outcomes, origin, released + {id})
            && AliasesOk(busy', leases, released + {id})
  {
    var slot := leases[id].slot;
    if !kept {
      forall b | b in holders && b.scope == slot.scope ensures b == slot {
        assert b.context in BusyOf(holders, slot.scope);
      }
    }
  }

  class Scheduler {
    const limits: Limits
    var queues: seq<Queue>
    var busy: map<Scope, BusySet>
    var running: int
    var queued: int
    var nextId: nat
    /** How each promise settled, the closure an admitted one resolved to, and the closures' own flags. */
    var outcomes: map<nat, Outcome>
    var leases: map<nat, Lease>
    var released: set<nat>
    ghost var log: seq<nat>
    ghost var origin: map<nat, Slot>
    ghost var holders: map<Slot, nat>

    ghost function Model(): State
      reads this
    {
      State(queues, holders, running, queued, outcomes, log, origin, nextId)
    }

    ghost predicate SetsExact()
      reads this`busy, this`holders, busy.Values
    {
      forall x :: x in busy ==> busy[x].contexts == BusyOf(holders, x) && busy[x].contexts != {}
    }

    ghost predicate Heap()
      reads this`busy, this`holders, this`leases, this`outcomes, this`origin, this`released, busy.Values
    {
      SlotsOk(busy.Keys, holders, leases, outcomes, origin, released) && AliasesOk(busy, leases, released)
        && SetsExact()
    }

    ghost predicate Valid()
      reads this, busy.Values
    {
      Heap() && Inv(limits, Model())
    }

    constructor (limits: Limits)
      ensures Valid() && this.limits == limits && busy == map[]
      ensures Model() == Initial
    {
      this.limits := limits;
      queues, busy, running, queued, nextId := [], map[], 0, 0, 0;
      outcomes, leases, released := map[], map[], {};
      log, origin, holders := [], map[], map[];
      new;
      assert forall scope :: BusyOf(map[], scope) == {};
    }

    lemma NoSet(scope: Scope)
      requires SlotsOk(busy.Keys, holders, leases, outcomes, origin, released) && scope !in busy
      ensures BusyOf(holders, scope) == {}
    {}

    /** `remove`: splice the waiter at a known position out of its scope's queue. */
    method Remove(scope: Scope, i: nat)
      requires i < |QueueOf(queues, scope)|
      modifies this`queues, this`queued
      ensures queues == Shrink(old(queues), scope, Without(QueueOf(old(queues), scope), i))
      ensures queued == old(queued) - 1
    {
      var k := IndexOf(queues, scope);
      var rest := Without(queues[k].waiters, i);
      if rest == [] {
        queues := Without(queues, k);
      } else {
        queues := queues[k := Queue(scope, rest)];
      }
      queued := queued - 1;
    }

    /** Take the waiter out and rotate what is left of the caller's queue behind the others. */
    method TakeAndRotate(scope: Scope, i: nat)
      requires Distinct(queues) && i < |QueueOf(queues, scope)|
      modifies this`queues, this`queued
      ensures var rest := Without(QueueOf(old(queues), scope), i);
              queues == if rest == [] then Delete(old(queues), scope)
                else Put(Delete(old(queues), scope), Queue(scope, rest))
      ensures queued == old(queued) - 1
    {
      ghost var qs, rest := queues, Without(QueueOf(queues, scope), i);
      ShrinkQueue(qs, scope, rest);
      Remove(scope, i);
      if QueueOf(queues, scope) != [] {
        ReplacedThenDeleted(qs, Queue(scope, rest));
        queues := Put(Delete(queues, scope), Queue(scope, QueueOf(queues, scope)));
      }
    }

    /** `busy.get(scope) ?? new Set()`, `busy.add`, `busy.set`: the set of the scope, created if it has none. */
    method ShareSet(scope: Scope, context: Context, ghost id: nat) returns (busySet: BusySet)
      requires AliasesOk(busy, leases, released) && SetsExact()
      requires scope !in busy ==> BusyOf(holders, scope) == {}
      modifies this`busy, this`holders, busy.Values
      ensures SetsExact() && busySet.scope == scope
      ensures fresh(busy.Values - old(busy.Values))
      ensures holders == old(holders)[Slot(scope, context) := id]
      ensures busy == old(busy)[scope := busySet] && (scope in old(busy) ==> busySet == old(busy[scope]))
    {
      hide BusyOf;
      AddToAll(holders, Slot(scope, context), id);
      if scope in busy { busySet := busy[scope]; } else { busySet := new BusySet(scope); }
      busySet.contexts := busySet.contexts + {context};
      busy := busy[scope := busySet];
      holders := holders[Slot(scope, context) := id];
      forall x | x in busy ensures busy[x].contexts == BusyOf(holders, x) && busy[x].contexts != {} {
        if x != scope { assert busy[x].scope == x && busy[x].contexts == old(busy[x].contexts); }
      }
    }

    /** Occupy the slot: the context joins the scope's busy set, and the new lease captures that set. */
    method Occupy(scope: Scope, w: Waiter)
      requires Heap() && w.id in origin && origin[w.id] == Slot(scope, w.context) && w.id !in outcomes
      requires Slot(scope, w.context) !in holders
      requires scope !in busy ==> BusyOf(holders, scope) == {}
      modifies this`busy, this`running, this`leases, this`outcomes, this`holders, this`log, busy.Values
      ensures Heap() && fresh(busy.Values - old(busy.Values))
      ensures holders == old(holders)[Slot(scope, w.context) := w.id]
      ensures running == old(running) + 1 && log == old(log) + [w.id]
      ensures outcomes == old(outcomes)[w.id := Admitted]
    {
      hide BusyOf, SetsExact, SlotsOk, AliasesOk;
      ghost var sets := busy;
      var busySet := ShareSet(scope, w.context, w.id);
      OccupyKeeps(sets, busySet, old(holders), leases, outcomes, origin, released, Slot(scope, w.context), w.id);
      running := running + 1;
      leases := leases[w.id := Lease(Slot(scope, w.context), busySet)];
      outcomes := outcomes[w.id := Admitted];
      log := log + [w.id];
    }

    /** `drain`: admit the first free waiter of the first eligible caller until nobody can start. */
    method Drain()
      requires Heap() && Core(limits, Model())
      modifies this`queues, this`queued, this`busy, this`running, this`leases, this`outcomes, this`holders, this`log,
               busy.Values
      ensures Heap() && fresh(busy.Values - old(busy.Values))
      ensures Model() == SchedulerSpec.Drain(limits, old(Model()))
    {
      hide Core, Idle, AdmitFirst, SlotsOk, AliasesOk, SetsExact;
      ghost var first := Model();
      while running < limits.global
        invariant Heap() && Core(limits, Model()) && fresh(busy.Values - old(busy.Values))
        invariant DrainN(limits, Model(), Total(queues)) == SchedulerSpec.Drain(limits, first)
        decreases Total(queues)
      {
        var admitted := AdmitSomebody();
        if !admitted { break; }
      }
      IdleWhenFull(limits, Model());
    }

    /** One pass of the inner loop: skip callers that cannot start anybody, admit for the first that can. */
    method AdmitSomebody() returns (admitted: bool)
      requires Heap() && Core(limits, Model()) && running < limits.global
      modifies this`queues, this`queued, this`busy, this`running, this`leases, this`outcomes, this`holders, this`log,
               busy.Values
      ensures Heap() && Core(limits, Model()) && fresh(busy.Values - old(busy.Values))
      ensures !admitted ==> Idle(limits, old(Model())) && Model() == old(Model())
      ensures admitted ==> !Idle(limits, old(Model())) && Model() == AdmitFirst(limits, old(Model()))
      ensures admitted ==> Total(queues) == Total(old(queues)) - 1
    {
      hide Core, SlotsOk, AliasesOk, SetsExact, Eligible, Next, Admit;
      var k := 0;
      while k < |queues|
        invariant 0 <= k <= |queues| && Heap() && Model() == old(Model()) && busy == old(busy)
        invariant FirstEligible(limits, Model(), k) == FirstEligible(limits, Model(), 0)
      {
        var eligible, i := Look(k);
        if eligible {
          RoundKeepsCore(limits, Model());
          AdmitAt(queues[k].scope, i);
          return true;
        }
        k := k + 1;
      }
      return false;
    }

    /** Can the caller of entry `k` start somebody, and at which position of its queue? */
    method Look(k: nat) returns (eligible: bool, i: nat)
      requires Heap() && Core(limits, Model()) && k < |queues|
      ensures eligible <==> Eligible(limits, Model(), queues[k].scope)
      ensures eligible ==> i == Next(Model(), queues[k].scope) < |QueueOf(queues, queues[k].scope)|
    {
      hide BusyOf;
      var scope := queues[k].scope;
      CoreFacts(limits, Model());
      assert IndexOf(queues, scope) == k;
      if scope !in busy { NoSet(scope); }
      var taken := if scope in busy then busy[scope].contexts else {};
      i := FirstFree(queues[k].waiters, taken);
      eligible := |taken| < limits.perCaller && i < |queues[k].waiters|;
    }

    method AdmitAt(scope: Scope, i: nat)
      requires Heap() && Core(limits, Model()) && i == Next(Model(), scope) < |QueueOf(queues, scope)|
      modifies this`queues, this`queued, this`busy, this`running, this`leases, this`outcomes, this`holders, this`log,
               busy.Values
      ensures Heap() && fresh(busy.Values - old(busy.Values))
      ensures Model() == Admit(old(Model()), scope)
    {
      hide Core, SlotsOk, AliasesOk, SetsExact, BusyOf, Distinct;
      var w := QueueOf(queues, scope)[i];
      FreeWaiter(limits, Model(), scope);
      if scope !in busy { NoSet(scope); }
      TakeAndRotate(scope, i);
      Occupy(scope, w);
    }

    /** `acquire`. The promise it returns is known by `id`; it settles in `outcomes`, now or later. */
    method Acquire(scope: Scope, context: Context, aborted: bool) returns (id: nat)
      requires Valid()
      modifies this, busy.Values
      ensures Valid() && fresh(busy.Values - old(busy.Values))
      ensures id == old(nextId)
      ensures Model() == Step(limits, old(Model()), AcquireOp(Slot(scope, context), aborted))
    {
      hide Core, Conserved, QueueLimitsOk, SlotsOk, AliasesOk, SetsExact, SchedulerSpec.Drain, Enqueue, Reject;
      id := nextId;
      StepKeepsInv(limits, Model(), AcquireOp(Slot(scope, context), aborted));
      if aborted {
        FreshId(limits, Model());
        AskedKeeps(busy.Keys, holders, leases, outcomes, origin, released, id, Slot(scope, context), Aborted);
        nextId, origin, outcomes := nextId + 1, origin[id := Slot(scope, context)], outcomes[id := Aborted];
      } else {
        EnqueueKeepsCore(limits, Model(), Slot(scope, context));
        Join(scope, context);
        Drain();
        RejectOverflow(scope, id);
      }
    }

    method Join(scope: Scope, context: Context)
      requires Heap() && Core(limits, Model())
      modifies this`queues, this`queued, this`nextId, this`origin
      ensures Heap()
      ensures Model() == Enqueue(old(Model()), Slot(scope, context))
    {
      hide Core, SlotsOk, AliasesOk, SetsExact;
      FreshId(limits, Model());
      AskedKeeps(busy.Keys, holders, leases, outcomes, origin, released, nextId, Slot(scope, context), Aborted);
      queues := Put(queues, Queue(scope, QueueOf(queues, scope) + [Waiter(nextId, context)]));
      queued := queued + 1;
      nextId, origin := nextId + 1, origin[nextId := Slot(scope, context)];
    }

    /** An arrival that is still waiting and went over a queue limit is rejected on the spot. */
    method RejectOverflow(scope: Scope, id: nat)
      requires Heap()
      modifies this`queues, this`queued, this`outcomes
      ensures Heap()
      ensures Model() == if IsQueued(old(Model()), scope, id) && OverLimit(limits, old(Model()), scope)
                         then Reject(old(Model()), scope, id, Full) else old(Model())
    {
      if IndexOfId(QueueOf(queues, scope), id) < |QueueOf(queues, scope)| &&
         (queued > limits.queueLimit || |QueueOf(queues, scope)| > limits.queuePerCaller) {
        Settle(scope, id, Full);
      }
    }

    /** `remove`, then reject the promise. */
    method Settle(scope: Scope, id: nat, why: Outcome)
      requires Heap() && IsQueued(Model(), scope, id)
      modifies this`queues, this`queued, this`outcomes
      ensures Heap()
      ensures Model() == Reject(old(Model()), scope, id, why)
    {
      Remove(scope, IndexOfId(QueueOf(queues, scope), id));
      outcomes := outcomes[id := why];
    }

    /** The abort listener of waiter `id`, which asked for `scope`: a late signal finds it gone and does nothing. */
    method Abort(scope: Scope, id: nat)
      requires Valid() && id in origin && origin[id].scope == scope
      modifies this, busy.Values
      ensures Valid() && fresh(busy.Values - old(busy.Values))
      ensures Model() == Step(limits, old(Model()), AbortOp(id))
    {
      hide Core, Conserved, QueueLimitsOk, SlotsOk, AliasesOk, SetsExact, DrainN;
      StepKeepsInv(limits, Model(), AbortOp(id));
      if IndexOfId(QueueOf(queues, scope), id) < |QueueOf(queues, scope)| {
        RejectKeepsCore(limits, Model(), scope, id, Aborted);
        Settle(scope, id, Aborted);
        Drain();
      }
    }

    /** The release closure of lease `id`. It works on the set it captured; a second call does nothing. */
    method Release(id: nat)
      requires Valid() && id in leases
      modifies this, busy.Values
      ensures Valid() && fresh(busy.Values - old(busy.Values))
      ensures Model() == Step(limits, old(Model()), ReleaseOp(id))
      ensures id in released
    {
      hide Core, Conserved, QueueLimitsOk, DrainN, BusyOf, SlotsOk, AliasesOk, SetsExact;
      StepKeepsInv(limits, Model(), ReleaseOp(id));
      if id in released {
        DeadLease(busy.Keys, holders, leases, outcomes, origin, released, id);
        return;
      }
      Vacate(id);
      Drain();
    }

    method Vacate(id: nat)
      requires Heap() && Core(limits, Model()) && id in leases && id !in released
      modifies this`released, this`busy, this`running, this`holders, busy.Values
      ensures Heap() && Core(limits, Model()) && busy.Values <= old(busy.Values)
      ensures Live(old(Model()), id) && Model() == SchedulerProofs.Vacate(old(Model()), id)
      ensures released == old(released) + {id}
    {
      hide Core, BusyOf, SlotsOk, AliasesOk, SetsExact;
      var lease := leases[id];
      HoldersAsked(limits, Model());
      VacateKeeps(busy, holders, leases, outcomes, origin, released, id, true);
      VacateKeepsCore(limits, Model(), id);
      ghost var last := BusyOf(holders, lease.slot.scope) <= {lease.slot.context};
      if last { VacateKeeps(busy, holders, leases, outcomes, origin, released, id, false); }
      released := released + {id};
      running := running - 1;
      UnshareSet(lease);
    }

    /** `busy.delete(context)` on the captured set; an emptied set leaves the map. */
    method UnshareSet(lease: Lease)
      requires SetsExact() && lease.slot.scope in busy && lease.busy == busy[lease.slot.scope]
      requires forall x :: x in busy ==> busy[x].scope == x
      modifies this`busy, this`holders, busy.Values
      ensures SetsExact() && busy.Values <= old(busy.Values)
      ensures holders == old(holders) - {lease.slot}
      ensures busy == if BusyOf(old(holders), lease.slot.scope) <= {lease.slot.context}
                      then old(busy) - {lease.slot.scope} else old(busy)
    {
      hide BusyOf;
      RemoveFromAll(holders, lease.slot);
      lease.busy.contexts := lease.busy.contexts - {lease.slot.context};
      if lease.busy.contexts == {} { busy := busy - {lease.slot.scope}; }
      holders := holders - {lease.slot};
      forall x | x in busy ensures busy[x].contexts == BusyOf(holders, x) && busy[x].contexts != {} {
        if x != lease.slot.scope { assert busy[x].scope == x && busy[x].contexts == old(busy[x].contexts); }
      }
    }
  }

  lemma DeadLease(scopes: set<Scope>, holders: map<Slot, nat>, leases: map<nat, Lease>,
                  outcomes: map<nat, Outcome>, origin: map<nat, Slot>, released: set<nat>, id: nat)
    requires SlotsOk(scopes, holders, leases, outcomes, origin, released) && id in leases && id in released
    ensures id in origin && (origin[id] in holders ==> holders[origin[id]] != id)
  {}

  lemma HoldersAsked(lim: Limits, s: State)
    requires Core(lim, s)
    ensures forall b :: b in s.busy ==> s.busy[b] in s.origin && s.origin[s.busy[b]] == b
  {}

  lemma RemoveFromAll(holders: map<Slot, nat>, slot: Slot)
    ensures forall x :: BusyOf(holders - {slot}, x) ==
              if x == slot.scope then BusyOf(holders, x) - {slot.context} else BusyOf(holders, x)
  {
    forall x ensures BusyOf(holders - {slot}, x) ==
                     if x == slot.scope then BusyOf(holders, x) - {slot.context} else BusyOf(holders, x) {
      BusyOfRemove(holders, slot, x);
    }
  }

  lemma FreshId(lim: Limits, s: State)
    requires Core(lim, s)
    ensures s.nextId !in s.origin && s.nextId !in s.outcomes
  {}

  /** The waiter a round picks asked for this slot, is unsettled, and its slot is free. */
  lemma FreeWaiter(lim: Limits, s: State, scope: Scope)
    requires Core(lim, s) && Next(s, scope) < |QueueOf(s.queues, scope)|
    ensures var w := QueueOf(s.queues, scope)[Next(s, scope)];
            && w.id in s.origin && s.origin[w.id] == Slot(scope, w.context) && w.id !in s.outcomes
            && Slot(scope, w.context) !in s.busy
    ensures Distinct(s.queues)
  {
    assert QueuedRight(s, scope, QueueOf(s.queues, scope)[Next(s, scope)]);
  }

  lemma IdleWhenFull(lim: Limits, s: State)
    ensures s.running >= lim.global ==> Idle(lim, s)
  {}

  lemma AddToAll(holders: map<Slot, nat>, slot: Slot, id: nat)
    ensures forall x :: BusyOf(holders[slot := id], x) ==
              if x == slot.scope then BusyOf(holders, x) + {slot.context} else BusyOf(holders, x)
  {
    forall x ensures BusyOf(holders[slot := id], x) ==
                     if x == slot.scope then BusyOf(holders, x) + {slot.context} else BusyOf(holders, x) {
      BusyOfAdd(holders, slot, id, x);
    }
  }

  lemma ReplacedThenDeleted(qs: seq<Queue>, q: Queue)
    requires Distinct(qs) && IndexOf(qs, q.scope) < |qs|
    ensures Delete(Put(qs, q), q.scope) == Delete(qs, q.scope)
  {
    var k := IndexOf(qs, q.scope);
    assert Put(qs, q)[k] == q;
    assert IndexOf(Put(qs, q), q.scope) == k;
  }
}
