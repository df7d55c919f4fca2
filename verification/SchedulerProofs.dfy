/** What every run of the scheduler keeps: safety, work conservation, order and bounded bypass. */
module SchedulerProofs {
  import opened SchedulerSpec

  // ---------------------------------------------------------------- building blocks

  lemma BusyOfAdd(busy: map<Slot, nat>, b: Slot, id: nat, scope: Scope)
    ensures BusyOf(busy[b := id], scope) ==
            if scope == b.scope then BusyOf(busy, scope) + {b.context} else BusyOf(busy, scope)
  {
    var after := busy[b := id];
    forall c | c in BusyOf(busy, scope) ensures c in BusyOf(after, scope) {
      assert Slot(scope, c) in after;
    }
    if scope == b.scope { assert b in after; }
  }

  lemma BusyOfRemove(busy: map<Slot, nat>, b: Slot, scope: Scope)
    ensures BusyOf(busy - {b}, scope) ==
            if scope == b.scope then BusyOf(busy, scope) - {b.context} else BusyOf(busy, scope)
  {
    var after := busy - {b};
    forall c | c in BusyOf(busy, scope) && Slot(scope, c) != b ensures c in BusyOf(after, scope) {
      assert Slot(scope, c) in after;
    }
    forall c | c in BusyOf(after, scope) ensures c in BusyOf(busy, scope) && Slot(scope, c) != b {
      assert Slot(scope, c) in after;
    }
  }

  lemma {:induction false} TotalAppend(a: seq<Queue>, b: seq<Queue>)
    ensures Total(a + b) == Total(a) + Total(b)
  {
    if a == [] {
      assert a + b == b;
    } else {
      assert (a + b)[0] == a[0] && (a + b)[1..] == a[1..] + b;
      TotalAppend(a[1..], b);
    }
  }

  lemma TotalOne(q: Queue)
    ensures Total([q]) == |q.waiters|
  {
    assert [q][1..] == [];
  }

  lemma TotalSplit(qs: seq<Queue>, k: nat)
    requires k < |qs|
    ensures Total(qs) == Total(Without(qs, k)) + |qs[k].waiters|
    ensures forall q :: Total(qs[k := q]) == Total(Without(qs, k)) + |q.waiters|
  {
    assert qs == qs[..k] + ([qs[k]] + qs[k+1..]);
    TotalAppend(qs[..k], [qs[k]] + qs[k+1..]);
    TotalAppend([qs[k]], qs[k+1..]);
    TotalAppend(qs[..k], qs[k+1..]);
    TotalOne(qs[k]);
    forall q ensures Total(qs[k := q]) == Total(Without(qs, k)) + |q.waiters| {
      assert qs[k := q] == qs[..k] + ([q] + qs[k+1..]);
      TotalAppend(qs[..k], [q] + qs[k+1..]);
      TotalAppend([q], qs[k+1..]);
      TotalOne(q);
    }
  }

  lemma DeleteQueue(qs: seq<Queue>, scope: Scope)
    requires Distinct(qs)
    ensures Distinct(Delete(qs, scope))
    ensures forall y :: QueueOf(Delete(qs, scope), y) == if y == scope then [] else QueueOf(qs, y)
    ensures Total(Delete(qs, scope)) == Total(qs) - |QueueOf(qs, scope)|
  {
    var k := IndexOf(qs, scope);
    if k < |qs| {
      TotalSplit(qs, k);
      forall y ensures QueueOf(Delete(qs, scope), y) == if y == scope then [] else QueueOf(qs, y) {
        DeleteLookup(qs, k, y);
      }
    }
  }

  lemma DeleteLookup(qs: seq<Queue>, k: nat, y: Scope)
    requires Distinct(qs) && k < |qs|
    ensures QueueOf(Without(qs, k), y) == if y == qs[k].scope then [] else QueueOf(qs, y)
  {
    var after, i := Without(qs, k), IndexOf(qs, y);
    var j := IndexOf(after, y);
    if j < |after| { assert after[j] == qs[if j < k then j else j + 1]; }
    if i < |qs| && i != k { assert after[if i < k then i else i - 1] == qs[i]; }
  }

  lemma PutQueue(qs: seq<Queue>, q: Queue)
    requires Distinct(qs) && q.waiters != []
    ensures Distinct(Put(qs, q))
    ensures forall y :: QueueOf(Put(qs, q), y) == if y == q.scope then q.waiters else QueueOf(qs, y)
    ensures Total(Put(qs, q)) == Total(qs) - |QueueOf(qs, q.scope)| + |q.waiters|
  {
    var k, after := IndexOf(qs, q.scope), Put(qs, q);
    if k < |qs| { TotalSplit(qs, k); } else { TotalAppend(qs, [q]); TotalOne(q); }
    forall y ensures QueueOf(after, y) == if y == q.scope then q.waiters else QueueOf(qs, y) {
      var i := IndexOf(qs, y);
      if i < |qs| { assert after[i] == if i == k then q else qs[i]; }
      else if y == q.scope { assert after[|qs|] == q; }
    }
  }

  lemma ShrinkQueue(qs: seq<Queue>, scope: Scope, rest: seq<Waiter>)
    requires Distinct(qs)
    ensures Distinct(Shrink(qs, scope, rest))
    ensures forall y :: QueueOf(Shrink(qs, scope, rest), y) == if y == scope then rest else QueueOf(qs, y)
    ensures Total(Shrink(qs, scope, rest)) == Total(qs) - |QueueOf(qs, scope)| + |rest|
  {
    if rest == [] { DeleteQueue(qs, scope); } else { PutQueue(qs, Queue(scope, rest)); }
  }

  lemma RotateQueue(qs: seq<Queue>, scope: Scope, rest: seq<Waiter>)
    requires Distinct(qs) && rest != []
    ensures var after := Put(Delete(qs, scope), Queue(scope, rest));
            && after == Delete(qs, scope) + [Queue(scope, rest)]
            && Distinct(after)
            && (forall y :: QueueOf(after, y) == if y == scope then rest else QueueOf(qs, y))
            && Total(after) == Total(qs) - |QueueOf(qs, scope)| + |rest|
  {
    DeleteQueue(qs, scope);
    var d := Delete(qs, scope);
    assert QueueOf(d, scope) == [];
    assert IndexOf(d, scope) == |d|;
    PutQueue(d, Queue(scope, rest));
  }

  /** Removing position `i` from a queue in arrival order removes exactly that id. */
  lemma WithoutWaiter(ws: seq<Waiter>, i: nat)
    requires i < |ws|
    requires forall a, b :: 0 <= a < b < |ws| ==> ws[a].id < ws[b].id
    ensures |Without(ws, i)| == |ws| - 1
    ensures forall j :: 0 <= j < |ws| - 1 ==> Without(ws, i)[j] == ws[if j < i then j else j + 1]
    ensures forall a, b :: 0 <= a < b < |ws| - 1 ==> Without(ws, i)[a].id < Without(ws, i)[b].id
    ensures forall id :: IndexOfId(Without(ws, i), id) < |ws| - 1 <==> id != ws[i].id && IndexOfId(ws, id) < |ws|
  {
    var rest := Without(ws, i);
    forall id ensures IndexOfId(rest, id) < |ws| - 1 <==> id != ws[i].id && IndexOfId(ws, id) < |ws| {
      var a := IndexOfId(ws, id);
      if a < |ws| && a != i { assert rest[if a < i then a else a - 1] == ws[a]; }
    }
  }

  // ---------------------------------------------------------------- each action keeps the core

  /** The waiter the drain loop would take from this scope. */
  function Next(s: State, scope: Scope): nat {
    FirstFree(QueueOf(s.queues, scope), BusyOf(s.busy, scope))
  }

  lemma AdmitQueues(s: State, scope: Scope)
    requires Distinct(s.queues) && Next(s, scope) < |QueueOf(s.queues, scope)|
    ensures var t := Admit(s, scope);
            && Distinct(t.queues)
            && Total(t.queues) == Total(s.queues) - 1
            && (forall y :: QueueOf(t.queues, y) ==
                  if y == scope then Without(QueueOf(s.queues, scope), Next(s, scope)) else QueueOf(s.queues, y))
  {
    var rest := Without(QueueOf(s.queues, scope), Next(s, scope));
    if rest == [] { DeleteQueue(s.queues, scope); } else { RotateQueue(s.queues, scope, rest); }
  }

  lemma AdmitBusy(s: State, scope: Scope)
    requires Next(s, scope) < |QueueOf(s.queues, scope)|
    ensures forall y :: BusyOf(Admit(s, scope).busy, y) ==
              if y == scope then BusyOf(s.busy, y) + {QueueOf(s.queues, scope)[Next(s, scope)].context}
              else BusyOf(s.busy, y)
    ensures |Admit(s, scope).busy| == |s.busy| + 1
  {
    var w := QueueOf(s.queues, scope)[Next(s, scope)];
    var b := Slot(scope, w.context);
    assert b !in s.busy;
    forall y ensures BusyOf(Admit(s, scope).busy, y) ==
                     if y == scope then BusyOf(s.busy, y) + {w.context} else BusyOf(s.busy, y) {
      BusyOfAdd(s.busy, b, w.id, y);
    }
  }

  lemma AdmitKeepsCounts(lim: Limits, s: State, scope: Scope)
    requires QueuesOk(s) && CountsOk(lim, s) && Eligible(lim, s, scope) && s.running < lim.global
    ensures CountsOk(lim, Admit(s, scope))
  {
    AdmitQueues(s, scope);
    AdmitBusy(s, scope);
    var t := Admit(s, scope);
    forall y ensures |BusyOf(t.busy, y)| <= lim.perCaller {
      if y != scope { assert BusyOf(t.busy, y) == BusyOf(s.busy, y); }
    }
  }

  lemma AdmitKeepsCore(lim: Limits, s: State, scope: Scope)
    requires Core(lim, s) && Eligible(lim, s, scope) && s.running < lim.global
    ensures Core(lim, Admit(s, scope))
  {
    var t := Admit(s, scope);
    assert QueuesOk(t) && IdsOk(t) && LogOk(t) && FifoOk(t) by {
      AdmitQueues(s, scope);
      assert QueuedRight(s, scope, QueueOf(s.queues, scope)[Next(s, scope)]);
      LeaveKeepsQueues(s, t, scope, Next(s, scope), Admitted);
      AdmitKeepsLog(s, t, scope, Next(s, scope));
    }
    AdmitKeepsCounts(lim, s, scope);
  }

  lemma LeaveKeepsQueues(s: State, t: State, scope: Scope, i: nat, o: Outcome)
    requires QueuesOk(s) && IdsOk(s) && i < |QueueOf(s.queues, scope)|
    requires var ws := QueueOf(s.queues, scope);
             && t.origin == s.origin && t.nextId == s.nextId
             && Distinct(t.queues)
             && t.outcomes == s.outcomes[ws[i].id := o]
             && (forall y :: QueueOf(t.queues, y) == if y == scope then Without(ws, i) else QueueOf(s.queues, y))
    ensures QueuesOk(t) && IdsOk(t)
  {
    var ws := QueueOf(s.queues, scope);
    WithoutWaiter(ws, i);
    assert QueuedRight(s, scope, ws[i]);
    forall y, j | 0 <= j < |QueueOf(t.queues, y)| ensures QueuedRight(t, y, QueueOf(t.queues, y)[j]) {
      if y == scope {
        assert QueuedRight(s, y, ws[if j < i then j else j + 1]);
      } else {
        assert QueuedRight(s, y, QueueOf(s.queues, y)[j]);
      }
    }
    forall id | id in t.origin && id !in t.outcomes ensures IsQueued(t, t.origin[id].scope, id) {
      assert IsQueued(s, s.origin[id].scope, id);
    }
  }

  lemma AdmitKeepsLog(s: State, t: State, scope: Scope, i: nat)
    requires QueuesOk(s) && IdsOk(s) && LogOk(s) && FifoOk(s)
    requires i == FirstFree(QueueOf(s.queues, scope), BusyOf(s.busy, scope)) < |QueueOf(s.queues, scope)|
    requires t == Admit(s, scope)
    requires forall y :: QueueOf(t.queues, y) ==
               if y == scope then Without(QueueOf(s.queues, scope), i) else QueueOf(s.queues, y)
    ensures LogOk(t) && FifoOk(t)
  {
    var w := QueueOf(s.queues, scope)[i];
    assert QueuedRight(s, scope, w);
    assert LogOk(t);
    AdmitKeepsFifo(s, t, scope, i);
  }

  lemma AdmitKeepsFifo(s: State, t: State, scope: Scope, i: nat)
    requires QueuesOk(s) && FifoOk(s)
    requires i == FirstFree(QueueOf(s.queues, scope), BusyOf(s.busy, scope)) < |QueueOf(s.queues, scope)|
    requires t == Admit(s, scope)
    requires forall y :: QueueOf(t.queues, y) ==
               if y == scope then Without(QueueOf(s.queues, scope), i) else QueueOf(s.queues, y)
    ensures FifoOk(t)
  {
    forall y, j, id | id in t.log && 0 <= j < |QueueOf(t.queues, y)|
      ensures InOrder(t, id, QueueOf(t.queues, y)[j].id)
    {
      AdmittedFirst(s, t, scope, i, y, j, id);
    }
    forall a, c | 0 <= a < c < |t.log| ensures InOrder(t, t.log[a], t.log[c]) {
      if c == |s.log| {
        assert s.log[a] in s.log && InOrder(s, s.log[a], QueueOf(s.queues, scope)[i].id);
      } else {
        assert InOrder(s, s.log[a], s.log[c]);
      }
    }
  }

  /** The admitted waiter is the earliest of its context, so nobody still queued was overtaken. */
  lemma AdmittedFirst(s: State, t: State, scope: Scope, i: nat, y: Scope, j: nat, id: nat)
    requires QueuesOk(s) && FifoOk(s)
    requires i == FirstFree(QueueOf(s.queues, scope), BusyOf(s.busy, scope)) < |QueueOf(s.queues, scope)|
    requires t == Admit(s, scope)
    requires QueueOf(t.queues, y) == if y == scope then Without(QueueOf(s.queues, scope), i) else QueueOf(s.queues, y)
    requires id in t.log && j < |QueueOf(t.queues, y)|
    ensures InOrder(t, id, QueueOf(t.queues, y)[j].id)
  {
    var ws := QueueOf(s.queues, scope);
    var j' := if y == scope && j >= i then j + 1 else j;
    var w, v := ws[i], QueueOf(s.queues, y)[j'];
    assert QueueOf(t.queues, y)[j] == v;
    assert QueuedRight(s, scope, w) && QueuedRight(s, y, v);
    if id == w.id {
      if y == scope && j' < i { assert v.context in BusyOf(s.busy, scope); }
    } else {
      assert id in s.log && InOrder(s, id, v.id);
    }
  }

  lemma NoneEligible(lim: Limits, s: State)
    requires FirstEligible(lim, s, 0) == |s.queues|
    ensures forall scope :: !Eligible(lim, s, scope)
  {
    forall scope ensures !Eligible(lim, s, scope) {
      var k := IndexOf(s.queues, scope);
      if k < |s.queues| { assert !Eligible(lim, s, s.queues[k].scope); }
    }
  }

  lemma NothingQueued(lim: Limits, s: State)
    requires Distinct(s.queues) && Total(s.queues) == 0
    ensures Conserved(lim, s)
  {
    assert s.queues == [];
  }

  lemma RoundKeepsCore(lim: Limits, s: State)
    requires Core(lim, s) && !Idle(lim, s)
    ensures Core(lim, AdmitFirst(lim, s))
    ensures Total(AdmitFirst(lim, s).queues) == Total(s.queues) - 1
  {
    var scope := s.queues[FirstEligible(lim, s, 0)].scope;
    AdmitKeepsCore(lim, s, scope);
    AdmitQueues(s, scope);
  }

  lemma IdleConserves(lim: Limits, s: State)
    requires Core(lim, s) && (Idle(lim, s) || Total(s.queues) == 0)
    ensures Conserved(lim, s)
  {
    if s.running < lim.global {
      if Idle(lim, s) { NoneEligible(lim, s); } else { NothingQueued(lim, s); }
    }
  }

  lemma {:induction false} DrainNKeepsCore(lim: Limits, s: State, n: nat)
    requires Core(lim, s)
    ensures Core(lim, DrainN(lim, s, n))
    ensures Total(s.queues) <= n ==> Conserved(lim, DrainN(lim, s, n))
    decreases n
  {
    hide Core, Idle, AdmitFirst, Conserved;
    if n == 0 || Idle(lim, s) {
      if Total(s.queues) <= n { IdleConserves(lim, s); }
    } else {
      RoundKeepsCore(lim, s);
      DrainNKeepsCore(lim, AdmitFirst(lim, s), n - 1);
    }
  }

  lemma DrainKeepsCore(lim: Limits, s: State)
    requires Core(lim, s)
    ensures Core(lim, Drain(lim, s)) && Conserved(lim, Drain(lim, s))
  {
    DrainNKeepsCore(lim, s, Total(s.queues));
  }

  lemma EnqueueQueues(s: State, slot: Slot)
    requires Distinct(s.queues)
    ensures var t := Enqueue(s, slot);
            && Distinct(t.queues)
            && Total(t.queues) == Total(s.queues) + 1
            && t.busy == s.busy && t.outcomes == s.outcomes && t.origin == s.origin[s.nextId := slot]
            && t.nextId == s.nextId + 1 && t.log == s.log && t.queued == s.queued + 1
            && (forall y :: QueueOf(t.queues, y) ==
                  if y == slot.scope then QueueOf(s.queues, y) + [Waiter(s.nextId, slot.context)]
                    else QueueOf(s.queues, y))
  {
    PutQueue(s.queues, Queue(slot.scope, QueueOf(s.queues, slot.scope) + [Waiter(s.nextId, slot.context)]));
  }

  lemma EnqueueKeepsCore(lim: Limits, s: State, slot: Slot)
    requires Core(lim, s)
    ensures Core(lim, Enqueue(s, slot))
  {
    EnqueueQueues(s, slot);
    EnqueueKeepsOrder(s, Enqueue(s, slot), slot);
    EnqueueKeepsIds(s, slot);
  }

  lemma EnqueueKeepsIds(s: State, slot: Slot)
    requires QueuesOk(s) && IdsOk(s)
    ensures IdsOk(Enqueue(s, slot))
    ensures forall y, i :: 0 <= i < |QueueOf(Enqueue(s, slot).queues, y)| ==>
              QueuedRight(Enqueue(s, slot), y, QueueOf(Enqueue(s, slot).queues, y)[i])
  {
    hide Enqueue, QueueOf;
    var t := Enqueue(s, slot);
    EnqueueQueues(s, slot);
    forall y, i | 0 <= i < |QueueOf(t.queues, y)| ensures QueuedRight(t, y, QueueOf(t.queues, y)[i]) {
      if i < |QueueOf(s.queues, y)| { assert QueuedRight(s, y, QueueOf(s.queues, y)[i]); }
    }
    forall id | id in t.origin && id !in t.outcomes ensures IsQueued(t, t.origin[id].scope, id) {
      if id != s.nextId { assert IsQueued(s, s.origin[id].scope, id); }
      EnqueuedId(s, t, slot, id);
    }
  }

  lemma EnqueuedId(s: State, t: State, slot: Slot, id: nat)
    requires id == s.nextId || (id in s.origin && IsQueued(s, s.origin[id].scope, id) && id != s.nextId)
    requires t.origin == s.origin[s.nextId := slot]
    requires forall y :: QueueOf(t.queues, y) ==
               if y == slot.scope then QueueOf(s.queues, y) + [Waiter(s.nextId, slot.context)] else QueueOf(s.queues, y)
    ensures IsQueued(t, t.origin[id].scope, id)
  {
    if t.origin[id].scope == slot.scope {
      Prolonged(QueueOf(s.queues, slot.scope), Waiter(s.nextId, slot.context), id);
    }
  }

  lemma Prolonged(ws: seq<Waiter>, w: Waiter, id: nat)
    requires IndexOfId(ws, id) < |ws| || w.id == id
    ensures IndexOfId(ws + [w], id) < |ws + [w]|
  {
    var i := IndexOfId(ws, id);
    if i < |ws| { assert (ws + [w])[i].id == id; } else { assert (ws + [w])[|ws|].id == id; }
  }

  lemma EnqueueKeepsOrder(s: State, t: State, slot: Slot)
    requires QueuesOk(s) && IdsOk(s) && LogOk(s) && FifoOk(s) && t == Enqueue(s, slot)
    requires forall y :: QueueOf(t.queues, y) ==
               if y == slot.scope then QueueOf(s.queues, y) + [Waiter(s.nextId, slot.context)] else QueueOf(s.queues, y)
    ensures FifoOk(t) && LogOk(t)
    ensures forall y, i, j :: 0 <= i < j < |QueueOf(t.queues, y)| ==>
            QueueOf(t.queues, y)[i].id < QueueOf(t.queues, y)[j].id
  {
    forall y, i | 0 <= i < |QueueOf(s.queues, y)| ensures QueueOf(s.queues, y)[i].id < s.nextId {
      assert QueuedRight(s, y, QueueOf(s.queues, y)[i]);
    }
    forall id, y, j | id in t.log && 0 <= j < |QueueOf(t.queues, y)|
      ensures InOrder(t, id, QueueOf(t.queues, y)[j].id)
    {
      if j < |QueueOf(s.queues, y)| {
        assert QueuedRight(s, y, QueueOf(s.queues, y)[j]);
        assert InOrder(s, id, QueueOf(s.queues, y)[j].id);
      }
    }
    forall i, j | 0 <= i < j < |t.log| ensures InOrder(t, t.log[i], t.log[j]) {
      assert s.log[i] in s.log && s.log[j] in s.log;
      assert InOrder(s, s.log[i], s.log[j]);
    }
  }

  lemma RejectQueues(s: State, scope: Scope, id: nat, why: Outcome)
    requires Distinct(s.queues) && IsQueued(s, scope, id)
    ensures var t, i := Reject(s, scope, id, why), IndexOfId(QueueOf(s.queues, scope), id);
            && Distinct(t.queues)
            && Total(t.queues) == Total(s.queues) - 1
            && (forall y :: QueueOf(t.queues, y) ==
                  if y == scope then Without(QueueOf(s.queues, scope), i) else QueueOf(s.queues, y))
  {
    var ws := QueueOf(s.queues, scope);
    ShrinkQueue(s.queues, scope, Without(ws, IndexOfId(ws, id)));
  }

  lemma RejectKeepsCore(lim: Limits, s: State, scope: Scope, id: nat, why: Outcome)
    requires Core(lim, s) && why != Admitted
    ensures Core(lim, Reject(s, scope, id, why))
  {
    if IsQueued(s, scope, id) {
      var ws, t := QueueOf(s.queues, scope), Reject(s, scope, id, why);
      var i := IndexOfId(ws, id);
      RejectQueues(s, scope, id, why);
      assert QueuedRight(s, scope, ws[i]);
      LeaveKeepsQueues(s, t, scope, i, why);
      RejectKeepsOrder(s, t, scope, i);
      assert LogOk(t);
    }
  }

  lemma RejectKeepsOrder(s: State, t: State, scope: Scope, i: nat)
    requires FifoOk(s) && i < |QueueOf(s.queues, scope)|
    requires t.log == s.log && t.origin == s.origin
    requires forall y :: QueueOf(t.queues, y) ==
               if y == scope then Without(QueueOf(s.queues, scope), i) else QueueOf(s.queues, y)
    ensures FifoOk(t)
  {
    forall g, y, j | g in t.log && 0 <= j < |QueueOf(t.queues, y)| ensures InOrder(t, g, QueueOf(t.queues, y)[j].id) {
      var j' := if y == scope && j >= i then j + 1 else j;
      assert QueueOf(t.queues, y)[j] == QueueOf(s.queues, y)[j'];
      assert InOrder(s, g, QueueOf(s.queues, y)[j'].id);
    }
    forall a, c | 0 <= a < c < |t.log| ensures InOrder(t, t.log[a], t.log[c]) {
      assert InOrder(s, s.log[a], s.log[c]);
    }
  }

  /** The state between giving a slot back and draining. */
  function Vacate(s: State, id: nat): State
    requires Live(s, id)
  {
    s.(busy := s.busy - {s.origin[id]}, running := s.running - 1)
  }

  lemma VacateKeepsCore(lim: Limits, s: State, id: nat)
    requires Core(lim, s) && Live(s, id)
    ensures Core(lim, Vacate(s, id))
    ensures forall y :: BusyOf(Vacate(s, id).busy, y) ==
              if y == s.origin[id].scope then BusyOf(s.busy, y) - {s.origin[id].context} else BusyOf(s.busy, y)
  {
    var b, t := s.origin[id], Vacate(s, id);
    forall y ensures BusyOf(t.busy, y) == if y == b.scope then BusyOf(s.busy, y) - {b.context} else BusyOf(s.busy, y)
             ensures |BusyOf(t.busy, y)| <= lim.perCaller {
      BusyOfRemove(s.busy, b, y);
      assert |BusyOf(s.busy, y)| <= lim.perCaller;
    }
    assert t.busy.Keys == s.busy.Keys - {b};
    forall i, j | 0 <= i < j < |t.log| ensures InOrder(t, t.log[i], t.log[j]) { assert InOrder(s, s.log[i], s.log[j]); }
    forall g, y, j | g in t.log && 0 <= j < |QueueOf(t.queues, y)| ensures InOrder(t, g, QueueOf(t.queues, y)[j].id) {
      assert InOrder(s, g, QueueOf(s.queues, y)[j].id);
    }
    forall y, i | 0 <= i < |QueueOf(t.queues, y)| ensures QueuedRight(t, y, QueueOf(t.queues, y)[i]) {
      assert QueuedRight(s, y, QueueOf(s.queues, y)[i]);
    }
    forall g | g in t.origin && g !in t.outcomes ensures IsQueued(t, t.origin[g].scope, g) {
      assert IsQueued(s, s.origin[g].scope, g);
    }
  }

  // ---------------------------------------------------------------- one admission at most

  /** After one admission from a state in which only `scope` could be served, nothing more is admissible. */
  ghost predicate OnceOnly(lim: Limits, s: State, scope: Scope) {
    && (forall y :: y != scope ==> !Eligible(lim, s, y))
    && (Eligible(lim, s, scope) ==> !Eligible(lim, Admit(s, scope), scope))
  }

  lemma AdmitOthers(lim: Limits, s: State, x: Scope, y: Scope)
    requires Distinct(s.queues) && Next(s, x) < |QueueOf(s.queues, x)| && y != x
    ensures Eligible(lim, Admit(s, x), y) == Eligible(lim, s, y)
  {
    AdmitQueues(s, x);
    AdmitBusy(s, x);
    hide Admit;
  }

  /** Draining a state in which one admission exhausts what is admissible admits at most one waiter. */
  lemma DrainOnce(lim: Limits, s: State, scope: Scope)
    requires Distinct(s.queues) && s.running < lim.global
    requires s.running + 1 == lim.global || OnceOnly(lim, s, scope)
    ensures var k := FirstEligible(lim, s, 0);
            Drain(lim, s) == if k == |s.queues| then s else Admit(s, s.queues[k].scope)
  {
    var k := FirstEligible(lim, s, 0);
    if k < |s.queues| {
      var x := s.queues[k].scope;
      AdmitQueues(s, x);
      var t := Admit(s, x);
      if t.running < lim.global {
        forall y ensures !Eligible(lim, t, y) {
          if y != x { AdmitOthers(lim, s, x, y); }
        }
        assert FirstEligible(lim, t, 0) == |t.queues|;
      }
      assert DrainN(lim, t, Total(s.queues) - 1) == t;
    }
  }

  /** Giving a slot back when everything admissible was already running lets in one waiter of that scope. */
  lemma VacateOnce(lim: Limits, s: State, id: nat)
    requires Distinct(s.queues) && (forall y :: !Eligible(lim, s, y)) && Live(s, id)
    ensures OnceOnly(lim, Vacate(s, id), s.origin[id].scope)
  {
    var b, v := s.origin[id], Vacate(s, id);
    forall y ensures BusyOf(v.busy, y) == if y == b.scope then BusyOf(s.busy, y) - {b.context} else BusyOf(s.busy, y) {
      BusyOfRemove(s.busy, b, y);
    }
    forall y | y != b.scope ensures !Eligible(lim, v, y) { assert !Eligible(lim, s, y); }
    if Eligible(lim, v, b.scope) {
      assert !Eligible(lim, s, b.scope);
      assert b.context in BusyOf(s.busy, b.scope);
      ReplacedSlot(QueueOf(s.queues, b.scope), BusyOf(s.busy, b.scope), b.context, lim.perCaller);
      AdmitQueues(v, b.scope);
      AdmitBusy(v, b.scope);
      hide Admit;
    }
  }

  /** Swapping one busy context for the first waiter it lets in leaves no further waiter admissible. */
  lemma ReplacedSlot(ws: seq<Waiter>, taken: set<Context>, c: Context, perCaller: nat)
    requires c in taken
    requires |taken| >= perCaller || FirstFree(ws, taken) == |ws|
    requires FirstFree(ws, taken - {c}) < |ws|
    ensures var i := FirstFree(ws, taken - {c});
            var after := taken - {c} + {ws[i].context};
            |after| >= perCaller || FirstFree(Without(ws, i), after) == |Without(ws, i)|
  {
    var i := FirstFree(ws, taken - {c});
    var after, rest := taken - {c} + {ws[i].context}, Without(ws, i);
    if FirstFree(ws, taken) == |ws| {
      assert ws[i].context == c && after == taken;
      forall j | 0 <= j < |rest| ensures rest[j].context in after {
        assert rest[j] == ws[if j < i then j else j + 1];
      }
    }
  }

  lemma DrainNothing(lim: Limits, s: State)
    requires Conserved(lim, s)
    ensures Drain(lim, s) == s
  {}

  lemma ArrivalSlot(ws: seq<Waiter>, w: Waiter, taken: set<Context>, perCaller: nat)
    requires |taken| >= perCaller || FirstFree(ws, taken) == |ws|
    requires |taken| < perCaller && FirstFree(ws + [w], taken) < |ws| + 1
    ensures FirstFree(ws + [w], taken) == |ws|
    ensures FirstFree(ws, taken + {w.context}) == |ws|
  {
    assert forall j :: 0 <= j < |ws| ==> (ws + [w])[j] == ws[j];
  }

  /** When nobody was admissible, an arrival can admit only itself. */
  lemma ArrivalOnce(lim: Limits, s: State, slot: Slot)
    requires Distinct(s.queues) && (forall y :: !Eligible(lim, s, y))
    ensures OnceOnly(lim, Enqueue(s, slot), slot.scope)
    ensures Eligible(lim, Enqueue(s, slot), slot.scope) ==>
              Next(Enqueue(s, slot), slot.scope) == |QueueOf(s.queues, slot.scope)|
  {
    var e, ws, w := Enqueue(s, slot), QueueOf(s.queues, slot.scope), Waiter(s.nextId, slot.context);
    hide Enqueue, Admit, FirstFree, QueueOf, Distinct;
    EnqueueQueues(s, slot);
    forall y | y != slot.scope ensures !Eligible(lim, e, y) { assert !Eligible(lim, s, y); }
    if Eligible(lim, e, slot.scope) {
      assert !Eligible(lim, s, slot.scope);
      ArrivalSlot(ws, w, BusyOf(s.busy, slot.scope), lim.perCaller);
      assert Without(ws + [w], |ws|) == ws;
      AdmitQueues(e, slot.scope);
      AdmitBusy(e, slot.scope);
    }
  }

  lemma RejectEligible(lim: Limits, s: State, scope: Scope, id: nat, why: Outcome, y: Scope)
    requires Distinct(s.queues) && IsQueued(s, scope, id)
    requires Eligible(lim, Reject(s, scope, id, why), y)
    ensures Eligible(lim, s, y)
  {
    RejectQueues(s, scope, id, why);
    var ws, t := QueueOf(s.queues, y), Reject(s, scope, id, why);
    var i, j := IndexOfId(QueueOf(s.queues, scope), id), FirstFree(QueueOf(t.queues, y), BusyOf(t.busy, y));
    assert QueueOf(t.queues, y)[j] == ws[if y == scope && j >= i then j + 1 else j];
  }

  // ---------------------------------------------------------------- one step

  /** How far one operation can go: an arrival admits at most itself, an abort nobody, a release one waiter. */
  ghost predicate AdmissionsOf(s: State, t: State, op: Op) {
    match op
    case AcquireOp(_, _) => t.log == s.log || t.log == s.log + [s.nextId]
    case AbortOp(_) => t.log == s.log
    case ReleaseOp(_) => t.log == s.log || exists id :: t.log == s.log + [id]
  }

  lemma CoreFacts(lim: Limits, s: State)
    requires Core(lim, s)
    ensures Distinct(s.queues) && QueuesOk(s) && IdsOk(s) && s.running <= lim.global
  {}

  lemma NoneWhileFree(lim: Limits, s: State)
    requires Conserved(lim, s) && s.running < lim.global
    ensures forall y :: !Eligible(lim, s, y)
  {}

  lemma ArrivalDrain(lim: Limits, s: State, slot: Slot)
    requires Inv(lim, s)
    ensures var e := Enqueue(s, slot);
            Drain(lim, e) == e
            || (Next(e, slot.scope) == |QueueOf(s.queues, slot.scope)| < |QueueOf(e.queues, slot.scope)|
                && Drain(lim, e) == Admit(e, slot.scope))
  {
    hide Core, Conserved, QueueLimitsOk, Admit;
    var e := Enqueue(s, slot);
    CoreFacts(lim, s);
    EnqueueQueues(s, slot);
    if s.running < lim.global {
      NoneWhileFree(lim, s);
      ArrivalOnce(lim, s, slot);
      DrainOnce(lim, e, slot.scope);
    }
  }

  lemma ArrivalKeepsInv(lim: Limits, s: State, slot: Slot)
    requires Inv(lim, s)
    ensures var t := Acquire(lim, s, slot, false);
            Inv(lim, t) && AdmissionsOf(s, t, AcquireOp(slot, false))
  {
    hide Core, Conserved, QueueLimitsOk, Enqueue, Admit, Acquire, Drain;
    EnqueueKeepsCore(lim, s, slot);
    DrainKeepsCore(lim, Enqueue(s, slot));
    ArrivalDrain(lim, s, slot);
    if Drain(lim, Enqueue(s, slot)) == Enqueue(s, slot) {
      ArrivalStays(lim, s, slot);
    } else {
      ArrivalAdmitted(lim, s, slot);
    }
  }

  lemma ShorterQueues(lim: Limits, s: State, t: State)
    requires QueueLimitsOk(lim, s) && t.queued <= s.queued
    requires forall y :: |QueueOf(t.queues, y)| <= |QueueOf(s.queues, y)|
    ensures QueueLimitsOk(lim, t)
  {}

  lemma NotYetQueued(s: State, scope: Scope)
    requires QueuesOk(s) && IdsOk(s)
    ensures !IsQueued(s, scope, s.nextId)
    ensures forall c ::
              IndexOfId(QueueOf(s.queues, scope) + [Waiter(s.nextId, c)], s.nextId) == |QueueOf(s.queues, scope)|
  {
    var ws := QueueOf(s.queues, scope);
    assert forall i :: 0 <= i < |ws| ==> QueuedRight(s, scope, ws[i]);
    forall c ensures IndexOfId(ws + [Waiter(s.nextId, c)], s.nextId) == |ws| {
      assert (ws + [Waiter(s.nextId, c)])[|ws|].id == s.nextId;
    }
  }

  /** The arrival was let in at once: every queue is as it was before. */
  lemma ArrivalAdmitted(lim: Limits, s: State, slot: Slot)
    requires Inv(lim, s)
    requires var e := Enqueue(s, slot);
             && Next(e, slot.scope) == |QueueOf(s.queues, slot.scope)| < |QueueOf(e.queues, slot.scope)|
             && Drain(lim, e) == Admit(e, slot.scope)
             && Core(lim, Drain(lim, e)) && Conserved(lim, Drain(lim, e))
    ensures var t := Acquire(lim, s, slot, false);
            Inv(lim, t) && t.log == s.log + [s.nextId]
  {
    var t := Admit(Enqueue(s, slot), slot.scope);
    assert Distinct(s.queues) && QueueLimitsOk(lim, s);
    NotYetQueued(s, slot.scope);
    ArrivalUndone(s, slot);
    hide Core, Conserved, Admit, Enqueue;
    assert !IsQueued(t, slot.scope, s.nextId);
    ShorterQueues(lim, s, t);
  }

  lemma ArrivalUndone(s: State, slot: Slot)
    requires Distinct(s.queues)
    requires Next(Enqueue(s, slot), slot.scope) == |QueueOf(s.queues, slot.scope)|
    requires |QueueOf(s.queues, slot.scope)| < |QueueOf(Enqueue(s, slot).queues, slot.scope)|
    ensures var t := Admit(Enqueue(s, slot), slot.scope);
            && t.queued == s.queued && t.log == s.log + [s.nextId]
            && (forall y :: QueueOf(t.queues, y) == QueueOf(s.queues, y))
  {
    var e, ws, w := Enqueue(s, slot), QueueOf(s.queues, slot.scope), Waiter(s.nextId, slot.context);
    EnqueueQueues(s, slot);
    AdmitQueues(e, slot.scope);
    assert QueueOf(e.queues, slot.scope)[|ws|] == w;
    assert Without(ws + [w], |ws|) == ws;
  }

  /** The arrival waits, or is rejected as the one that went over a limit. */
  lemma ArrivalStays(lim: Limits, s: State, slot: Slot)
    requires Inv(lim, s) && Core(lim, Enqueue(s, slot))
    requires var e := Enqueue(s, slot); Drain(lim, e) == e && Conserved(lim, e)
    ensures var t := Acquire(lim, s, slot, false);
            Inv(lim, t) && t.log == s.log
  {
    hide Core, Conserved, QueueLimitsOk, Enqueue, Reject, QueueOf, Drain;
    var e := Enqueue(s, slot);
    CoreFacts(lim, s);
    CoreFacts(lim, e);
    EnqueueQueues(s, slot);
    NotYetQueued(s, slot.scope);
    if OverLimit(lim, e, slot.scope) {
      RejectKeepsCore(lim, e, slot.scope, s.nextId, Full);
      ArrivalRejected(lim, s, e, slot);
    } else {
      ArrivalWaits(lim, s, e, slot);
    }
  }

  lemma ArrivalWaits(lim: Limits, s: State, e: State, slot: Slot)
    requires QueueLimitsOk(lim, s) && !OverLimit(lim, e, slot.scope)
    requires forall y :: y != slot.scope ==> QueueOf(e.queues, y) == QueueOf(s.queues, y)
    ensures QueueLimitsOk(lim, e)
  {
    forall y ensures |QueueOf(e.queues, y)| <= lim.queuePerCaller {
      if y != slot.scope { assert |QueueOf(s.queues, y)| <= lim.queuePerCaller; }
    }
  }

  lemma ArrivalRejected(lim: Limits, s: State, e: State, slot: Slot)
    requires Distinct(e.queues) && QueueLimitsOk(lim, s) && Conserved(lim, e) && e.queued == s.queued + 1
    requires forall y :: QueueOf(e.queues, y) ==
               if y == slot.scope then QueueOf(s.queues, y) + [Waiter(s.nextId, slot.context)] else QueueOf(s.queues, y)
    requires IndexOfId(QueueOf(e.queues, slot.scope), s.nextId) == |QueueOf(s.queues, slot.scope)|
    ensures var t := Reject(e, slot.scope, s.nextId, Full);
            Conserved(lim, t) && QueueLimitsOk(lim, t) && t.log == e.log
  {
    var ws, w, t := QueueOf(s.queues, slot.scope), Waiter(s.nextId, slot.context),
        Reject(e, slot.scope, s.nextId, Full);
    RejectQueues(e, slot.scope, s.nextId, Full);
    assert Without(ws + [w], |ws|) == ws;
    forall y ensures QueueOf(t.queues, y) == QueueOf(s.queues, y) {}
    ShorterQueues(lim, s, t);
    forall y | Eligible(lim, t, y) ensures Eligible(lim, e, y) {
      RejectEligible(lim, e, slot.scope, s.nextId, Full, y);
    }
  }

  lemma AbortKeepsInv(lim: Limits, s: State, id: nat)
    requires Inv(lim, s)
    ensures Inv(lim, Abort(lim, s, id)) && Abort(lim, s, id).log == s.log
  {
    if id in s.origin && IsQueued(s, s.origin[id].scope, id) {
      var x := s.origin[id].scope;
      var t := Reject(s, x, id, Aborted);
      assert Distinct(s.queues) && QueueLimitsOk(lim, s);
      RejectKeepsCore(lim, s, x, id, Aborted);
      hide Core;
      RejectQueues(s, x, id, Aborted);
      forall y | Eligible(lim, t, y) ensures Eligible(lim, s, y) { RejectEligible(lim, s, x, id, Aborted, y); }
      assert Conserved(lim, t);
      DrainNothing(lim, t);
      forall y ensures |QueueOf(t.queues, y)| <= lim.queuePerCaller {
        assert |QueueOf(s.queues, y)| <= lim.queuePerCaller;
      }
    }
  }

  /** A release lets in at most one waiter. */
  lemma ReleaseAdmitsOne(lim: Limits, s: State, id: nat)
    requires Inv(lim, s) && Live(s, id)
    ensures var v := Vacate(s, id);
            var k := FirstEligible(lim, v, 0);
            Release(lim, s, id) == if k == |v.queues| then v else Admit(v, v.queues[k].scope)
  {
    assert Distinct(s.queues) && Conserved(lim, s) && s.running == |s.busy| <= lim.global;
    hide Core, QueueLimitsOk;
    if s.running < lim.global { VacateOnce(lim, s, id); }
    DrainOnce(lim, Vacate(s, id), s.origin[id].scope);
  }

  lemma AdmitGrowsLog(s: State, scope: Scope)
    requires Distinct(s.queues) && Next(s, scope) < |QueueOf(s.queues, scope)|
    ensures var t := Admit(s, scope);
            && t.queued == s.queued - 1 && t.log == s.log + [QueueOf(s.queues, scope)[Next(s, scope)].id]
            && (forall y :: |QueueOf(t.queues, y)| <= |QueueOf(s.queues, y)|)
  {
    AdmitQueues(s, scope);
  }

  lemma ReleaseAdmissions(lim: Limits, s: State, id: nat)
    requires Inv(lim, s) && Live(s, id)
    ensures AdmissionsOf(s, Release(lim, s, id), ReleaseOp(id))
    ensures Release(lim, s, id).queued <= s.queued
    ensures forall y :: |QueueOf(Release(lim, s, id).queues, y)| <= |QueueOf(s.queues, y)|
  {
    var v := Vacate(s, id);
    var k := FirstEligible(lim, v, 0);
    assert Distinct(v.queues);
    ReleaseAdmitsOne(lim, s, id);
    hide Core, Conserved, QueueLimitsOk, Admit, Drain, Release;
    if k < |v.queues| { AdmitGrowsLog(v, v.queues[k].scope); }
  }

  lemma ReleaseKeepsInv(lim: Limits, s: State, id: nat)
    requires Inv(lim, s)
    ensures Inv(lim, Release(lim, s, id)) && AdmissionsOf(s, Release(lim, s, id), ReleaseOp(id))
  {
    if Live(s, id) {
      VacateKeepsCore(lim, s, id);
      DrainKeepsCore(lim, Vacate(s, id));
      ReleaseAdmissions(lim, s, id);
      assert Core(lim, Release(lim, s, id));
      hide Core, Conserved, AdmissionsOf;
      ShorterQueues(lim, s, Release(lim, s, id));
    }
  }

  lemma RefusedKeepsInv(lim: Limits, s: State, slot: Slot)
    requires Inv(lim, s)
    ensures Inv(lim, Acquire(lim, s, slot, true)) && Acquire(lim, s, slot, true).log == s.log
  {
    var t := Acquire(lim, s, slot, true);
    forall y, i | 0 <= i < |QueueOf(t.queues, y)| ensures QueuedRight(t, y, QueueOf(t.queues, y)[i]) {
      assert QueuedRight(s, y, QueueOf(s.queues, y)[i]);
    }
    forall g | g in t.origin && g !in t.outcomes ensures IsQueued(t, t.origin[g].scope, g) {
      assert IsQueued(s, s.origin[g].scope, g);
    }
    forall i, j | 0 <= i < j < |t.log| ensures InOrder(t, t.log[i], t.log[j]) {
      assert s.log[i] in s.log && s.log[j] in s.log && InOrder(s, s.log[i], s.log[j]);
    }
    forall g, y, j | g in t.log && 0 <= j < |QueueOf(t.queues, y)| ensures InOrder(t, g, QueueOf(t.queues, y)[j].id) {
      assert QueuedRight(s, y, QueueOf(s.queues, y)[j]);
      assert InOrder(s, g, QueueOf(s.queues, y)[j].id);
    }
    forall y ensures Eligible(lim, t, y) == Eligible(lim, s, y) {}
  }

  /** Safety and work conservation, one operation: the invariant is kept, an arrival admits at most itself,
      an abort nobody and a release at most one waiter. */
  lemma StepKeepsInv(lim: Limits, s: State, op: Op)
    requires Inv(lim, s)
    ensures Inv(lim, Step(lim, s, op)) && AdmissionsOf(s, Step(lim, s, op), op)
  {
    match op
    case AcquireOp(slot, aborted) =>
      if aborted { RefusedKeepsInv(lim, s, slot); } else { ArrivalKeepsInv(lim, s, slot); }
    case AbortOp(id) => AbortKeepsInv(lim, s, id);
    case ReleaseOp(id) => ReleaseKeepsInv(lim, s, id);
  }
}
