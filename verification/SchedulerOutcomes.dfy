/** How each call of the scheduler comes out, exactly, in every state its invariant allows: who is admitted, who
    waits, who is rejected, and what stays as it was. */
module SchedulerOutcomes {
  import opened SchedulerSpec
  import opened SchedulerProofs

  /** A slot that can be taken at once: a global one and one of the caller's are free, and the context is idle. */
  ghost predicate Takeable(lim: Limits, s: State, slot: Slot) {
    && s.running < lim.global && |BusyOf(s.busy, slot.scope)| < lim.perCaller
    && slot.context !in BusyOf(s.busy, slot.scope)
  }

  ghost predicate SameQueues(s: State, t: State) {
    forall y :: QueueOf(t.queues, y) == QueueOf(s.queues, y)
  }

  // ---------------------------------------------------------------- arrivals

  lemma ArrivalEligible(lim: Limits, s: State, slot: Slot)
    requires Inv(lim, s)
    ensures var e := Enqueue(s, slot);
            && (forall y :: y != slot.scope && e.running < lim.global ==> !Eligible(lim, e, y))
            && (e.running < lim.global && Eligible(lim, e, slot.scope) <==> Takeable(lim, s, slot))
  {
    hide Core, QueueLimitsOk, Enqueue, FirstFree, QueueOf;
    var e, ws, w := Enqueue(s, slot), QueueOf(s.queues, slot.scope), Waiter(s.nextId, slot.context);
    CoreFacts(lim, s);
    EnqueueQueues(s, slot);
    assert e.running == s.running && e.busy == s.busy by { EnqueueKeepsSlots(s, slot); }
    if s.running < lim.global {
      NoneWhileFree(lim, s);
      forall y | y != slot.scope ensures !Eligible(lim, e, y) { assert !Eligible(lim, s, y); }
      assert !Eligible(lim, s, slot.scope);
      LastIsFree(ws, w, BusyOf(s.busy, slot.scope), lim.perCaller);
    }
  }

  lemma EnqueueKeepsSlots(s: State, slot: Slot)
    ensures Enqueue(s, slot).running == s.running && Enqueue(s, slot).busy == s.busy
    ensures Enqueue(s, slot).outcomes == s.outcomes
  {}

  lemma LastIsFree(ws: seq<Waiter>, w: Waiter, taken: set<Context>, perCaller: nat)
    requires |taken| >= perCaller || FirstFree(ws, taken) == |ws|
    ensures |taken| < perCaller && FirstFree(ws + [w], taken) < |ws + [w]| <==>
            |taken| < perCaller && w.context !in taken
  {
    assert (ws + [w])[|ws|] == w;
    assert forall j :: 0 <= j < |ws| ==> (ws + [w])[j] == ws[j];
  }

  /** An arrival takes its slot at once exactly when that is free; then nobody else is touched. Otherwise it is rejected
      exactly when the queues are over a limit with it, and nothing changes; otherwise it waits, last in its scope's
      queue, without an outcome. */
  lemma ArrivalOutcome(lim: Limits, s: State, slot: Slot)
    requires Inv(lim, s)
    ensures var t, id := Step(lim, s, AcquireOp(slot, false)), s.nextId;
            var over := Total(s.queues) + 1 > lim.queueLimit
                || |QueueOf(s.queues, slot.scope)| + 1 > lim.queuePerCaller;
            && t.origin == s.origin[id := slot] && t.nextId == id + 1
            && if Takeable(lim, s, slot) then
                 && t.outcomes == s.outcomes[id := Admitted] && t.busy == s.busy[slot := id] && t.log == s.log + [id]
                 && SameQueues(s, t)
               else
                 && t.busy == s.busy && t.log == s.log
                 && if over then t.outcomes == s.outcomes[id := Full] && SameQueues(s, t)
                    else
                      && t.outcomes == s.outcomes && id !in t.outcomes
                      && (forall y :: QueueOf(t.queues, y) ==
                            if y == slot.scope then QueueOf(s.queues, y) + [Waiter(id, slot.context)]
                            else QueueOf(s.queues, y))
  {
    hide Core, Conserved, QueueLimitsOk, Eligible, Enqueue, Admit, Drain;
    var e := Enqueue(s, slot);
    ArrivalEligible(lim, s, slot);
    ArrivalDrain(lim, s, slot);
    CoreFacts(lim, s);
    EnqueueQueues(s, slot);
    NotYetQueued(s, slot.scope);
    EnqueueKeepsSlots(s, slot);
    DrainIf(lim, e, slot.scope);
    Unsettled(lim, s);
    if Takeable(lim, s, slot) {
      ArrivalUndone(s, slot);
      AdmitsNewcomer(s, slot);
      assert !IsQueued(Admit(e, slot.scope), slot.scope, s.nextId);
    } else {
      CountedQueue(lim, s);
      RejectsNewcomer(lim, s, slot);
    }
  }

  /** A drain changes something exactly when somebody may start. */
  lemma DrainIf(lim: Limits, e: State, scope: Scope)
    requires Distinct(e.queues) && forall y :: y != scope && e.running < lim.global ==> !Eligible(lim, e, y)
    ensures e.running < lim.global && Eligible(lim, e, scope) ==> Drain(lim, e) != e
    ensures !(e.running < lim.global && Eligible(lim, e, scope)) ==> Drain(lim, e) == e
  {
    if e.running < lim.global && Eligible(lim, e, scope) {
      var k := IndexOf(e.queues, scope);
      assert k < |e.queues| && e.queues[k].scope == scope;
      assert !Idle(lim, e) by { assert Eligible(lim, e, e.queues[k].scope); }
      var a := AdmitFirst(lim, e);
      assert |a.log| == |e.log| + 1;
      SomeWaiter(e.queues, k);
      LogGrows(lim, a, Total(e.queues) - 1);
    }
  }

  lemma {:induction false} SomeWaiter(qs: seq<Queue>, k: nat)
    requires k < |qs| && qs[k].waiters != []
    ensures Total(qs) > 0
  {
    if k > 0 { SomeWaiter(qs[1..], k - 1); }
  }

  lemma {:induction false} LogGrows(lim: Limits, s: State, n: nat)
    ensures |DrainN(lim, s, n).log| >= |s.log|
    decreases n
  {
    hide AdmitFirst, Idle;
    if n > 0 && !Idle(lim, s) {
      FirstIsLogged(lim, s);
      LogGrows(lim, AdmitFirst(lim, s), n - 1);
    }
  }

  lemma FirstIsLogged(lim: Limits, s: State)
    requires !Idle(lim, s)
    ensures |AdmitFirst(lim, s).log| == |s.log| + 1
  {
    hide QueueOf, FirstFree, BusyOf, Delete, Put, Without;
  }

  lemma AdmitsNewcomer(s: State, slot: Slot)
    requires Distinct(s.queues)
    requires Next(Enqueue(s, slot), slot.scope) == |QueueOf(s.queues, slot.scope)|
    requires |QueueOf(s.queues, slot.scope)| < |QueueOf(Enqueue(s, slot).queues, slot.scope)|
    ensures var t := Admit(Enqueue(s, slot), slot.scope);
            && t.outcomes == s.outcomes[s.nextId := Admitted] && t.busy == s.busy[slot := s.nextId]
            && t.origin == s.origin[s.nextId := slot] && t.nextId == s.nextId + 1
  {
    EnqueueQueues(s, slot);
    var ws, w := QueueOf(s.queues, slot.scope), Waiter(s.nextId, slot.context);
    assert QueueOf(Enqueue(s, slot).queues, slot.scope)[|ws|] == w;
  }

  lemma Unsettled(lim: Limits, s: State)
    requires Inv(lim, s)
    ensures s.nextId !in s.outcomes && s.nextId !in s.origin
  {
    assert IdsOk(s);
  }

  lemma CountedQueue(lim: Limits, s: State)
    requires Inv(lim, s)
    ensures s.queued == Total(s.queues)
  {}

  lemma RejectsNewcomer(lim: Limits, s: State, slot: Slot)
    requires Distinct(s.queues) && s.queued == Total(s.queues)
    requires forall c :: IndexOfId(QueueOf(s.queues, slot.scope) + [Waiter(s.nextId, c)], s.nextId) ==
                         |QueueOf(s.queues, slot.scope)|
    ensures var e := Enqueue(s, slot);
            var over := Total(s.queues) + 1 > lim.queueLimit
                || |QueueOf(s.queues, slot.scope)| + 1 > lim.queuePerCaller;
            && IsQueued(e, slot.scope, s.nextId) && (OverLimit(lim, e, slot.scope) <==> over)
            && (var t := Reject(e, slot.scope, s.nextId, Full);
                t.outcomes == s.outcomes[s.nextId := Full] && t.busy == s.busy && t.log == s.log && SameQueues(s, t)
                && t.origin == s.origin[s.nextId := slot] && t.nextId == s.nextId + 1)
  {
    var e, ws, w := Enqueue(s, slot), QueueOf(s.queues, slot.scope), Waiter(s.nextId, slot.context);
    EnqueueQueues(s, slot);
    EnqueueKeepsSlots(s, slot);
    assert QueueOf(e.queues, slot.scope) == ws + [w];
    RejectQueues(e, slot.scope, s.nextId, Full);
    assert Without(ws + [w], |ws|) == ws;
  }

  /** An arrival whose signal is aborted already is rejected, and nothing else happens. */
  lemma AbortedArrivalOutcome(lim: Limits, s: State, slot: Slot)
    requires Inv(lim, s)
    ensures var t, id := Step(lim, s, AcquireOp(slot, true)), s.nextId;
            && t.outcomes == s.outcomes[id := Aborted] && t.origin == s.origin[id := slot] && t.nextId == id + 1
            && t.queues == s.queues && t.busy == s.busy && t.log == s.log && t.running == s.running
            && t.queued == s.queued
  {}

  // ---------------------------------------------------------------- aborts

  /** An abort rejects a waiter that still waits, and nobody else; after any outcome it does nothing. */
  lemma AbortOutcome(lim: Limits, s: State, id: nat)
    requires Inv(lim, s)
    ensures var t := Step(lim, s, AbortOp(id));
            if id in s.origin && id !in s.outcomes then
              && t.outcomes == s.outcomes[id := Aborted] && t.busy == s.busy && t.log == s.log && t.origin == s.origin
              && (forall y :: y != s.origin[id].scope ==> QueueOf(t.queues, y) == QueueOf(s.queues, y))
              && (var ws := QueueOf(s.queues, s.origin[id].scope);
                  var i := IndexOfId(ws, id);
                  i < |ws| && QueueOf(t.queues, s.origin[id].scope) == ws[..i] + ws[i+1..])
            else t == s
  {
    hide Core, QueueLimitsOk;
    CoreFacts(lim, s);
    QueuedIsOpen(lim, s, id);
    if id in s.origin && id !in s.outcomes {
      var x := s.origin[id].scope;
      var t := Reject(s, x, id, Aborted);
      RejectQueues(s, x, id, Aborted);
      forall y | Eligible(lim, t, y) ensures Eligible(lim, s, y) { RejectEligible(lim, s, x, id, Aborted, y); }
      assert Conserved(lim, t);
      DrainNothing(lim, t);
    }
  }

  /** A promise is open exactly while its waiter is queued. */
  lemma QueuedIsOpen(lim: Limits, s: State, id: nat)
    requires Inv(lim, s)
    ensures id in s.origin ==> (IsQueued(s, s.origin[id].scope, id) <==> id !in s.outcomes)
  {
    if id in s.origin && IsQueued(s, s.origin[id].scope, id) {
      var ws := QueueOf(s.queues, s.origin[id].scope);
      assert QueuedRight(s, s.origin[id].scope, ws[IndexOfId(ws, id)]);
    }
  }

  // ---------------------------------------------------------------- releases

  /** Waiter `i` of a scope could start with these slots taken. */
  ghost predicate Startable(lim: Limits, s: State, busy: map<Slot, nat>, scope: Scope, i: nat) {
    && i < |QueueOf(s.queues, scope)| && |BusyOf(busy, scope)| < lim.perCaller
    && QueueOf(s.queues, scope)[i].context !in BusyOf(busy, scope)
  }

  /** A release of a held slot frees it and admits exactly the first waiter that can start then, in the order of the
      scopes and of the waiters of one scope; nobody if there is none. A second release does nothing. */
  lemma ReleaseOutcome(lim: Limits, s: State, id: nat)
    requires Inv(lim, s)
    ensures !Live(s, id) ==> Step(lim, s, ReleaseOp(id)) == s
    ensures Live(s, id) ==>
              var t, freed := Step(lim, s, ReleaseOp(id)), s.busy - {s.origin[id]};
              || (&& (forall x, i: nat :: !Startable(lim, s, freed, x, i))
                  && t.busy == freed && t.outcomes == s.outcomes && t.log == s.log && t.queues == s.queues)
              || (exists k: nat, i: nat ::
                    && k < |s.queues| && Startable(lim, s, freed, s.queues[k].scope, i)
                    && (forall j: nat, m: nat :: j < k ==> !Startable(lim, s, freed, s.queues[j].scope, m))
                    && (forall m: nat :: m < i ==> !Startable(lim, s, freed, s.queues[k].scope, m))
                    && Serves(s, t, freed, s.queues[k].scope, i))
  {
    if Live(s, id) {
      ReleaseAdmitsOne(lim, s, id);
      var v := Vacate(s, id);
      assert v.queues == s.queues && v.outcomes == s.outcomes && v.log == s.log;
      var k := FirstEligible(lim, v, 0);
      assert Distinct(s.queues);
      hide Inv;
      if k == |v.queues| {
        forall x, i: nat ensures !Startable(lim, s, v.busy, x, i) { NotStartable(lim, s, v, x, i); }
      } else {
        var scope := v.queues[k].scope;
        var i := FirstFree(QueueOf(v.queues, scope), BusyOf(v.busy, scope));
        forall j: nat, m: nat | j < k ensures !Startable(lim, s, v.busy, s.queues[j].scope, m) {
          NotEligible(lim, s, v, s.queues[j].scope, m);
        }
        assert Startable(lim, s, v.busy, scope, i);
        AdmitQueues(v, scope);
        assert Serves(s, Admit(v, scope), v.busy, scope, i);
      }
    }
  }

  ghost predicate Serves(s: State, t: State, busy: map<Slot, nat>, scope: Scope, i: nat) {
    && i < |QueueOf(s.queues, scope)|
    && var w := QueueOf(s.queues, scope)[i];
    && t.busy == busy[Slot(scope, w.context) := w.id] && t.outcomes == s.outcomes[w.id := Admitted]
    && t.log == s.log + [w.id]
    && QueueOf(t.queues, scope) == QueueOf(s.queues, scope)[..i] + QueueOf(s.queues, scope)[i+1..]
    && (forall y :: y != scope ==> QueueOf(t.queues, y) == QueueOf(s.queues, y))
  }

  lemma NotEligible(lim: Limits, s: State, v: State, x: Scope, i: nat)
    requires v.queues == s.queues && !Eligible(lim, v, x)
    ensures !Startable(lim, s, v.busy, x, i)
  {
    var ws, taken := QueueOf(s.queues, x), BusyOf(v.busy, x);
    if i < |ws| && FirstFree(ws, taken) == |ws| { assert ws[i].context in taken; }
  }

  lemma NotStartable(lim: Limits, s: State, v: State, x: Scope, i: nat)
    requires v.queues == s.queues && FirstEligible(lim, v, 0) == |v.queues|
    ensures !Startable(lim, s, v.busy, x, i)
  {
    var k := IndexOf(s.queues, x);
    if k < |s.queues| { NotEligible(lim, s, v, v.queues[k].scope, i); }
  }
}
