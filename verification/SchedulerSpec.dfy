/** The admission scheduler as a state machine over values: what one call of
    `acquire`, an abort signal or a release closure does to the whole state,
    and what every run of such calls keeps. */
module SchedulerSpec {
  type Scope = string
  type Context = string

  datatype Limits = Limits(perCaller: nat, global: nat, queuePerCaller: nat, queueLimit: nat)

  /** A pending `acquire`. Its id is the identity of the waiter object; ids grow in arrival order. */
  datatype Waiter = Waiter(id: nat, context: Context)
  datatype Queue = Queue(scope: Scope, waiters: seq<Waiter>)
  datatype Slot = Slot(scope: Scope, context: Context)
  datatype Outcome = Admitted | Aborted | Full

  /** `queues` is the insertion-ordered map; `busy` maps every occupied slot to the lease that
      occupies it. `outcomes`, `log` and `origin` record how each promise settled, the order of
      admissions, and what each id asked for. */
  datatype State = State(
    queues: seq<Queue>,
    busy: map<Slot, nat>,
    running: int,
    queued: int,
    outcomes: map<nat, Outcome>,
    log: seq<nat>,
    origin: map<nat, Slot>,
    nextId: nat)

  const Initial := State([], map[], 0, 0, map[], [], map[], 0)

  datatype Op =
    | AcquireOp(slot: Slot, aborted: bool)
    | AbortOp(id: nat)
    | ReleaseOp(id: nat)

  // ---------------------------------------------------------------- operations

  function BusyOf(busy: map<Slot, nat>, scope: Scope): set<Context> {
    set b | b in busy && b.scope == scope :: b.context
  }

  /** `queue.find(item => !busy.has(item.context))`, as an index; the length when nothing is found. */
  function FirstFree(ws: seq<Waiter>, taken: set<Context>): (i: nat)
    ensures i <= |ws|
    ensures i < |ws| ==> ws[i].context !in taken
    ensures forall j :: 0 <= j < i ==> ws[j].context in taken
  {
    if ws == [] then 0
    else if ws[0].context !in taken then 0
    else 1 + FirstFree(ws[1..], taken)
  }

  function Total(qs: seq<Queue>): nat {
    if qs == [] then 0 else |qs[0].waiters| + Total(qs[1..])
  }

  /** Position of a scope in the insertion-ordered map; the length when absent. */
  function IndexOf(qs: seq<Queue>, scope: Scope): (k: nat)
    ensures k <= |qs|
    ensures k < |qs| ==> qs[k].scope == scope
    ensures forall j :: 0 <= j < k ==> qs[j].scope != scope
  {
    if qs == [] then 0
    else if qs[0].scope == scope then 0
    else 1 + IndexOf(qs[1..], scope)
  }

  function IndexOfId(ws: seq<Waiter>, id: nat): (i: nat)
    ensures i <= |ws|
    ensures i < |ws| ==> ws[i].id == id
    ensures forall j :: 0 <= j < i ==> ws[j].id != id
  {
    if ws == [] then 0 else if ws[0].id == id then 0 else 1 + IndexOfId(ws[1..], id)
  }

  function Without<T>(s: seq<T>, i: nat): seq<T>
    requires i < |s|
  {
    s[..i] + s[i+1..]
  }

  /** `Map.set`: an existing key keeps its position, a new one goes last. */
  function Put(qs: seq<Queue>, q: Queue): seq<Queue> {
    var k := IndexOf(qs, q.scope);
    if k < |qs| then qs[k := q] else qs + [q]
  }

  /** `Map.delete`. */
  function Delete(qs: seq<Queue>, scope: Scope): seq<Queue> {
    var k := IndexOf(qs, scope);
    if k < |qs| then Without(qs, k) else qs
  }

  /** The waiters of one scope; none when the map has no entry for it. */
  function QueueOf(qs: seq<Queue>, scope: Scope): seq<Waiter> {
    var k := IndexOf(qs, scope);
    if k < |qs| then qs[k].waiters else []
  }

  /** `remove`: the spliced queue stays in place, an emptied one leaves the map. */
  function Shrink(qs: seq<Queue>, scope: Scope, rest: seq<Waiter>): seq<Queue> {
    if rest == [] then Delete(qs, scope) else Put(qs, Queue(scope, rest))
  }

  /** One admission for a scope: take its first free waiter and move what is left of its queue last. */
  function Admit(s: State, scope: Scope): State
    requires FirstFree(QueueOf(s.queues, scope), BusyOf(s.busy, scope)) < |QueueOf(s.queues, scope)|
  {
    var ws := QueueOf(s.queues, scope);
    var i := FirstFree(ws, BusyOf(s.busy, scope));
    var rest := Without(ws, i);
    s.(queues := if rest == [] then Delete(s.queues, scope) else Put(Delete(s.queues, scope), Queue(scope, rest)),
       busy := s.busy[Slot(scope, ws[i].context) := ws[i].id],
       running := s.running + 1,
       queued := s.queued - 1,
       outcomes := s.outcomes[ws[i].id := Admitted],
       log := s.log + [ws[i].id])
  }

  /** The scope has a free slot of its own and a waiter whose context is not busy. */
  predicate Eligible(lim: Limits, s: State, scope: Scope) {
    var taken := BusyOf(s.busy, scope);
    |taken| < lim.perCaller && FirstFree(QueueOf(s.queues, scope), taken) < |QueueOf(s.queues, scope)|
  }

  /** The first entry from position `k` on whose scope is eligible; the length when there is none. */
  function FirstEligible(lim: Limits, s: State, k: nat): (r: nat)
    requires k <= |s.queues|
    ensures k <= r <= |s.queues|
    ensures r < |s.queues| ==> Eligible(lim, s, s.queues[r].scope)
    ensures forall j :: k <= j < r ==> !Eligible(lim, s, s.queues[j].scope)
    decreases |s.queues| - k
  {
    if k == |s.queues| then k
    else if Eligible(lim, s, s.queues[k].scope) then k
    else FirstEligible(lim, s, k + 1)
  }

  /** The drain loop ends: no free global slot, or nobody to admit. */
  predicate Idle(lim: Limits, s: State) {
    s.running >= lim.global || FirstEligible(lim, s, 0) == |s.queues|
  }

  /** One round of the drain loop. */
  function AdmitFirst(lim: Limits, s: State): State
    requires !Idle(lim, s)
  {
    Admit(s, s.queues[FirstEligible(lim, s, 0)].scope)
  }

  /** The drain loop, cut off after `n` rounds. */
  function DrainN(lim: Limits, s: State, n: nat): State
    decreases n
  {
    if n == 0 || Idle(lim, s) then s else DrainN(lim, AdmitFirst(lim, s), n - 1)
  }

  /** `drain`: every round takes a waiter out of the queues, so their number bounds the rounds. */
  function Drain(lim: Limits, s: State): State {
    DrainN(lim, s, Total(s.queues))
  }

  function Enqueue(s: State, slot: Slot): State {
    s.(queues := Put(s.queues, Queue(slot.scope, QueueOf(s.queues, slot.scope) + [Waiter(s.nextId, slot.context)])),
       queued := s.queued + 1,
       origin := s.origin[s.nextId := slot],
       nextId := s.nextId + 1)
  }

  predicate IsQueued(s: State, scope: Scope, id: nat) {
    IndexOfId(QueueOf(s.queues, scope), id) < |QueueOf(s.queues, scope)|
  }

  /** `remove(scope, waiter)` followed by a rejection with `why`; nothing when the waiter is not queued. */
  function Reject(s: State, scope: Scope, id: nat, why: Outcome): State {
    var ws := QueueOf(s.queues, scope);
    if !IsQueued(s, scope, id) then s
    else s.(queues := Shrink(s.queues, scope, Without(ws, IndexOfId(ws, id))),
            queued := s.queued - 1,
            outcomes := s.outcomes[id := why])
  }

  predicate OverLimit(lim: Limits, s: State, scope: Scope) {
    s.queued > lim.queueLimit || |QueueOf(s.queues, scope)| > lim.queuePerCaller
  }

  function Acquire(lim: Limits, s: State, slot: Slot, aborted: bool): State {
    if aborted then
      s.(outcomes := s.outcomes[s.nextId := Aborted],
         origin := s.origin[s.nextId := slot],
         nextId := s.nextId + 1)
    else
      var t := Drain(lim, Enqueue(s, slot));
      if IsQueued(t, slot.scope, s.nextId) && OverLimit(lim, t, slot.scope)
      then Reject(t, slot.scope, s.nextId, Full) else t
  }

  /** The abort listener: gone once the waiter left the queue, so a late signal does nothing. */
  function Abort(lim: Limits, s: State, id: nat): State {
    if id in s.origin && IsQueued(s, s.origin[id].scope, id)
    then Drain(lim, Reject(s, s.origin[id].scope, id, Aborted)) else s
  }

  predicate Live(s: State, id: nat) {
    id in s.origin && s.origin[id] in s.busy && s.busy[s.origin[id]] == id
  }

  /** The release closure of lease `id`; a second call finds the lease no longer live. */
  function Release(lim: Limits, s: State, id: nat): State {
    if Live(s, id)
    then Drain(lim, s.(busy := s.busy - {s.origin[id]}, running := s.running - 1)) else s
  }

  function Step(lim: Limits, s: State, op: Op): State {
    match op
    case AcquireOp(slot, aborted) => Acquire(lim, s, slot, aborted)
    case AbortOp(id) => Abort(lim, s, id)
    case ReleaseOp(id) => Release(lim, s, id)
  }

  function Run(lim: Limits, s: State, ops: seq<Op>): State
    decreases |ops|
  {
    if ops == [] then s else Run(lim, Step(lim, s, ops[0]), ops[1..])
  }

  // ---------------------------------------------------------------- invariant

  ghost predicate Distinct(qs: seq<Queue>) {
    && (forall j, k :: 0 <= j < k < |qs| ==> qs[j].scope != qs[k].scope)
    && (forall k :: 0 <= k < |qs| ==> qs[k].waiters != [])
  }

  /** One entry per scope, none empty; inside a scope arrival order; every waiter is where it asked to be. */
  ghost predicate QueuesOk(s: State) {
    && Distinct(s.queues)
    && (forall scope, i {:trigger QueuedRight(s, scope, QueueOf(s.queues, scope)[i])} ::
          0 <= i < |QueueOf(s.queues, scope)| ==> QueuedRight(s, scope, QueueOf(s.queues, scope)[i]))
    && (forall scope, i, j :: 0 <= i < j < |QueueOf(s.queues, scope)| ==>
          QueueOf(s.queues, scope)[i].id < QueueOf(s.queues, scope)[j].id)
  }

  ghost predicate QueuedRight(s: State, scope: Scope, w: Waiter) {
    w.id in s.origin && s.origin[w.id] == Slot(scope, w.context) && w.id !in s.outcomes
  }

  /** Every id ever handed out has an origin and is either still queued or settled. */
  ghost predicate IdsOk(s: State) {
    && (forall id :: id in s.origin <==> 0 <= id < s.nextId)
    && (forall id :: id in s.outcomes ==> id in s.origin)
    && (forall id {:trigger IsQueued(s, s.origin[id].scope, id)} :: id in s.origin && id !in s.outcomes ==>
       IsQueued(s, s.origin[id].scope, id))
  }

  /** The log lists exactly the admitted ids, each once; whoever holds a slot asked for it and was admitted. */
  ghost predicate LogOk(s: State) {
    && (forall id :: id in s.log <==> id in s.outcomes && s.outcomes[id] == Admitted)
    && (forall i, j :: 0 <= i < j < |s.log| ==> s.log[i] != s.log[j])
    && (forall b :: b in s.busy ==> s.busy[b] in s.log && s.busy[b] in s.origin && s.origin[s.busy[b]] == b)
  }

  /** First in, first out within one scope and context: among admissions, and of admissions before the queued. */
  ghost predicate FifoOk(s: State) {
    && (forall i, j {:trigger InOrder(s, s.log[i], s.log[j])} :: 0 <= i < j < |s.log| ==>
       InOrder(s, s.log[i], s.log[j]))
    && (forall id, scope, j {:trigger InOrder(s, id, QueueOf(s.queues, scope)[j].id)} ::
          id in s.log && 0 <= j < |QueueOf(s.queues, scope)| ==>
          InOrder(s, id, QueueOf(s.queues, scope)[j].id))
  }

  ghost predicate InOrder(s: State, first: nat, second: nat) {
    first in s.origin && second in s.origin && s.origin[first] == s.origin[second] ==> first < second
  }

  /** Counters are exact and no running limit is exceeded. */
  ghost predicate CountsOk(lim: Limits, s: State) {
    && s.queued == Total(s.queues)
    && s.running == |s.busy|
    && s.running <= lim.global
    && (forall scope :: |BusyOf(s.busy, scope)| <= lim.perCaller)
  }

  ghost predicate QueueLimitsOk(lim: Limits, s: State) {
    && s.queued <= lim.queueLimit
    && (forall scope :: |QueueOf(s.queues, scope)| <= lim.queuePerCaller)
  }

  /** Work conservation: a free global slot means that no scope has an admissible waiter. */
  ghost predicate Conserved(lim: Limits, s: State) {
    s.running < lim.global ==> forall scope :: !Eligible(lim, s, scope)
  }

  /** What holds inside an operation. */
  ghost predicate Core(lim: Limits, s: State) {
    QueuesOk(s) && IdsOk(s) && LogOk(s) && FifoOk(s) && CountsOk(lim, s)
  }

  /** What holds between operations. */
  ghost predicate Inv(lim: Limits, s: State) {
    Core(lim, s) && QueueLimitsOk(lim, s) && Conserved(lim, s)
  }
}
