/** The client, its sockets and the bridge as one system. Every socket is a FIFO that may lose any suffix;
    a socket the client gave up may still deliver what it was handed. The bridge accepts only the next
    number of an execution, drops lower ones and flags higher ones, and stops listening to an execution
    after a terminal frame. */
module ReplaySystem {
  import opened Options
  import opened ReplaySpec

  /** A socket given up by the client: what it was handed and how much of it the bridge has read. */
  datatype Conn = Conn(sent: seq<Wire>, delivered: nat)

  /** Everything outside the client: what the bridge accepted, which executions it stopped listening to,
      whether it ever saw a number above the one it expected, what the backends emitted (by number), and
      the number of the frame an execution overflowed on. */
  datatype World = World(
    accepted: map<Exec, seq<Body>>,
    closed: set<Exec>,
    gap: bool,
    emitted: map<Exec, seq<Body>>,
    refused: map<Exec, nat>)

  /** `sizes` are the bytes of what each run emitted, by number; `highest` is the largest frame limit any
      connection negotiated so far. */
  datatype Sys = Sys(client: Client, delivered: nat, past: seq<Conn>, world: World,
                     sizes: map<Exec, seq<nat>>, highest: Option<nat>)

  const Start := Sys(Fresh, 0, [], World(map[], {}, false, map[], map[]), map[], None)

  datatype Op =
    | AssignOp(t: Task, e: Exec)
    | EmitOp(e: Exec, body: Body, bytes: nat, now: int, failBytes: nat, ok: bool)
    | FinishOp(t: Task, e: Exec)
    | ConnectOp
    | OpenedOp
    | HelloAckOp(maxFrame: nat, now: int, failBytes: nat, good: nat)
    | TaskAckOp(e: Exec, upTo: int)
    | CancelOp(t: Task, which: Option<Exec>)
    | CloseOp(fatal: bool)
    | TerminateOp
    | StopOp
    | ExpireOp(now: int)
    | DeliverOp
    | DeliverPastOp(i: nat)

  /** What the environment may do: may a backend emit after its `handle` returned, may anybody emit on a socket
      whose replay stopped early, before its termination takes effect, and may the server negotiate a smaller
      frame limit than it did before? */
  datatype Config = Config(limits: Limits, lateEmits: bool, emitsWhileBehind: bool, lowersLimit: bool)

  predicate RetentionOn(lim: Limits) {
    lim.frames > 0 && lim.bytes > 0 && lim.age > 0
  }

  /** Fresh execution ids, honest acknowledgements, and a socket that behaves like one. */
  predicate Legal(cfg: Config, s: Sys, op: Op) {
    match op
    case AssignOp(_, e) => e !in s.client.runs
    case EmitOp(e, body, _, _, _, _) =>
      && body.Data? && e in s.client.runs
      && (cfg.lateEmits || InFlight(s.client, e))
      && (cfg.emitsWhileBehind || !(s.client.behind && s.client.ready && s.client.socket == Open))
    case ConnectOp => s.client.socket == NoSocket && !s.client.stopped
    case OpenedOp => s.client.socket == Connecting
    case HelloAckOp(maxFrame, _, _, _) =>
      && (s.client.socket == Open || s.client.socket == Closing)
      && (cfg.lowersLimit || s.highest.None? || maxFrame >= s.highest.value)
    case TaskAckOp(e, upTo) => upTo < |Accepted(s.world, e)|
    case CloseOp(_) => s.client.socket != NoSocket
    case DeliverOp => s.delivered < |s.client.sent|
    case DeliverPastOp(i) => i < |s.past| && s.past[i].delivered < |s.past[i].sent|
    case _ => true
  }

  function Accepted(w: World, e: Exec): seq<Body> {
    if e in w.accepted then w.accepted[e] else []
  }

  function Emitted(w: World, e: Exec): seq<Body> {
    if e in w.emitted then w.emitted[e] else []
  }

  /** The bridge reads one frame. */
  function Receive(w: World, f: Wire): World {
    if f.exec in w.closed || f.num < |Accepted(w, f.exec)| then w
    else if f.num > |Accepted(w, f.exec)| then w.(gap := true)
    else w.(accepted := w.accepted[f.exec := Accepted(w, f.exec) + [f.body]],
            closed := if f.body == Overflow || f.body.terminal then w.closed + {f.exec} else w.closed)
  }

  /** What a backend's emission adds to the record. */
  function Record(lim: Limits, c: Client, w: World, e: Exec, body: Body, bytes: nat): World
    requires e in c.runs
  {
    if c.runs[e].suppressed then w
    else w.(emitted := w.emitted[e := Emitted(w, e) + [body]],
            refused := if Overflows(lim, c, bytes) then w.refused[e := c.runs[e].nextSeq] else w.refused)
  }

  function Sizes(s: Sys, e: Exec): seq<nat> {
    if e in s.sizes then s.sizes[e] else []
  }

  function Raised(highest: Option<nat>, maxFrame: nat): nat {
    if highest.Some? && highest.value > maxFrame then highest.value else maxFrame
  }

  function Step(cfg: Config, s: Sys, op: Op): Sys
    requires Legal(cfg, s, op)
  {
    var c := s.client;
    match op
    case AssignOp(t, e) =>
      s.(client := Assign(c, t, e), world := s.world.(emitted := s.world.emitted[e := []]), sizes := s.sizes[e := []])
    case EmitOp(e, body, bytes, now, failBytes, ok) =>
      s.(client := Emit(cfg.limits, c, e, body, bytes, now, failBytes, ok),
         world := Record(cfg.limits, c, s.world, e, body, bytes),
         sizes := if c.runs[e].suppressed then s.sizes else s.sizes[e := Sizes(s, e) + [bytes]])
    case FinishOp(t, e) => s.(client := Finish(c, t, e))
    case ConnectOp => s.(client := Connect(c), delivered := 0)
    case OpenedOp => s.(client := c.(socket := Open))
    case HelloAckOp(maxFrame, now, failBytes, good) =>
      s.(client := HelloAck(cfg.limits, c, maxFrame, now, failBytes, good),
        highest := Some(Raised(s.highest, maxFrame)))
    case TaskAckOp(e, upTo) => s.(client := Acknowledge(c, e, upTo))
    case CancelOp(t, which) => s.(client := Cancel(c, t, which))
    case CloseOp(fatal) =>
      s.(client := Close(c, fatal), delivered := 0, past := s.past + [Conn(c.sent, s.delivered)])
    case TerminateOp => s.(client := Terminate(c))
    case StopOp => s.(client := Stop(c))
    case ExpireOp(now) => s.(client := Expire(cfg.limits, c, now))
    case DeliverOp => s.(world := Receive(s.world, c.sent[s.delivered]), delivered := s.delivered + 1)
    case DeliverPastOp(i) =>
      s.(world := Receive(s.world, s.past[i].sent[s.past[i].delivered]),
         past := s.past[i := s.past[i].(delivered := s.past[i].delivered + 1)])
  }

  /** A run: every operation is legal where it happens. */
  ghost predicate Steps(cfg: Config, s: Sys, ops: seq<Op>, t: Sys)
    decreases |ops|
  {
    if ops == [] then t == s else Legal(cfg, s, ops[0]) && Steps(cfg, Step(cfg, s, ops[0]), ops[1..], t)
  }

  // ---------------------------------------------------------------- invariant

  predicate IsAt(f: Wire, e: Exec, num: int) {
    f.exec == e && f.num == num
  }

  /** Frame `num` of `e` is among the first `n` of the list. */
  ghost predicate Has(fs: seq<Wire>, n: nat, e: Exec, num: int)
    requires n <= |fs|
  {
    exists j :: 0 <= j < n && IsAt(fs[j], e, num)
  }

  /** No gap before position `i`: the bridge already covers this frame's predecessor, or it is in front of it. */
  ghost predicate Covered(w: World, fs: seq<Wire>, i: nat)
    requires i < |fs|
  {
    fs[i].num <= |Accepted(w, fs[i].exec)| || Has(fs, i, fs[i].exec, fs[i].num - 1)
  }

  /** A frame on its way is what its run emitted under that number, or the failure that replaced it. */
  ghost predicate Genuine(w: World, f: Wire) {
    && f.exec in w.emitted && f.num < |w.emitted[f.exec]|
    && (f.body == w.emitted[f.exec][f.num] || f.body == Overflow)
    && (f.exec in w.refused && f.num == w.refused[f.exec] ==> f.body == Overflow)
  }

  ghost predicate Seen(w: World, f: Wire) {
    f.exec in w.closed || f.num < |Accepted(w, f.exec)|
  }

  ghost predicate SocketOk(w: World, fs: seq<Wire>, delivered: nat) {
    && delivered <= |fs|
    && (forall i {:trigger Covered(w, fs, i)} :: 0 <= i < |fs| ==> Covered(w, fs, i))
    && (forall i {:trigger Genuine(w, fs[i])} :: 0 <= i < |fs| ==> Genuine(w, fs[i]))
    && (forall i {:trigger Seen(w, fs[i])} :: 0 <= i < delivered ==> Seen(w, fs[i]))
  }

  /** What the bridge accepted of an execution is what was emitted, except that a failure may close the list. */
  ghost predicate PrefixOf(w: World, e: Exec) {
    var a, m := Accepted(w, e), Emitted(w, e);
    && |a| <= |m|
    && (forall k :: 0 <= k < |a| ==> a[k] == m[k] || (a[k] == Overflow && k == |a| - 1 && e in w.closed))
  }

  ghost predicate AllData(bodies: seq<Body>) {
    forall k :: 0 <= k < |bodies| ==> bodies[k].Data?
  }

  ghost predicate RunOk(w: World, c: Client, e: Exec)
    requires e in c.runs
  {
    && |Emitted(w, e)| == c.runs[e].nextSeq
    && AllData(Emitted(w, e))
    && PrefixOf(w, e)
    && (e in w.refused ==> c.runs[e].suppressed && w.refused[e] == c.runs[e].nextSeq - 1)
    && (e in w.refused && |Accepted(w, e)| > w.refused[e] ==> e in w.closed)
  }

  ghost predicate RunsOk(w: World, c: Client) {
    && c.runs.Keys == w.emitted.Keys
    && w.accepted.Keys <= c.runs.Keys && w.closed <= c.runs.Keys && w.refused.Keys <= c.runs.Keys
    && c.inflight.Values <= c.runs.Keys
    && (forall e {:trigger RunOk(w, c, e)} :: e in c.runs ==> RunOk(w, c, e))
  }

  /** A run that may still emit: in flight and not suppressed. */
  predicate Active(c: Client, e: Exec) {
    InFlight(c, e) && e in c.runs && !c.runs[e].suppressed
  }

  /** The numbers a run retains are one contiguous run that ends with its last frame and starts no later than
      the bridge's next expected number; a suppressed run retains nothing. */
  ghost predicate Contiguous(w: World, c: Client, e: Exec)
    requires e in c.runs
  {
    var r, n := Nums(c.pending, e), c.runs[e].nextSeq;
    && (forall k :: 0 <= k < |r| ==> r[k] == n - |r| + k)
    && (c.runs[e].suppressed ==> r == [])
    && (r != [] || Active(c, e) ==> n - |r| <= |Accepted(w, e)|)
  }

  ghost predicate PendingOk(w: World, c: Client) {
    && (forall f {:trigger f in c.pending} :: f in c.pending ==>
       f.wire.exec in c.runs && Genuine(w, f.wire) && f.wire.body != Overflow)
    && (forall e {:trigger Contiguous(w, c, e)} :: e in c.runs ==> Contiguous(w, c, e))
  }

  /** The last frame of the run was accepted, or was handed to the current socket. */
  ghost predicate CaughtUp(w: World, c: Client, e: Exec)
    requires e in c.runs
  {
    c.runs[e].nextSeq <= |Accepted(w, e)| || Has(c.sent, |c.sent|, e, c.runs[e].nextSeq - 1)
  }

  ghost predicate Current(w: World, c: Client) {
    && (c.ready && c.socket == Open && !c.behind ==>
          forall e {:trigger CaughtUp(w, c, e)} :: Active(c, e) ==> CaughtUp(w, c, e))
    && (c.socket == Connecting ==> !c.ready)
  }

  ghost predicate ClientOk(w: World, c: Client) {
    RunsOk(w, c) && PendingOk(w, c) && Current(w, c)
  }

  ghost predicate Inv(s: Sys) {
    && ClientOk(s.world, s.client)
    && SocketOk(s.world, s.client.sent, s.delivered)
    && (forall i {:trigger s.past[i]} :: 0 <= i < |s.past| ==> SocketOk(s.world, s.past[i].sent, s.past[i].delivered))
    && !s.world.gap
  }
}
