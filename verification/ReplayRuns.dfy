/** Every operation keeps the replay invariant, hence every run does, as long as backends emit only while they
    are handled and nobody emits on a socket whose replay stopped early. */
module ReplayRuns {
  import opened Options
  import opened ReplaySpec
  import opened ReplaySystem
  import opened ReplayProofs
  import opened ReplaySafety

  // ---------------------------------------------------------------- the other handlers

  /** Same runs, frames and executions in flight. */
  ghost predicate SameRuns(c: Client, d: Client) {
    d.runs == c.runs && d.pending == c.pending && d.inflight.Values <= c.inflight.Values
  }

  lemma RunsOnly(w: World, c: Client, d: Client)
    requires RunsOk(w, c) && PendingOk(w, c) && SameRuns(c, d)
    ensures RunsOk(w, d) && PendingOk(w, d)
  {
    forall y | y in d.runs ensures RunOk(w, d, y) && Contiguous(w, d, y) {
      assert RunOk(w, c, y) && Contiguous(w, c, y);
    }
  }

  lemma HelloAckOk(lim: Limits, w: World, c: Client, delivered: nat, maxFrame: nat, now: int, failBytes: nat, good: nat)
    requires ClientOk(w, c) && SocketOk(w, c.sent, delivered) && c.socket != Connecting
    ensures var t := HelloAck(lim, c, maxFrame, now, failBytes, good); ClientOk(w, t) && SocketOk(w, t.sent, delivered)
  {
    hide RunsOk, PendingOk, SocketOk, ReplayFrom, ExpireAll;
    var k := c.(ready := true, maxFrame := Some(maxFrame), behind := true);
    RunsOnly(w, c, k);
    var es := Expired(k.pending, now - lim.age);
    ExpireAllOk(w, k, es);
    var d := ExpireAll(k, es);
    if d.socket == Open { ReplayOk(w, d, delivered, 0, failBytes, good); }
  }

  lemma AcknowledgeOk(w: World, c: Client, e: Exec, upTo: int)
    requires ClientOk(w, c) && upTo < |Accepted(w, e)|
    ensures ClientOk(w, Acknowledge(c, e, upTo))
  {
    var d := Acknowledge(c, e, upTo);
    assert d.runs == c.runs && d.inflight == c.inflight;
    forall f | f in d.pending ensures f.wire.exec in d.runs && Genuine(w, f.wire) && f.wire.body != Overflow {
      InDropAcked(c.pending, e, upTo, f);
    }
    forall y | y in d.runs ensures RunOk(w, d, y) && Contiguous(w, d, y) {
      assert RunOk(w, c, y);
      AckContiguous(w, c, e, upTo, y);
    }
    forall y | Active(d, y) && d.ready && d.socket == Open && !d.behind ensures CaughtUp(w, d, y) {
      assert CaughtUp(w, c, y);
    }
  }

  lemma AckContiguous(w: World, c: Client, e: Exec, upTo: int, y: Exec)
    requires PendingOk(w, c) && y in c.runs && upTo < |Accepted(w, e)|
    ensures Contiguous(w, Acknowledge(c, e, upTo), y)
  {
    assert Contiguous(w, c, y);
    NumsDropAcked(c.pending, e, upTo, y);
    if y == e { AboveRun(Nums(c.pending, e), c.runs[e].nextSeq - |Nums(c.pending, e)|, upTo); }
  }

  lemma CancelOk(w: World, c: Client, t: Task, which: Option<Exec>)
    requires ClientOk(w, c)
    ensures ClientOk(w, Cancel(c, t, which)) && Cancel(c, t, which).sent == c.sent
  {
    if t in c.inflight && which.Some? && c.inflight[t] == which.value { SuppressOk(w, c, which.value); }
  }

  function Known(w: World, e: Exec): World {
    w.(emitted := w.emitted[e := []])
  }

  lemma NewRunOk(w: World, c: Client, t: Task, e: Exec)
    requires ClientOk(w, c) && e !in c.runs
             && (t in c.inflight ==> c.inflight[t] in c.runs && c.runs[c.inflight[t]].suppressed)
    ensures var d := c.(inflight := c.inflight[t := e], runs := c.runs[e := Run(false, 0)]);
            ClientOk(Known(w, e), d) && Grown(w, Known(w, e))
  {
    var d := c.(inflight := c.inflight[t := e], runs := c.runs[e := Run(false, 0)]);
    var v := Known(w, e);
    forall y ensures Accepted(v, y) == Accepted(w, y) {}
    HeldGenuineNew(w, v, c, e);
    NumsNone(c.pending, e);
    forall y | y in d.runs ensures RunOk(v, d, y) && Contiguous(v, d, y) {
      if y != e { assert RunOk(w, c, y) && Contiguous(w, c, y); }
    }
    forall y | Active(d, y) && d.ready && d.socket == Open && !d.behind ensures CaughtUp(v, d, y) {
      if y != e { assert CaughtUp(w, c, y); }
    }
  }

  lemma HeldGenuineNew(w: World, v: World, c: Client, e: Exec)
    requires PendingOk(w, c) && e !in c.runs && v == Known(w, e)
    ensures forall f :: f in c.pending ==>
            f.wire.exec in c.runs && f.wire.exec != e && Genuine(v, f.wire) && f.wire.body != Overflow
  {}

  lemma AssignOk(w: World, c: Client, t: Task, e: Exec)
    requires ClientOk(w, c) && e !in c.runs
    ensures ClientOk(Known(w, e), Assign(c, t, e)) && Grown(w, Known(w, e)) && Assign(c, t, e).sent == c.sent
  {
    if t in c.inflight {
      SuppressOk(w, c, c.inflight[t]);
      NewRunOk(w, RemoveExec(Suppress(c, c.inflight[t]), c.inflight[t]), t, e);
    } else {
      NewRunOk(w, c, t, e);
    }
  }

  lemma FinishOk(w: World, c: Client, t: Task, e: Exec)
    requires ClientOk(w, c)
    ensures ClientOk(w, Finish(c, t, e)) && Finish(c, t, e).sent == c.sent
  {
    var d := Finish(c, t, e);
    RunsOnly(w, c, d);
    forall y | Active(d, y) && d.ready && d.socket == Open && !d.behind ensures CaughtUp(w, d, y) {
      assert CaughtUp(w, c, y);
    }
  }

  lemma HaltOk(w: World, c: Client)
    requires ClientOk(w, c)
    ensures ClientOk(w, Halt(c)) && Halt(c).sent == c.sent && Halt(c).socket == c.socket
            && forall e :: !Active(Halt(c), e)
  {
    var d := Halt(c);
    assert d.runs.Keys == c.runs.Keys;
    forall y | y in d.runs ensures RunOk(w, d, y) && Contiguous(w, d, y) { assert RunOk(w, c, y); }
  }

  /** Nothing is said about a socket that is not open. */
  lemma NotOpenOk(w: World, c: Client, d: Client)
    requires ClientOk(w, c) && SameRuns(c, d) && d.socket != Open && (d.socket == Connecting ==> !d.ready)
    ensures ClientOk(w, d)
  {
    RunsOnly(w, c, d);
  }

  lemma CloseOk(w: World, c: Client, fatal: bool)
    requires ClientOk(w, c)
    ensures ClientOk(w, Close(c, fatal)) && Close(c, fatal).sent == []
  {
    var d := c.(socket := NoSocket, sent := [], behind := false);
    NotOpenOk(w, c, d);
    HaltOk(w, d);
  }

  lemma StopOk(w: World, c: Client)
    requires ClientOk(w, c)
    ensures ClientOk(w, Stop(c)) && Stop(c).sent == c.sent
  {
    HaltOk(w, c);
    hide Halt;
    var d := Halt(c);
    if d.socket != NoSocket { NotOpenOk(w, d, d.(socket := Closing)); }
  }

  lemma OpenedOk(w: World, c: Client)
    requires ClientOk(w, c) && c.socket == Connecting
    ensures ClientOk(w, c.(socket := Open))
  {
    RunsOnly(w, c, c.(socket := Open));
  }

  lemma NothingSent(w: World)
    ensures SocketOk(w, [], 0)
  {}

  // ---------------------------------------------------------------- steps and runs

  /** The conditions under which the bridge sees no gap. */
  predicate Orderly(cfg: Config) {
    !cfg.lateEmits && !cfg.emitsWhileBehind
  }

  ghost predicate Kept(s: Sys, t: Sys) {
    ClientOk(t.world, t.client) && SocketOk(t.world, t.client.sent, t.delivered) && PastOk(t.world, t.past)
    && t.world.gap == s.world.gap
  }

  lemma DeliverKeeps(cfg: Config, s: Sys)
    requires Inv(s) && Legal(cfg, s, DeliverOp)
    ensures Kept(s, Step(cfg, s, DeliverOp))
  {
    hide ClientOk, SocketOk, Grown;
    var fs, i := s.client.sent, s.delivered;
    NoGap(s.world, fs, i);
    ReceiveOk(s.world, s.client, fs, i);
    ReadNext(s.world, fs, i);
    ReceiveGrows(s.world, fs[i]);
    PastGrown(s.world, Receive(s.world, fs[i]), s.past);
  }

  lemma DeliverPastKeeps(cfg: Config, s: Sys, i: nat)
    requires Inv(s) && Legal(cfg, s, DeliverPastOp(i))
    ensures Kept(s, Step(cfg, s, DeliverPastOp(i)))
  {
    hide ClientOk, SocketOk, Grown, Receive;
    var fs, j := s.past[i].sent, s.past[i].delivered;
    var v := Receive(s.world, fs[j]);
    NoGap(s.world, fs, j);
    ReceiveOk(s.world, s.client, fs, j);
    ReadNext(s.world, fs, j);
    ReceiveGrows(s.world, fs[j]);
    SocketGrown(s.world, v, s.client.sent, s.delivered);
    PastGrown(s.world, v, s.past);
    var past := s.past[i := s.past[i].(delivered := j + 1)];
    forall k | 0 <= k < |past| ensures SocketOk(v, past[k].sent, past[k].delivered) {
      if k != i { assert past[k] == s.past[k]; }
    }
  }

  lemma CloseKeeps(cfg: Config, s: Sys, fatal: bool)
    requires Inv(s) && Legal(cfg, s, CloseOp(fatal))
    ensures Kept(s, Step(cfg, s, CloseOp(fatal)))
  {
    hide ClientOk, SocketOk, Close;
    CloseOk(s.world, s.client, fatal);
    NothingSent(s.world);
    var past := s.past + [Conn(s.client.sent, s.delivered)];
    forall k | 0 <= k < |past| ensures SocketOk(s.world, past[k].sent, past[k].delivered) {
      if k < |s.past| { assert past[k] == s.past[k]; }
    }
  }

  lemma EmitKeeps(cfg: Config, s: Sys, op: Op)
    requires Inv(s) && op.EmitOp? && Legal(cfg, s, op)
    requires !s.client.runs[op.e].suppressed ==>
               Sound(cfg.limits, s.world, s.client, op.e, op.bytes, op.failBytes, op.ok)
    ensures Kept(s, Step(cfg, s, op))
  {
    hide ClientOk, SocketOk, Grown, Emit, Record;
    EmitOk(cfg.limits, s.world, s.client, s.delivered, op.e, op.body, op.bytes, op.now, op.failBytes, op.ok);
    PastGrown(s.world, Record(cfg.limits, s.client, s.world, op.e, op.body, op.bytes), s.past);
  }

  lemma AssignKeeps(cfg: Config, s: Sys, t: Task, e: Exec)
    requires Inv(s) && Legal(cfg, s, AssignOp(t, e))
    ensures Kept(s, Step(cfg, s, AssignOp(t, e)))
  {
    hide ClientOk, SocketOk, Grown, Assign;
    AssignOk(s.world, s.client, t, e);
    SocketGrown(s.world, Known(s.world, e), s.client.sent, s.delivered);
    PastGrown(s.world, Known(s.world, e), s.past);
  }

  /** One legal operation of an orderly configuration keeps everything, and the bridge sees no gap. */
  lemma StepKeepsInv(cfg: Config, s: Sys, op: Op)
    requires Inv(s) && Legal(cfg, s, op) && Orderly(cfg)
    ensures Inv(Step(cfg, s, op))
  {
    hide ClientOk, SocketOk, Emit, HelloAck, Acknowledge, Cancel, Assign, Finish, Close, Stop, Expire, Receive,
         Terminate;
    match op
    case AssignOp(t, e) => AssignKeeps(cfg, s, t, e);
    case EmitOp(e, _, bytes, _, failBytes, ok) =>
      if !s.client.runs[e].suppressed { ActiveSound(cfg.limits, s.world, s.client, e, bytes, failBytes, ok); }
      EmitKeeps(cfg, s, op);
    case FinishOp(t, e) => FinishOk(s.world, s.client, t, e);
    case ConnectOp =>
      NotOpenOk(s.world, s.client, Connect(s.client));
      NothingSent(s.world);
    case OpenedOp => OpenedOk(s.world, s.client);
    case HelloAckOp(m, now, fb, good) => HelloAckOk(cfg.limits, s.world, s.client, s.delivered, m, now, fb, good);
    case TaskAckOp(e, upTo) =>
      AcknowledgeOk(s.world, s.client, e, upTo);
      assert Acknowledge(s.client, e, upTo).sent == s.client.sent by { SentUnchanged(s.client, e, upTo); }
    case CancelOp(t, which) => CancelOk(s.world, s.client, t, which);
    case CloseOp(fatal) => CloseKeeps(cfg, s, fatal);
    case TerminateOp => TerminateOk(s.world, s.client);
    case StopOp => StopOk(s.world, s.client);
    case ExpireOp(now) => ExpireOk(cfg.limits, s.world, s.client, now);
    case DeliverOp => DeliverKeeps(cfg, s);
    case DeliverPastOp(i) => DeliverPastKeeps(cfg, s, i);
  }

  lemma SentUnchanged(c: Client, e: Exec, upTo: int)
    ensures Acknowledge(c, e, upTo).sent == c.sent
  {}

  lemma ExpireOk(lim: Limits, w: World, c: Client, now: int)
    requires ClientOk(w, c)
    ensures ClientOk(w, Expire(lim, c, now)) && Expire(lim, c, now).sent == c.sent
  {
    hide ClientOk, ExpireAll;
    ExpireAllOk(w, c, Expired(c.pending, now - lim.age));
  }

  lemma {:induction false} RunKeepsInv(cfg: Config, s: Sys, ops: seq<Op>, t: Sys)
    requires Inv(s) && Steps(cfg, s, ops, t) && Orderly(cfg)
    ensures Inv(t)
    decreases |ops|
  {
    hide Inv, Step, Legal;
    if ops != [] {
      StepKeepsInv(cfg, s, ops[0]);
      RunKeepsInv(cfg, Step(cfg, s, ops[0]), ops[1..], t);
    }
  }

  lemma StartInv()
    ensures Inv(Start)
  {}
}
