/** Which single emission can make a gap. `NeverGapsExactly` speaks of all runs of an environment; here it is one
    emission from one state, and everything after it is orderly. */
module ReplayEmissions {
  import opened Options
  import opened ReplaySpec
  import opened ReplaySystem
  import opened ReplayProofs
  import opened ReplaySafety
  import opened ReplayRuns
  import opened ReplayGaps
  import Retention = ReplayRetention

  /** The same environment, in which every later emission is in flight and on a socket that is not behind. */
  function Strict(cfg: Config): Config {
    cfg.(lateEmits := false, emitsWhileBehind := false)
  }

  ghost predicate GapFollows(cfg: Config, s: Sys) {
    exists ops, t :: Steps(Strict(cfg), s, ops, t) && t.world.gap
  }

  predicate Closes(f: Wire, e: Exec) {
    f.exec == e && (f.body == Overflow || f.body.terminal)
  }

  /** The bridge listens to the execution, and nothing on the current socket will end that. */
  ghost predicate StillOpen(s: Sys, e: Exec) {
    && e !in s.world.closed
    && (forall j {:trigger s.client.sent[j]} :: s.delivered <= j < |s.client.sent| ==> !Closes(s.client.sent[j], e))
  }

  lemma GapNow(cfg: Config, s: Sys)
    requires s.world.gap
    ensures GapFollows(cfg, s)
  {
    assert Steps(Strict(cfg), s, [], s);
  }

  lemma GapLater(cfg: Config, s: Sys, op: Op)
    requires Legal(Strict(cfg), s, op) && GapFollows(cfg, Step(Strict(cfg), s, op))
    ensures GapFollows(cfg, s)
  {
    hide Legal, Step;
    var rest, t :| Steps(Strict(cfg), Step(Strict(cfg), s, op), rest, t) && t.world.gap;
    assert ([op] + rest)[1..] == rest;
    assert Steps(Strict(cfg), s, [op] + rest, t);
  }

  // ---------------------------------------------------------------- reading a socket to its end

  /** When the last frame of the socket skips a number and nothing in front of it supplies that number, reading
      the socket to its end shows a gap. */
  lemma {:induction false} DrainGap(cfg: Config, s: Sys, e: Exec, n: nat)
    requires s.delivered < |s.client.sent| && IsAt(s.client.sent[|s.client.sent| - 1], e, n)
    requires e !in s.world.closed && |Accepted(s.world, e)| < n
    requires forall j :: s.delivered <= j < |s.client.sent| - 1 ==>
               !Closes(s.client.sent[j], e) && !IsAt(s.client.sent[j], e, n - 1)
    ensures GapFollows(cfg, s)
    decreases |s.client.sent| - s.delivered
  {
    hide GapFollows;
    var t := Step(Strict(cfg), s, DeliverOp);
    if s.delivered == |s.client.sent| - 1 {
      assert t.world.gap;
      GapNow(cfg, t);
    } else {
      ReadsOther(s.world, s.client.sent[s.delivered], e, n);
      DrainGap(cfg, t, e, n);
    }
    GapLater(cfg, s, DeliverOp);
  }

  lemma ReadsOther(w: World, f: Wire, e: Exec, n: nat)
    requires e !in w.closed && |Accepted(w, e)| < n && !Closes(f, e) && !IsAt(f, e, n - 1)
    ensures e !in Receive(w, f).closed && |Accepted(Receive(w, f), e)| < n
  {}

  // ---------------------------------------------------------------- a frame that goes out too early

  lemma OutSent(lim: Limits, c: Client, e: Exec, body: Body, bytes: nat, now: int, failBytes: nat, ok: bool)
    requires e in c.runs && !c.runs[e].suppressed && GoesOut(lim, c, bytes, failBytes, ok)
    ensures var d := Emit(lim, c, e, body, bytes, now, failBytes, ok);
            |d.sent| == |c.sent| + 1 && d.sent[..|c.sent|] == c.sent && IsAt(d.sent[|c.sent|], e, c.runs[e].nextSeq)
  {
    hide Overflows;
    EmitCases(lim, c, e, body, bytes, now, failBytes, ok);
    if Overflows(lim, c, bytes) {
      var d := RemoveExec(Suppress(c, e), e);
      assert d.ready == c.ready && d.socket == c.socket && d.maxFrame == c.maxFrame && d.sent == c.sent by {
        hide DropExec, Bytes;
      }
      hide RemoveExec, Suppress;
    }
  }

  lemma SkipsNow(cfg: Config, s: Sys, op: Op)
    requires Inv(s) && op.EmitOp? && Legal(cfg, s, op) && !s.client.runs[op.e].suppressed && StillOpen(s, op.e)
    requires GoesOut(cfg.limits, s.client, op.bytes, op.failBytes, op.ok) && !MayFollow(s.world, s.client, op.e)
    ensures GapFollows(cfg, Step(cfg, s, op))
  {
    hide ClientOk, Emit, GapFollows;
    var c, t, n := s.client, Step(cfg, s, op), s.client.runs[op.e].nextSeq;
    OutSent(cfg.limits, c, op.e, op.body, op.bytes, op.now, op.failBytes, op.ok);
    forall j | t.delivered <= j < |t.client.sent| - 1
      ensures !Closes(t.client.sent[j], op.e) && !IsAt(t.client.sent[j], op.e, n - 1)
    {
      assert t.client.sent[j] == c.sent[j];
    }
    DrainGap(cfg, t, op.e, n);
  }

  // ---------------------------------------------------------------- a frame that is replayed too early

  lemma {:induction false} Earliest(p: seq<Frame>) returns (cutoff: int)
    ensures forall f :: f in p ==> f.createdAt > cutoff
  {
    if p == [] { return 0; }
    var early := Earliest(p[..|p|-1]);
    var last := p[|p|-1];
    cutoff := if last.createdAt <= early then last.createdAt - 1 else early;
    assert p == p[..|p|-1] + [last];
  }

  lemma {:induction false} NoneExpired(p: seq<Frame>, cutoff: int)
    requires forall f :: f in p ==> f.createdAt > cutoff
    ensures Expired(p, cutoff) == []
  {
    if p != [] {
      assert p[|p|-1] in p;
      NoneExpired(p[..|p|-1], cutoff);
    }
  }

  lemma {:induction false} EachWithin(p: seq<Frame>)
    ensures forall f :: f in p ==> f.bytes <= Bytes(p)
  {
    if p != [] {
      EachWithin(p[..|p|-1]);
      assert p == p[..|p|-1] + [p[|p|-1]];
    }
  }

  /** After the connection is lost a new one can be handed the whole queue. */
  lemma ReplaysAll(lim: Limits, c: Client, maxFrame: nat, cutoff: int)
    requires c.socket == Open && c.sent == [] && maxFrame >= Bytes(c.pending)
    requires forall f :: f in c.pending ==> f.createdAt > cutoff
    ensures HelloAck(lim, c, maxFrame, cutoff + lim.age, 0, |c.pending|).sent == Retention.Wires(c.pending)
  {
    hide Expired, ReplayFrom;
    var k := c.(ready := true, maxFrame := Some(maxFrame), behind := true);
    NoneExpired(k.pending, cutoff);
    EachWithin(k.pending);
    assert Expire(lim, k, cutoff + lim.age) == k;
    Retention.ReplayHandsOver(k, 0, 0, |k.pending|);
    assert k.pending[0..] == k.pending && [] + Retention.Wires(k.pending) == Retention.Wires(k.pending);
  }

  /** A state without a socket whose last retained frame skips a number the bridge waits for. */
  ghost predicate Broken(s: Sys, e: Exec, n: nat) {
    && !s.client.stopped && e !in s.world.closed && |Accepted(s.world, e)| < n
    && s.client.pending != [] && IsAt(s.client.pending[|s.client.pending| - 1].wire, e, n)
    && (forall j {:trigger s.client.pending[j]} :: 0 <= j < |s.client.pending| - 1 ==>
       s.client.pending[j].wire.exec != e)
  }

  lemma Reconnected(cfg: Config, s: Sys, e: Exec, n: nat)
    requires Broken(s, e, n) && s.client.socket == NoSocket
    ensures GapFollows(cfg, s)
  {
    hide Expire, ReplayFrom, GapFollows;
    var p, strict := s.client.pending, Strict(cfg);
    var cutoff := Earliest(p);
    var m := Raised(s.highest, Bytes(p));
    var a := Step(strict, s, ConnectOp);
    var b := Step(strict, a, OpenedOp);
    var hello := HelloAckOp(m, cutoff + cfg.limits.age, 0, |p|);
    ReplaysAll(cfg.limits, b.client, m, cutoff);
    hide HelloAck;
    var t := Step(strict, b, hello);
    forall j | 0 <= j < |t.client.sent| - 1 ensures !Closes(t.client.sent[j], e) && !IsAt(t.client.sent[j], e, n - 1) {
      assert t.client.sent[j] == p[j].wire;
    }
    DrainGap(cfg, t, e, n);
    GapLater(cfg, b, hello);
    GapLater(cfg, a, OpenedOp);
    GapLater(cfg, s, ConnectOp);
  }

  lemma BreaksLater(cfg: Config, s: Sys, e: Exec, n: nat)
    requires Broken(s, e, n)
    ensures GapFollows(cfg, s)
  {
    hide GapFollows;
    if s.client.socket == NoSocket {
      Reconnected(cfg, s, e, n);
    } else {
      Reconnected(cfg, Step(Strict(cfg), s, CloseOp(false)), e, n);
      GapLater(cfg, s, CloseOp(false));
    }
  }

  lemma EmitQueue(lim: Limits, c: Client, e: Exec, body: Body, bytes: nat, now: int, failBytes: nat, ok: bool)
    requires e in c.runs && !c.runs[e].suppressed && !Overflows(lim, c, bytes)
    ensures var d := Emit(lim, c, e, body, bytes, now, failBytes, ok);
            d.stopped == c.stopped && d.pending == c.pending + [Frame(Wire(e, c.runs[e].nextSeq, body), bytes, now)]
  {
    EmitCases(lim, c, e, body, bytes, now, failBytes, ok);
  }

  lemma SkipsLater(cfg: Config, s: Sys, op: Op)
    requires Inv(s) && op.EmitOp? && Legal(cfg, s, op) && !s.client.runs[op.e].suppressed && StillOpen(s, op.e)
    requires !s.client.stopped && !Overflows(cfg.limits, s.client, op.bytes) && !Reaches(s.world, s.client, op.e)
    ensures GapFollows(cfg, Step(cfg, s, op))
  {
    hide GapFollows, Overflows, Emit;
    var c, t, e := s.client, Step(cfg, s, op), op.e;
    assert Contiguous(s.world, c, e);
    EmitQueue(cfg.limits, c, e, op.body, op.bytes, op.now, op.failBytes, op.ok);
    forall j | 0 <= j < |c.pending| ensures c.pending[j].wire.exec != e { NumAt(c.pending, j); }
    forall j | 0 <= j < |t.client.pending| - 1 ensures t.client.pending[j].wire.exec != e {
      assert t.client.pending[j] == c.pending[j];
    }
    assert Accepted(t.world, e) == Accepted(s.world, e);
    BreaksLater(cfg, t, e, c.runs[e].nextSeq);
  }

  // ---------------------------------------------------------------- exactly

  /** From a state that keeps the invariant, an emission of an execution the bridge listens to can lead to a gap if
      and only if its frame goes out although its predecessor is neither accepted nor on the socket, or it is
      retained although the frames before it are neither accepted nor retained. */
  lemma EmissionGapExactly(cfg: Config, s: Sys, op: Op)
    requires Inv(s) && op.EmitOp? && Legal(cfg, s, op) && !s.client.runs[op.e].suppressed && StillOpen(s, op.e)
    requires !s.client.stopped
    ensures GapFollows(cfg, Step(cfg, s, op)) <==>
              !Sound(cfg.limits, s.world, s.client, op.e, op.bytes, op.failBytes, op.ok)
  {
    if Sound(cfg.limits, s.world, s.client, op.e, op.bytes, op.failBytes, op.ok) {
      assert Inv(Step(cfg, s, op)) by { EmitKeeps(cfg, s, op); }
      hide Inv, Step, Sound;
      forall ops, t | Steps(Strict(cfg), Step(cfg, s, op), ops, t) ensures !t.world.gap {
        RunKeepsInv(Strict(cfg), Step(cfg, s, op), ops, t);
        GapFree(t);
      }
    } else if GoesOut(cfg.limits, s.client, op.bytes, op.failBytes, op.ok) && !MayFollow(s.world, s.client, op.e) {
      SkipsNow(cfg, s, op);
    } else {
      SkipsLater(cfg, s, op);
    }
  }

  lemma GapFree(s: Sys)
    requires Inv(s)
    ensures !s.world.gap
  {}

  // ---------------------------------------------------------------- one run

  /** Every emission of the run is sound where it happens. */
  ghost predicate SoundRun(cfg: Config, s: Sys, ops: seq<Op>, t: Sys)
    requires Steps(cfg, s, ops, t)
    decreases |ops|
  {
    ops != [] ==>
      && (ops[0].EmitOp? && !s.client.runs[ops[0].e].suppressed ==>
            Sound(cfg.limits, s.world, s.client, ops[0].e, ops[0].bytes, ops[0].failBytes, ops[0].ok))
      && SoundRun(cfg, Step(cfg, s, ops[0]), ops[1..], t)
  }

  /** A run whose emissions are sound shows no gap, whatever else its environment would allow. */
  lemma {:induction false} SoundRunKeepsInv(cfg: Config, s: Sys, ops: seq<Op>, t: Sys)
    requires Inv(s) && Steps(cfg, s, ops, t) && SoundRun(cfg, s, ops, t)
    ensures Inv(t) && !t.world.gap
    decreases |ops|
  {
    hide Inv, Step, Legal, Sound;
    if ops == [] {
      GapFree(s);
    } else {
      SoundStep(cfg, s, ops[0]);
      SoundRunKeepsInv(cfg, Step(cfg, s, ops[0]), ops[1..], t);
    }
  }

  lemma SoundStep(cfg: Config, s: Sys, op: Op)
    requires Inv(s) && Legal(cfg, s, op)
    requires op.EmitOp? && !s.client.runs[op.e].suppressed ==>
               Sound(cfg.limits, s.world, s.client, op.e, op.bytes, op.failBytes, op.ok)
    ensures Inv(Step(cfg, s, op))
  {
    if op.EmitOp? {
      EmitKeeps(cfg, s, op);
    } else {
      assert Legal(Strict(cfg), s, op) && Step(Strict(cfg), s, op) == Step(cfg, s, op) by { OtherStep(cfg, s, op); }
      hide Inv, Step, Legal;
      StepKeepsInv(Strict(cfg), s, op);
    }
  }

  lemma OtherStep(cfg: Config, s: Sys, op: Op)
    requires Legal(cfg, s, op) && !op.EmitOp?
    ensures Legal(Strict(cfg), s, op) && Step(Strict(cfg), s, op) == Step(cfg, s, op)
  {
    hide HelloAck, Expire, Receive;
  }
}
