/** What replay promises over whole runs, and exactly when. */
module ReplayGaps {
  import opened Options
  import opened ReplaySpec
  import opened ReplaySystem
  import opened ReplaySafety
  import opened ReplayRuns
  import Retention = ReplayRetention

  ghost predicate Reachable(cfg: Config, s: Sys) {
    exists ops :: Steps(cfg, Start, ops, s)
  }

  ghost predicate NeverGaps(cfg: Config) {
    forall s :: Reachable(cfg, s) ==> !s.world.gap
  }

  // ---------------------------------------------------------------- safety

  lemma ReachableInv(cfg: Config, s: Sys)
    requires Reachable(cfg, s) && Orderly(cfg)
    ensures Inv(s)
  {
    var ops :| Steps(cfg, Start, ops, s);
    StartInv();
    RunKeepsInv(cfg, Start, ops, s);
  }

  /** In every orderly run, what the bridge accepted of an execution is an in-order, duplicate-free prefix of
      what its backend emitted; only a failure, as its last frame, may stand in for an emission. */
  lemma AcceptedIsPrefix(cfg: Config, s: Sys, e: Exec)
    requires Reachable(cfg, s) && Orderly(cfg)
    ensures |Accepted(s.world, e)| <= |Emitted(s.world, e)|
    ensures forall k :: 0 <= k < |Accepted(s.world, e)| && Accepted(s.world, e)[k] != Overflow ==>
              Accepted(s.world, e)[k] == Emitted(s.world, e)[k]
    ensures forall k :: 0 <= k < |Accepted(s.world, e)| && Accepted(s.world, e)[k] == Overflow ==>
              k == |Accepted(s.world, e)| - 1 && e in s.world.closed
  {
    ReachableInv(cfg, s);
    if e in s.client.runs { assert RunOk(s.world, s.client, e); }
  }

  /** A socket of the system: the current one, or one the client gave up. */
  ghost predicate IsSocket(s: Sys, k: Conn) {
    k == Conn(s.client.sent, s.delivered) || k in s.past
  }

  /** A frame of an open execution that the bridge is about to read, on any socket, is never ahead of it. The
      failure that replaced an emission over a limit carries exactly the next expected number. */
  lemma FailureIsNext(cfg: Config, s: Sys, k: Conn)
    requires Reachable(cfg, s) && Orderly(cfg) && IsSocket(s, k) && k.delivered < |k.sent|
    ensures var f := k.sent[k.delivered];
            f.exec !in s.world.closed ==>
              && f.num <= |Accepted(s.world, f.exec)|
              && (f.exec in s.world.refused && s.world.refused[f.exec] == f.num ==>
                    f.num == |Accepted(s.world, f.exec)| && f.body == Overflow)
  {
    ReachableInv(cfg, s);
    var f := k.sent[k.delivered];
    SocketFacts(s, k);
    assert RunOk(s.world, s.client, f.exec);
  }

  lemma SocketFacts(s: Sys, k: Conn)
    requires Inv(s) && IsSocket(s, k) && k.delivered < |k.sent|
    ensures var f := k.sent[k.delivered];
            Genuine(s.world, f) && (f.exec in s.world.closed || f.num <= |Accepted(s.world, f.exec)|)
  {
    hide ClientOk;
    assert SocketOk(s.world, k.sent, k.delivered);
    NoGap(s.world, k.sent, k.delivered);
    assert Genuine(s.world, k.sent[k.delivered]);
  }

  // ---------------------------------------------------------------- retention

  /** Under any configuration, gaps or not: the byte counter is exact, both limits hold, each execution retains
      one contiguous run of numbers, and a suppressed one nothing. */
  lemma ReachableRetains(cfg: Config, s: Sys)
    requires Reachable(cfg, s)
    ensures Retention.Retained(cfg.limits, s.client)
  {
    var ops :| Steps(cfg, Start, ops, s);
    Retention.RunRetains(cfg, Start, ops, s);
  }

  /** After an expiry no retained frame is as old as the age limit. */
  lemma NothingOverAge(cfg: Config, s: Sys, now: int, f: Frame)
    requires Reachable(cfg, s) && f in Step(cfg, s, ExpireOp(now)).client.pending
    ensures f in s.client.pending && f.createdAt > now - cfg.limits.age
  {
    hide Reachable;
    ReachableRetains(cfg, s);
    Retention.NothingOverAge(cfg.limits, s.client, now, f);
  }

  // ---------------------------------------------------------------- building runs

  lemma {:induction false} StepsMore(cfg: Config, s: Sys, ops: seq<Op>, t: Sys, op: Op)
    requires Steps(cfg, s, ops, t) && Legal(cfg, t, op)
    ensures Steps(cfg, s, ops + [op], Step(cfg, t, op))
    decreases |ops|
  {
    hide Step, Legal;
    if ops == [] {
      assert ops + [op] == [op] && [op][1..] == [];
    } else {
      StepsMore(cfg, Step(cfg, s, ops[0]), ops[1..], t, op);
      assert (ops + [op])[1..] == ops[1..] + [op];
    }
  }

  lemma Reach(cfg: Config, s: Sys, op: Op)
    requires Reachable(cfg, s) && Legal(cfg, s, op)
    ensures Reachable(cfg, Step(cfg, s, op))
  {
    var ops :| Steps(cfg, Start, ops, s);
    StepsMore(cfg, Start, ops, s, op);
  }

  lemma AtStart(cfg: Config)
    ensures Reachable(cfg, Start)
  {
    assert Steps(cfg, Start, [], Start);
  }

  const D := Data("d", false)

  lemma NoBytes()
    ensures Bytes([]) == 0
  {}

  lemma OneHeld(f: Frame, cutoff: int)
    requires f.createdAt <= cutoff
    ensures Expired([f], cutoff) == [f.wire.exec] && DropExec([f], f.wire.exec) == [] && Bytes([f]) == f.bytes
  {
    assert [f][..0] == [] && Expired([], cutoff) == [] && DropExec([], f.wire.exec) == [];
    assert Bytes([f]) == Bytes([f][..0]) + f.bytes;
  }

  lemma OneExpires(lim: Limits, c: Client, f: Frame, now: int)
    requires c.pending == [f] && c.pendingBytes == f.bytes && !InFlight(c, f.wire.exec) && f.createdAt <= now - lim.age
    requires c.socket == NoSocket
    ensures Expire(lim, c, now) == c.(pending := [], pendingBytes := 0)
  {
    var e := f.wire.exec;
    OneHeld(f, now - lim.age);
    assert ExpireOne(c, e) == c.(pending := [], pendingBytes := 0) by {
      hide Expired, FailRun, DropExec, Bytes;
      NoBytes();
    }
    hide Expired, FailRun, DropExec, Bytes, ExpireOne;
    assert [e][1..] == [];
    assert ExpireAll(c, [e]) == ExpireAll(ExpireOne(c, e), []);
  }

  /** A finished run whose only frame was accepted by nobody and expired. */
  ghost predicate Forgotten(s: Sys) {
    && s.client == Client([], 0, false, NoSocket, None, map[], map["e" := Run(false, 1)], false, [], false)
    && s.delivered == 0 && s.world.accepted == map[] && s.world.closed == {} && s.highest == None
  }

  const FE := Frame(Wire("e", 0, D), 1, 0)

  /** The same run before the expiry. */
  ghost predicate Abandoned(s: Sys) {
    && s.client == Client([FE], 1, false, NoSocket, None, map[], map["e" := Run(false, 1)], false, [], false)
    && s.delivered == 0 && s.world.accepted == map[] && s.world.closed == {} && s.highest == None
  }

  lemma ReachAbandoned(cfg: Config) returns (s: Sys)
    requires RetentionOn(cfg.limits)
    ensures Reachable(cfg, s) && Abandoned(s)
  {
    hide Reachable, FailRun, SendFailure, RemoveExec, Suppress;
    AtStart(cfg);
    var s1 := Step(cfg, Start, AssignOp("t", "e"));
    Reach(cfg, Start, AssignOp("t", "e"));
    assert s1.client.inflight == map["t" := "e"] && s1.client.runs == map["e" := Run(false, 0)];
    var emit := EmitOp("e", D, 1, 0, 1, true);
    var s2 := Step(cfg, s1, emit);
    Reach(cfg, s1, emit);
    assert s2.client.pending == [FE] && s2.client.runs == map["e" := Run(false, 1)];
    s := Step(cfg, s2, FinishOp("t", "e"));
    Reach(cfg, s2, FinishOp("t", "e"));
    assert s.client.inflight == map[];
  }

  lemma ForgottenNext(cfg: Config, s: Sys)
    requires RetentionOn(cfg.limits) && Reachable(cfg, s) && Abandoned(s)
    ensures var d := Step(cfg, s, ExpireOp(cfg.limits.age)); Reachable(cfg, d) && Forgotten(d)
  {
    hide Reachable, ExpireAll, Expired, FailRun, SendFailure, RemoveExec, Suppress;
    Reach(cfg, s, ExpireOp(cfg.limits.age));
    OneExpires(cfg.limits, s.client, FE, cfg.limits.age);
  }

  lemma ReachForgotten(cfg: Config) returns (s: Sys)
    requires RetentionOn(cfg.limits)
    ensures Reachable(cfg, s) && Forgotten(s)
  {
    hide Reachable;
    var before := ReachAbandoned(cfg);
    ForgottenNext(cfg, before);
    s := Step(cfg, before, ExpireOp(cfg.limits.age));
  }

  /** A new connection of a client with nothing to replay. */
  lemma Reconnect(cfg: Config, s: Sys, maxFrame: nat) returns (t: Sys)
    requires Reachable(cfg, s) && s.client.socket == NoSocket && !s.client.stopped && s.client.pending == []
    requires s.highest == None
    ensures Reachable(cfg, t) && t.world == s.world && t.delivered == 0
    ensures t.client ==
            s.client.(socket := Open, ready := true, maxFrame := Some(maxFrame), sent := [], behind := false)
  {
    hide Reachable;
    var a := Step(cfg, s, ConnectOp);
    Reach(cfg, s, ConnectOp);
    var b := Step(cfg, a, OpenedOp);
    Reach(cfg, a, OpenedOp);
    t := Step(cfg, b, HelloAckOp(maxFrame, 0, 1, 9));
    Reach(cfg, b, HelloAckOp(maxFrame, 0, 1, 9));
  }

  /** A backend that emits after its `handle` returned can make a gap: the frames it left behind expired. */
  lemma LateEmitGap(cfg: Config)
    requires cfg.lateEmits && RetentionOn(cfg.limits)
    ensures !NeverGaps(cfg)
  {
    hide Reachable;
    var s := ReachForgotten(cfg);
    var a := Reconnect(cfg, s, 1);
    var emit := EmitOp("e", D, 1, 0, 1, true);
    var b := Step(cfg, a, emit);
    Reach(cfg, a, emit);
    assert b.client.sent == [Wire("e", 1, D)];
    Reach(cfg, b, DeliverOp);
    assert Step(cfg, b, DeliverOp).world.gap;
  }

  // ---------------------------------------------------------------- a replay that stops early

  predicate RoomForTwo(lim: Limits) {
    lim.frames >= 2 && lim.bytes >= 3 && lim.age >= 1
  }

  const FA := Frame(Wire("a", 0, D), 2, 0)
  const FB := Frame(Wire("b", 0, D), 1, 0)

  /** Two runs, neither of which has emitted, and no socket yet. */
  lemma ReachAssigned(cfg: Config) returns (s: Sys)
    ensures Reachable(cfg, s) && s.delivered == 0 && s.world.accepted == map[] && s.world.closed == {}
            && s.highest == None
    ensures s.client == Client([], 0, false, NoSocket, None, map["t" := "a", "u" := "b"],
                               map["a" := Run(false, 0), "b" := Run(false, 0)], false, [], false)
  {
    hide Reachable, RemoveExec, Suppress;
    AtStart(cfg);
    var s1 := Step(cfg, Start, AssignOp("t", "a"));
    Reach(cfg, Start, AssignOp("t", "a"));
    assert s1.client.inflight == map["t" := "a"] && s1.client.runs == map["a" := Run(false, 0)];
    s := Step(cfg, s1, AssignOp("u", "b"));
    Reach(cfg, s1, AssignOp("u", "b"));
    assert s.client.inflight == map["t" := "a", "u" := "b"]
           && s.client.runs == map["a" := Run(false, 0), "b" := Run(false, 0)];
  }

  /** Each of them has one retained frame. */
  lemma ReachTwo(cfg: Config) returns (s: Sys)
    requires RoomForTwo(cfg.limits)
    ensures Reachable(cfg, s) && s.delivered == 0 && s.world.accepted == map[] && s.world.closed == {}
            && s.highest == None
    ensures s.client == Client([FA, FB], 3, false, NoSocket, None, map["t" := "a", "u" := "b"],
                               map["a" := Run(false, 1), "b" := Run(false, 1)], false, [], false)
  {
    hide Reachable, FailRun, SendFailure;
    var s2 := ReachAssigned(cfg);
    BothInFlight(s2.client);
    var s3 := Step(cfg, s2, EmitOp("a", D, 2, 0, 1, true));
    Reach(cfg, s2, EmitOp("a", D, 2, 0, 1, true));
    assert s3.client.pending == [FA] && s3.client.runs == map["a" := Run(false, 1), "b" := Run(false, 0)];
    s := Step(cfg, s3, EmitOp("b", D, 1, 0, 1, true));
    Reach(cfg, s3, EmitOp("b", D, 1, 0, 1, true));
    assert s.client.pending == [FA, FB] && s.client.runs == map["a" := Run(false, 1), "b" := Run(false, 1)];
  }

  lemma BothInFlight(c: Client)
    requires c.inflight == map["t" := "a", "u" := "b"]
    ensures InFlight(c, "a") && InFlight(c, "b")
  {
    assert c.inflight["t"] == "a" && c.inflight["u"] == "b";
  }

  lemma FirstAccepted(w: World, f: Wire)
    requires f.num == 0 && w.accepted == map[] && w.closed == {}
    ensures Receive(w, f).accepted == map[f.exec := [f.body]]
    ensures f.body == D ==> Receive(w, f).closed == {}
  {
    assert Accepted(w, f.exec) + [f.body] == [f.body];
  }

  /** The replay of those two frames to a server that takes one byte per frame: the first is replaced by a
      failure, the second is not sent, and the socket is still open. */
  lemma StopsEarly(lim: Limits, c: Client)
    requires c.pending == [FA, FB] && c.pendingBytes == 3 && c.socket == Open && !c.ready && c.sent == []
             && lim.age >= 1
    requires c.inflight == map["t" := "a", "u" := "b"] && c.runs == map["a" := Run(false, 1), "b" := Run(false, 1)]
    ensures HelloAck(lim, c, 1, 0, 1, 9) ==
            c.(ready := true, maxFrame := Some(1), behind := true, pending := [FB], pendingBytes := 1,
               runs := map["a" := Run(true, 1), "b" := Run(false, 1)], sent := [Wire("a", 0, Overflow)])
  {
    hide Expired, DropExec, Bytes;
    var k := c.(ready := true, maxFrame := Some(1), behind := true);
    BothInFlight(c);
    QueueFacts(lim);
    FailFirst(k);
    assert Expire(lim, k, 0) == k;
    assert k.pending[1..] == [FB];
    assert ReplayFrom(k, 0, 1, 9) == SendFailure(GiveUp(k, "a").(behind := true), "a", 0, 1, true);
  }

  lemma QueueFacts(lim: Limits)
    requires lim.age >= 1
    ensures Expired([FA, FB], 0 - lim.age) == [] && Expired([FA], 0 - lim.age) == []
    ensures DropExec([FA, FB], "a") == [FB] && DropExec([FB], "a") == [FB] && Bytes([FA, FB]) == 3 && Bytes([FB]) == 1
  {
    assert [FA, FB][..1] == [FA] && [FA][..0] == [] && [FB][..0] == [];
    assert DropExec([FA], "a") == [] && DropExec([FB], "a") == [FB];
    assert Bytes([FA]) == Bytes([FA][..0]) + [FA][0].bytes;
    assert Bytes([FA, FB]) == Bytes([FA, FB][..1]) + [FA, FB][1].bytes;
    assert Bytes([FB]) == Bytes([FB][..0]) + [FB][0].bytes;
    assert Expired([FA], 0 - lim.age) == [];
  }

  lemma FailFirst(k: Client)
    requires k.pending == [FA, FB] && k.pendingBytes == 3 && k.runs == map["a" := Run(false, 1), "b" := Run(false, 1)]
    requires DropExec([FA, FB], "a") == [FB] && Bytes([FA, FB]) == 3 && Bytes([FB]) == 1
    ensures FailRun(k, "a", false) ==
            k.(pending := [FB], pendingBytes := 1, runs := map["a" := Run(true, 1), "b" := Run(false, 1)])
  {
    hide DropExec, Bytes;
    assert Suppress(k, "a").runs == map["a" := Run(true, 1), "b" := Run(false, 1)];
  }

  /** A run that emits between a replay that stopped early and the end of its socket can make a gap: its
      earlier frames were retained but not yet sent. */
  lemma BehindEmitGap(cfg: Config)
    requires cfg.emitsWhileBehind && RoomForTwo(cfg.limits)
    ensures !NeverGaps(cfg)
  {
    hide Reachable, HelloAck, FailRun, SendFailure, Bytes;
    var s := ReachTwo(cfg);
    var a := Step(cfg, s, ConnectOp);
    Reach(cfg, s, ConnectOp);
    var b := Step(cfg, a, OpenedOp);
    Reach(cfg, a, OpenedOp);
    var c := Step(cfg, b, HelloAckOp(1, 0, 1, 9));
    Reach(cfg, b, HelloAckOp(1, 0, 1, 9));
    StopsEarly(cfg.limits, b.client);
    BothInFlight(c.client);
    var d := Step(cfg, c, EmitOp("b", D, 1, 0, 1, true));
    Reach(cfg, c, EmitOp("b", D, 1, 0, 1, true));
    assert d.client.sent == [Wire("a", 0, Overflow), Wire("b", 1, D)];
    var e := Step(cfg, d, DeliverOp);
    Reach(cfg, d, DeliverOp);
    FirstAccepted(d.world, Wire("a", 0, Overflow));
    assert e.delivered == 1;
    Reach(cfg, e, DeliverOp);
    assert Step(cfg, e, DeliverOp).world.gap;
  }

  // ---------------------------------------------------------------- a queue of at most one frame

  /** A socket that is open, or about to be, is not behind. */
  predicate Level(c: Client) {
    c.socket == Open || c.socket == Connecting ==> !c.behind
  }

  lemma ReplayLevel(c: Client, failBytes: nat, good: nat)
    requires |c.pending| <= 1
    ensures Level(ReplayFrom(c, 0, failBytes, good))
  {
    hide SendFailure, GiveUp, Bytes;
    if |c.pending| == 1 {
      var e := c.pending[0].wire.exec;
      assert c.pending[1..] == [] && DropExec([], e) == [];
      var sent := SendEncoded(c, c.pending[0].wire, good > 0);
      if TooLarge(c, c.pending[0].bytes) {
        FailureLevel(GiveUp(c, e).(behind := false), e, c.pending[0].wire.num, failBytes, good > 0);
      } else {
        assert ReplayFrom(sent, 1, failBytes, if good > 0 then good - 1 else 0) == sent.(behind := false);
      }
    }
  }

  lemma FailureLevel(c: Client, e: Exec, num: nat, failBytes: nat, ok: bool)
    requires !c.behind
    ensures !SendFailure(c, e, num, failBytes, ok).behind
  {}

  lemma HelloAckLevel(lim: Limits, c: Client, maxFrame: nat, now: int, failBytes: nat, good: nat)
    requires Retention.Retained(lim, c) && lim.frames == 1 && c.socket != Connecting
    ensures Level(HelloAck(lim, c, maxFrame, now, failBytes, good))
  {
    hide ReplayFrom, ExpireAll, Expired;
    var k := c.(ready := true, maxFrame := Some(maxFrame), behind := true);
    Retention.ExpireAllGivesUp(k, Expired(k.pending, now - lim.age));
    var d := Expire(lim, k, now);
    if c.socket == Open && d.socket == Open { ReplayLevel(d, failBytes, good); }
    else { StaysConnecting(k, now, lim); }
  }

  lemma StaysConnecting(c: Client, now: int, lim: Limits)
    ensures Expire(lim, c, now).socket == Connecting ==> c.socket == Connecting
  {
    ExpireAllBehind(c, Expired(c.pending, now - lim.age));
  }

  lemma {:induction false} ExpireAllBehind(c: Client, es: seq<Exec>)
    ensures var d := ExpireAll(c, es); d.behind == c.behind && (d.socket == c.socket || d.socket == Closing)
    decreases |es|
  {
    if es != [] {
      hide ExpireOne;
      ExpireOneBehind(c, es[0]);
      ExpireAllBehind(ExpireOne(c, es[0]), es[1..]);
    }
  }

  lemma ExpireOneBehind(c: Client, e: Exec)
    ensures var d := ExpireOne(c, e); d.behind == c.behind && (d.socket == c.socket || d.socket == Closing)
  {
    hide DropExec, Bytes;
  }

  lemma EmitLevel(lim: Limits, c: Client, e: Exec, body: Body, bytes: nat, now: int, failBytes: nat, ok: bool)
    requires Level(c) && e in c.runs
    ensures Level(Emit(lim, c, e, body, bytes, now, failBytes, ok))
  {
    hide RemoveExec, Suppress, Overflows;
    if c.runs[e].suppressed { return; }
    EmitCases(lim, c, e, body, bytes, now, failBytes, ok);
    assert Level(RemoveExec(Suppress(c, e), e)) by { SuppressLevel(c, e); }
  }

  lemma SuppressLevel(c: Client, e: Exec)
    requires Level(c) && e in c.runs
    ensures Level(RemoveExec(Suppress(c, e), e)) && e in RemoveExec(Suppress(c, e), e).runs
  {
    hide DropExec, Bytes;
  }

  lemma StepLevel(cfg: Config, s: Sys, op: Op)
    requires Level(s.client) && Retention.Retained(cfg.limits, s.client) && Legal(cfg, s, op) && cfg.limits.frames == 1
    ensures Level(Step(cfg, s, op).client)
  {
    hide Retention.Retained, Emit, HelloAck, DropExec, DropAcked, Bytes, Receive, Record, Nums, ExpireAll, Expired;
    match op
    case EmitOp(e, body, bytes, now, failBytes, ok) =>
      EmitLevel(cfg.limits, s.client, e, body, bytes, now, failBytes, ok);
    case HelloAckOp(m, now, fb, good) => HelloAckLevel(cfg.limits, s.client, m, now, fb, good);
    case ExpireOp(now) => ExpireAllBehind(s.client, Expired(s.client.pending, now - cfg.limits.age));
    case _ =>
  }

  /** With room for one frame only, a run never emits on a socket that is behind. */
  lemma {:induction false} OneFrameRun(cfg: Config, s: Sys, ops: seq<Op>, t: Sys)
    requires Steps(cfg, s, ops, t) && Level(s.client) && Retention.Retained(cfg.limits, s.client)
             && cfg.limits.frames == 1
    ensures Steps(cfg.(emitsWhileBehind := false), s, ops, t)
    decreases |ops|
  {
    if ops != [] {
      StepLevel(cfg, s, ops[0]);
      Retention.StepRetains(cfg, s, ops[0]);
      hide Level, Retention.Retained;
      OneFrameRun(cfg, Step(cfg, s, ops[0]), ops[1..], t);
      SameStep(cfg, s, ops[0]);
    }
  }

  lemma SameStep(cfg: Config, s: Sys, op: Op)
    requires Legal(cfg, s, op) && Level(s.client)
    ensures Legal(cfg.(emitsWhileBehind := false), s, op)
    ensures Step(cfg.(emitsWhileBehind := false), s, op) == Step(cfg, s, op)
  {
    hide Emit, HelloAck, Expire, Receive, Record;
  }

  predicate Room(lim: Limits) {
    lim.frames >= 1 && lim.bytes >= 3 && lim.age >= 1
  }

  /** Exactly when replay never shows the bridge a gap: nobody emits late, and nobody emits on a socket that is
      behind, which needs room for two frames. */
  lemma NeverGapsExactly(cfg: Config)
    requires Room(cfg.limits)
    ensures NeverGaps(cfg) <==> !cfg.lateEmits && !(cfg.emitsWhileBehind && cfg.limits.frames >= 2)
  {
    hide Steps;
    if cfg.lateEmits {
      LateEmitGap(cfg);
    } else if cfg.emitsWhileBehind && cfg.limits.frames >= 2 {
      BehindEmitGap(cfg);
    } else {
      var strict := cfg.(emitsWhileBehind := false);
      forall s | Reachable(cfg, s) ensures !s.world.gap {
        var ops :| Steps(cfg, Start, ops, s);
        if cfg.emitsWhileBehind {
          OneFrameRun(cfg, Start, ops, s);
          assert Steps(strict, Start, ops, s);
        }
        ReachableInv(strict, s);
      }
    }
  }

  // ---------------------------------------------------------------- a failure the bridge does not count

  predicate RoomForOne(lim: Limits) {
    lim.frames >= 1 && lim.bytes >= 2 && lim.age >= 1
  }

  /** One retained two-byte frame, handed to the socket. */
  lemma ReachSent(cfg: Config) returns (s: Sys)
    requires RoomForOne(cfg.limits)
    ensures Reachable(cfg, s) && s.delivered == 0 && s.world.accepted == map[] && s.world.closed == {}
    ensures s.client ==
            Client([FA], 2, true, Open, Some(2), map["t" := "a"], map["a" := Run(false, 1)], false, [FA.wire], false)
  {
    hide Reachable, FailRun, SendFailure, RemoveExec, Suppress;
    AtStart(cfg);
    var s1 := Step(cfg, Start, AssignOp("t", "a"));
    Reach(cfg, Start, AssignOp("t", "a"));
    assert s1.client.inflight == map["t" := "a"] && s1.client.runs == map["a" := Run(false, 0)];
    var s2 := Reconnect(cfg, s1, 2);
    assert InFlight(s2.client, "a") by { assert s2.client.inflight["t"] == "a"; }
    s := Step(cfg, s2, EmitOp("a", D, 2, 0, 1, true));
    Reach(cfg, s2, EmitOp("a", D, 2, 0, 1, true));
    assert s.client.pending == [FA] && s.client.sent == [FA.wire] && s.client.runs == map["a" := Run(false, 1)];
  }

  /** The bridge accepted it; the acknowledgement was lost with the socket. */
  lemma ReachAccepted(cfg: Config) returns (s: Sys)
    requires RoomForOne(cfg.limits)
    ensures Reachable(cfg, s) && s.delivered == 0 && s.world.accepted == map["a" := [D]] && s.world.closed == {}
    ensures s.client ==
            Client([FA], 2, true, NoSocket, Some(2), map["t" := "a"], map["a" := Run(false, 1)], false, [], false)
  {
    hide Reachable;
    var s3 := ReachSent(cfg);
    var s4 := Step(cfg, s3, DeliverOp);
    Reach(cfg, s3, DeliverOp);
    FirstAccepted(s3.world, FA.wire);
    s := Step(cfg, s4, CloseOp(false));
    Reach(cfg, s4, CloseOp(false));
  }

  lemma StopsAtOnce(lim: Limits, c: Client)
    requires c.pending == [FA] && c.pendingBytes == 2 && c.socket == Open && !c.ready && c.sent == [] && lim.age >= 1
    requires c.inflight == map["t" := "a"] && c.runs == map["a" := Run(false, 1)]
    ensures HelloAck(lim, c, 1, 0, 1, 9).sent == [Wire("a", 0, Overflow)]
  {
    var k := c.(ready := true, maxFrame := Some(1), behind := true);
    assert k.inflight["t"] == "a";
    assert [FA][..0] == [] && Expired([FA], 0 - lim.age) == [];
    assert k.pending[1..] == [] && DropExec([], "a") == [];
    assert ReplayFrom(k, 0, 1, 9) == SendFailure(GiveUp(k, "a").(behind := false), "a", 0, 1, true);
  }

  /** The failure of a replay can carry a number the bridge already accepted, which the bridge drops as a
      duplicate: the server lowered its frame limit after the acknowledgement was lost. */
  lemma FailureMayRepeat(cfg: Config)
    requires RoomForOne(cfg.limits) && cfg.lowersLimit
    ensures exists s :: Reachable(cfg, s) && s.delivered < |s.client.sent| &&
              var f := s.client.sent[s.delivered];
              f.body == Overflow && f.exec !in s.world.closed && f.num < |Accepted(s.world, f.exec)|
  {
    hide Reachable, HelloAck;
    var s := ReachAccepted(cfg);
    var a := Step(cfg, s, ConnectOp);
    Reach(cfg, s, ConnectOp);
    var b := Step(cfg, a, OpenedOp);
    Reach(cfg, a, OpenedOp);
    var c := Step(cfg, b, HelloAckOp(1, 0, 1, 9));
    Reach(cfg, b, HelloAckOp(1, 0, 1, 9));
    StopsAtOnce(cfg.limits, b.client);
    assert c.client.sent[c.delivered] == Wire("a", 0, Overflow);
  }
}
