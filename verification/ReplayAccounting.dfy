/** Who learns that a retained frame is gone. A frame that leaves the queue unacknowledged leaves in a step that
    fails its run, gives the connection up, stops the client or sends a failure for it, except in one case. */
module ReplayAccounting {
  import opened Options
  import opened ReplaySpec
  import opened ReplaySystem
  import opened ReplayProofs
  import opened ReplaySafety
  import opened ReplayRetention
  import opened ReplayGaps

  ghost predicate FailureFrom(fs: seq<Wire>, lo: nat, e: Exec) {
    exists j :: lo <= j < |fs| && fs[j].exec == e && fs[j].body == Overflow
  }

  /** The step from `c` to `d` that dropped `f` did one of these: it was the acknowledgement of `f`; it stopped the
      client for good; it failed the run of `f`; it gave up an open connection; it sent a failure for the
      execution. */
  ghost predicate Told(op: Op, c: Client, d: Client, f: Frame) {
    || (op.TaskAckOp? && op.e == f.wire.exec && f.wire.num <= op.upTo)
    || op == StopOp || op == CloseOp(true)
    || (!Suppressed(c, f.wire.exec) && Suppressed(d, f.wire.exec))
    || (c.socket == Open && d.socket != Open)
    || FailureFrom(d.sent, |c.sent|, f.wire.exec)
  }

  /** An expiry meets a frame of a finished run while no connection is open. */
  predicate SilentExpiry(op: Op, c: Client, f: Frame) {
    op.ExpireOp? && !InFlight(c, f.wire.exec) && c.socket != Open
  }

  // ---------------------------------------------------------------- expiry

  ghost predicate Tells(c: Client, d: Client, f: Frame) {
    && (InFlight(c, f.wire.exec) ==> Suppressed(d, f.wire.exec))
    && (!InFlight(c, f.wire.exec) && c.socket == Open ==> d.socket != Open)
  }

  lemma ExpireOneTells(c: Client, e: Exec, f: Frame)
    requires AllTidy(c) && c.inflight.Values <= c.runs.Keys && f in c.pending && f !in ExpireOne(c, e).pending
    ensures Tells(c, ExpireOne(c, e), f)
  {
    ExpireOnePending(c, e);
    InDropExec(c.pending, e, f);
    hide DropExec, Bytes, AllTidy;
  }

  lemma {:induction false} ExpireAllTells(c: Client, es: seq<Exec>, f: Frame)
    requires AllTidy(c) && c.inflight.Values <= c.runs.Keys && f in c.pending && f !in ExpireAll(c, es).pending
    ensures Tells(c, ExpireAll(c, es), f)
    decreases |es|
  {
    hide AllTidy, ExpireOne, GivesUp;
    if es != [] {
      var d := ExpireOne(c, es[0]);
      ExpireOneGivesUp(c, es[0]);
      IsOnward(c, d);
      GivingUpTidy(c, d);
      ExpireAllGivesUp(d, es[1..]);
      IsOnward(d, ExpireAll(d, es[1..]));
      if f in d.pending { ExpireAllTells(d, es[1..], f); } else { ExpireOneTells(c, es[0], f); }
    }
  }

  /** An expiry sends nothing and suppresses only runs in flight. */
  lemma {:induction false} ExpireAllQuiet(c: Client, es: seq<Exec>, e: Exec)
    requires !InFlight(c, e)
    ensures ExpireAll(c, es).sent == c.sent && Suppressed(ExpireAll(c, es), e) == Suppressed(c, e)
    decreases |es|
  {
    hide ExpireOne;
    if es != [] {
      ExpireOneQuiet(c, es[0], e);
      ExpireAllQuiet(ExpireOne(c, es[0]), es[1..], e);
    }
  }

  lemma ExpireOneQuiet(c: Client, x: Exec, e: Exec)
    requires !InFlight(c, e)
    ensures var d := ExpireOne(c, x);
            d.sent == c.sent && d.inflight == c.inflight && Suppressed(d, e) == Suppressed(c, e)
  {
    hide DropExec, Bytes, InFlight;
    if InFlight(c, x) {
      assert x != e;
      FailRunQuiet(c, x, e);
    }
  }

  lemma FailRunQuiet(c: Client, x: Exec, e: Exec)
    requires x != e
    ensures var d := FailRun(c, x, true);
            d.sent == c.sent && d.inflight == c.inflight && Suppressed(d, e) == Suppressed(c, e)
  {
    hide Keep;
    RemoveKeepsRest(Suppress(c, x), x);
    hide RemoveExec;
  }

  lemma RemoveKeepsRest(c: Client, e: Exec)
    ensures var d := RemoveExec(c, e);
            && d.sent == c.sent && d.inflight == c.inflight && d.runs == c.runs
            && d.socket == c.socket && d.ready == c.ready && d.maxFrame == c.maxFrame
               && d.pending == DropExec(c.pending, e)
  {
    hide DropExec, Bytes;
  }

  // ---------------------------------------------------------------- replay

  lemma GiveUpTells(c: Client, e: Exec, behind: bool, num: nat, failBytes: nat, ok: bool)
    requires c.socket == Open
    ensures var d := SendFailure(GiveUp(c, e).(behind := behind), e, num, failBytes, ok);
            d.socket != Open || d.sent == c.sent + [Wire(e, num, Overflow)]
    ensures forall f :: f in c.pending && f.wire.exec != e ==>
              f in SendFailure(GiveUp(c, e).(behind := behind), e, num, failBytes, ok).pending
  {
    GiveUpKeeps(c, e);
    forall f | f in c.pending && f.wire.exec != e ensures f in DropExec(c.pending, e) { InDropExec(c.pending, e, f); }
    hide GiveUp, DropExec;
  }

  lemma {:induction false} ReplayTells(c: Client, i: nat, failBytes: nat, good: nat, f: Frame)
    requires i <= |c.pending| && c.inflight.Values <= c.runs.Keys && c.socket == Open
    requires f in c.pending && f !in ReplayFrom(c, i, failBytes, good).pending
    ensures var d := ReplayFrom(c, i, failBytes, good); d.socket != Open || FailureFrom(d.sent, |c.sent|, f.wire.exec)
    decreases |c.pending| - i
  {
    hide GiveUp, SendFailure, GivesUp, DropExec;
    if i == |c.pending| {
    } else if TooLarge(c, c.pending[i].bytes) {
      var w := c.pending[i].wire;
      var behind := DropExec(c.pending[i+1..], w.exec) != [];
      GiveUpTells(c, w.exec, behind, w.num, failBytes, good > 0);
      var d := ReplayFrom(c, i, failBytes, good);
      if d.socket == Open { assert d.sent[|c.sent|] == Wire(w.exec, w.num, Overflow); }
    } else {
      var d := SendEncoded(c, c.pending[i].wire, good > 0);
      var left := if good > 0 then good - 1 else 0;
      ReplayGivesUp(d, i + 1, failBytes, left);
      IsOnward(d, ReplayFrom(d, i + 1, failBytes, left));
      if d.socket == Open { ReplayTells(d, i + 1, failBytes, left, f); }
    }
  }

  lemma HelloAckTells(lim: Limits, c: Client, maxFrame: nat, now: int, failBytes: nat, good: nat, f: Frame)
    requires AllTidy(c) && c.inflight.Values <= c.runs.Keys
    requires f in c.pending && f !in HelloAck(lim, c, maxFrame, now, failBytes, good).pending
    ensures var d := HelloAck(lim, c, maxFrame, now, failBytes, good);
            Suppressed(d, f.wire.exec) || (c.socket == Open && d.socket != Open)
              || FailureFrom(d.sent, |c.sent|, f.wire.exec)
  {
    hide AllTidy, ReplayFrom, ExpireAll, GivesUp, FailureFrom;
    var k := c.(ready := true, maxFrame := Some(maxFrame), behind := true);
    ReadyGivesUp(c, maxFrame);
    GivingUpTidy(c, k);
    var es := Expired(k.pending, now - lim.age);
    var d := ExpireAll(k, es);
    ExpireAllGivesUp(k, es);
    IsOnward(k, d);
    if f !in d.pending {
      ExpireAllTells(k, es, f);
      assert InFlight(k, f.wire.exec) == InFlight(c, f.wire.exec);
    }
    if d.socket == Open {
      ReplayGivesUp(d, 0, failBytes, good);
      var t := ReplayFrom(d, 0, failBytes, good);
      IsOnward(d, t);
      if f in d.pending {
        ReplayTells(d, 0, failBytes, good, f);
        FailureLater(t.sent, |c.sent|, |d.sent|, f.wire.exec);
      } else {
        StaysSuppressed(d, t, f.wire.exec);
      }
    }
  }

  lemma FailureLater(fs: seq<Wire>, lo: nat, hi: nat, e: Exec)
    requires lo <= hi
    ensures FailureFrom(fs, hi, e) ==> FailureFrom(fs, lo, e)
  {}

  lemma StaysSuppressed(c: Client, d: Client, e: Exec)
    requires Onward(c, d)
    ensures Suppressed(c, e) ==> Suppressed(d, e)
  {}

  // ---------------------------------------------------------------- the other steps

  lemma EmitTells(lim: Limits, c: Client, e: Exec, body: Body, bytes: nat, now: int, failBytes: nat, ok: bool, f: Frame)
    requires e in c.runs && f in c.pending && f !in Emit(lim, c, e, body, bytes, now, failBytes, ok).pending
    ensures Suppressed(Emit(lim, c, e, body, bytes, now, failBytes, ok), f.wire.exec)
  {
    hide SendFailure, RemoveExec, Suppress, SendEncoded;
    if c.runs[e].suppressed {
      EmitSuppressed(lim, c, e, body, bytes, now, failBytes, ok);
    } else {
      EmitCases(lim, c, e, body, bytes, now, failBytes, ok);
      if Overflows(lim, c, bytes) {
        FailedAt(c, e, c.runs[e].nextSeq, failBytes, ok);
      } else {
        var g := Frame(Wire(e, c.runs[e].nextSeq, body), bytes, now);
        SendingKeepsQueue(Retaining(c, g), g.wire, ok);
      }
    }
  }

  lemma SuppressTells(c: Client, e: Exec, f: Frame)
    requires e in c.runs && f in c.pending && f !in DropExec(c.pending, e)
    ensures f.wire.exec == e && Suppressed(Suppress(c, e), e)
  {
    InDropExec(c.pending, e, f);
  }

  lemma AssignTells(c: Client, t: Task, e: Exec, f: Frame)
    requires c.inflight.Values <= c.runs.Keys && e !in c.runs && f in c.pending && f !in Assign(c, t, e).pending
    ensures Suppressed(Assign(c, t, e), f.wire.exec)
  {
    hide DropExec, Bytes;
    if t in c.inflight { SuppressTells(c, c.inflight[t], f); }
  }

  lemma CancelTells(c: Client, t: Task, which: Option<Exec>, f: Frame)
    requires c.inflight.Values <= c.runs.Keys && f in c.pending && f !in Cancel(c, t, which).pending
    ensures Suppressed(Cancel(c, t, which), f.wire.exec)
  {
    hide DropExec, Bytes;
    if t in c.inflight && which.Some? && c.inflight[t] == which.value { SuppressTells(c, which.value, f); }
  }

  lemma StepTells(cfg: Config, s: Sys, op: Op, f: Frame)
    requires Retained(cfg.limits, s.client) && Legal(cfg, s, op)
    requires f in s.client.pending && f !in Step(cfg, s, op).client.pending && !SilentExpiry(op, s.client, f)
    ensures Told(op, s.client, Step(cfg, s, op).client, f)
  {
    var lim, c, d := cfg.limits, s.client, Step(cfg, s, op).client;
    RunsKnown(lim, c);
    TidyOf(lim, c);
    NothingHeld(c, f);
    hide Retained, AllTidy, Emit, HelloAck, Acknowledge, Expire, Receive, Record, Assign, Cancel, FailureFrom;
    match op
    case EmitOp(e, body, bytes, now, failBytes, ok) => EmitTells(lim, c, e, body, bytes, now, failBytes, ok, f);
    case HelloAckOp(m, now, fb, good) => HelloAckTells(lim, c, m, now, fb, good, f);
    case TaskAckOp(e, upTo) => AcknowledgeRetains(lim, c, e, upTo);
    case AssignOp(t, e) => AssignTells(c, t, e, f);
    case CancelOp(t, which) => CancelTells(c, t, which, f);
    case ExpireOp(now) => ExpireTells(lim, c, now, f);
    case _ =>
  }

  lemma ExpireTells(lim: Limits, c: Client, now: int, f: Frame)
    requires AllTidy(c) && c.inflight.Values <= c.runs.Keys && f in c.pending && f !in Expire(lim, c, now).pending
    ensures Tells(c, Expire(lim, c, now), f)
  {
    hide AllTidy, Tells, ExpireAll, Expired;
    ExpireAllTells(c, Expired(c.pending, now - lim.age), f);
  }

  lemma SilentIsUntold(cfg: Config, s: Sys, op: Op, f: Frame)
    requires Retained(cfg.limits, s.client) && Legal(cfg, s, op) && f in s.client.pending
             && SilentExpiry(op, s.client, f)
    ensures !Told(op, s.client, Step(cfg, s, op).client, f)
  {
    hide Retained, AllTidy, ExpireAll, Expired;
    TidyOf(cfg.limits, s.client);
    NothingHeld(s.client, f);
    ExpireAllQuiet(s.client, Expired(s.client.pending, op.now - cfg.limits.age), f.wire.exec);
  }

  /** In every reachable state of every configuration, a frame that leaves the queue leaves in a step that somebody
      is told of, if and only if that step is not an expiry of a finished run's frame without an open connection. */
  lemma DropIsToldExactly(cfg: Config, s: Sys, op: Op, f: Frame)
    requires Reachable(cfg, s) && Legal(cfg, s, op) && f in s.client.pending && f !in Step(cfg, s, op).client.pending
    ensures Told(op, s.client, Step(cfg, s, op).client, f) <==> !SilentExpiry(op, s.client, f)
  {
    ReachableRetains(cfg, s);
    hide Reachable, Retained, Legal, Step, Told;
    if SilentExpiry(op, s.client, f) { SilentIsUntold(cfg, s, op, f); } else { StepTells(cfg, s, op, f); }
  }

  /** The exception happens: a finished run's frame that the bridge never accepted is dropped while the client is
      between connections, and the next connection is ready with nothing to replay and nothing said. */
  lemma SilentLossHappens(cfg: Config)
    requires RetentionOn(cfg.limits)
    ensures exists s, op, f ::
              && Reachable(cfg, s) && Legal(cfg, s, op) && f in s.client.pending && SilentExpiry(op, s.client, f)
              && f.wire.num == |Accepted(s.world, f.wire.exec)|
              && LostSilently(cfg, Step(cfg, s, op), f)
  {
    hide Reachable, Legal, Step, LostSilently;
    var s := ReachAbandoned(cfg);
    var op := ExpireOp(cfg.limits.age);
    NoConditions(cfg, s);
    ForgottenNext(cfg, s);
    var d := Step(cfg, s, op);
    var t := Reconnect(cfg, d, 1);
    assert LostSilently(cfg, d, FE) by { IsLost(cfg, d, t); }
    assert FE in s.client.pending;
  }

  lemma NoConditions(cfg: Config, s: Sys)
    ensures Legal(cfg, s, ExpireOp(cfg.limits.age))
  {}

  /** From here a new connection is reached that is ready and caught up, was handed nothing, and whose bridge still
      waits for the lost frame. */
  ghost predicate LostSilently(cfg: Config, d: Sys, f: Frame) {
    exists t :: Reachable(cfg, t) && t.world == d.world && f.wire.num == |Accepted(t.world, f.wire.exec)|
      && f.wire.exec !in t.world.closed
      && t.client.socket == Open && t.client.ready && !t.client.behind && t.client.pending == [] && t.client.sent == []
  }

  lemma IsLost(cfg: Config, d: Sys, t: Sys)
    requires Reachable(cfg, t) && t.world == d.world && d.world.accepted == map[] && d.world.closed == {}
    requires t.client.socket == Open && t.client.ready && !t.client.behind && t.client.pending == []
             && t.client.sent == []
    ensures LostSilently(cfg, d, FE)
  {}
}
