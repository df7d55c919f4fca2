/** What the client retains, whatever the bridge and the backends do: the byte counter and both limits, one
    contiguous run of numbers per execution, and nothing over age after an expiry. */
module ReplayRetention {
  import opened Options
  import opened ReplaySpec
  import opened ReplaySystem
  import opened ReplayProofs
  import opened ReplaySafety

  /** The retained numbers of a run are consecutive, in queue order, and end with its last frame; a suppressed
      run retains nothing. */
  ghost predicate Tidy(c: Client, e: Exec)
    requires e in c.runs
  {
    var r, n := Nums(c.pending, e), c.runs[e].nextSeq;
    && (forall k :: 0 <= k < |r| ==> r[k] == n - |r| + k)
    && (c.runs[e].suppressed ==> r == [])
  }

  ghost predicate AllTidy(c: Client) {
    && (forall f {:trigger f in c.pending} :: f in c.pending ==> f.wire.exec in c.runs)
    && (forall e {:trigger Tidy(c, e)} :: e in c.runs ==> Tidy(c, e))
  }

  ghost predicate Retained(lim: Limits, c: Client) {
    && c.pendingBytes == Bytes(c.pending) <= lim.bytes
    && |c.pending| <= lim.frames
    && c.inflight.Values <= c.runs.Keys
    && AllTidy(c)
  }

  // ---------------------------------------------------------------- giving frames up

  /** Runs only become suppressed, the socket is only given up. */
  ghost predicate Onward(c: Client, d: Client) {
    && d.inflight == c.inflight && d.runs.Keys == c.runs.Keys
    && (forall e :: e in c.runs ==>
       d.runs[e].nextSeq == c.runs[e].nextSeq && (c.runs[e].suppressed ==> d.runs[e].suppressed))
    && (c.socket != Open ==> d.socket != Open)
    && c.sent <= d.sent
  }

  ghost predicate KeepsOrDrops(c: Client, d: Client, e: Exec) {
    && (Nums(d.pending, e) == Nums(c.pending, e) || Nums(d.pending, e) == [])
    && (Suppressed(d, e) ==> Suppressed(c, e) || Nums(d.pending, e) == [])
  }

  ghost predicate Charged(c: Client, d: Client) {
    && |d.pending| <= |c.pending|
    && d.pendingBytes - Bytes(d.pending) == c.pendingBytes - Bytes(c.pending)
    && Bytes(d.pending) <= Bytes(c.pending)
  }

  /** Whole executions are dropped, and the counter follows. */
  ghost predicate GivesUp(c: Client, d: Client) {
    && Onward(c, d)
    && (forall e {:trigger KeepsOrDrops(c, d, e)} :: KeepsOrDrops(c, d, e))
    && Charged(c, d)
    && (forall f {:trigger f in c.pending} {:trigger f in d.pending} :: f in d.pending ==> f in c.pending)
  }

  lemma GivesUpNothing(c: Client)
    ensures GivesUp(c, c)
  {}

  lemma GivesUpMore(a: Client, b: Client, c: Client)
    requires GivesUp(a, b) && GivesUp(b, c)
    ensures GivesUp(a, c)
  {
    hide Charged;
    assert Charged(a, c) by { ChargedMore(a, b, c); }
    forall e ensures KeepsOrDrops(a, c, e) { assert KeepsOrDrops(a, b, e) && KeepsOrDrops(b, c, e); }
  }

  lemma ChargedMore(a: Client, b: Client, c: Client)
    requires Charged(a, b) && Charged(b, c)
    ensures Charged(a, c)
  {}

  lemma GivingUpRetains(lim: Limits, c: Client, d: Client)
    requires Retained(lim, c) && GivesUp(c, d)
    ensures Retained(lim, d)
  {
    forall e | e in d.runs ensures Tidy(d, e) { assert Tidy(c, e) && KeepsOrDrops(c, d, e); }
  }

  lemma {:induction false} DropExecCharges(p: seq<Frame>, e: Exec)
    ensures |DropExec(p, e)| <= |p| && Bytes(DropExec(p, e)) <= Bytes(p)
  {
    if p != [] {
      DropExecCharges(p[..|p|-1], e);
      if p[|p|-1].wire.exec == e { assert DropExec(p, e) == DropExec(p[..|p|-1], e); }
      else { BytesAppend(DropExec(p[..|p|-1], e), p[|p|-1]); }
    }
  }

  lemma RemoveGivesUp(c: Client, d: Client, e: Exec)
    requires Onward(c, d) && d.pending == DropExec(c.pending, e)
             && d.pendingBytes == c.pendingBytes - Bytes(c.pending) + Bytes(d.pending)
    requires forall y :: y in c.runs && y != e ==> d.runs[y] == c.runs[y]
    ensures GivesUp(c, d)
  {
    DropExecCharges(c.pending, e);
    forall y ensures KeepsOrDrops(c, d, y) { NumsDropExec(c.pending, e, y); }
    forall f ensures f in d.pending <==> f in c.pending && f.wire.exec != e { InDropExec(c.pending, e, f); }
  }

  lemma FailRunGivesUp(c: Client, e: Exec, disconnect: bool)
    requires e in c.runs
    ensures GivesUp(c, FailRun(c, e, disconnect)) && Suppressed(FailRun(c, e, disconnect), e)
  {
    hide GivesUp;
    if c.runs[e].suppressed { GivesUpNothing(c); } else { RemoveGivesUp(c, FailRun(c, e, disconnect), e); }
  }

  lemma ExpireOneGivesUp(c: Client, e: Exec)
    requires InFlight(c, e) ==> e in c.runs
    ensures GivesUp(c, ExpireOne(c, e))
  {
    hide GivesUp;
    if InFlight(c, e) { FailRunGivesUp(c, e, true); } else { RemoveGivesUp(c, ExpireOne(c, e), e); }
  }

  lemma {:induction false} ExpireAllGivesUp(c: Client, es: seq<Exec>)
    requires c.inflight.Values <= c.runs.Keys
    ensures GivesUp(c, ExpireAll(c, es))
    decreases |es|
  {
    hide ExpireOne, GivesUp;
    if es == [] {
      GivesUpNothing(c);
    } else {
      ExpireOneGivesUp(c, es[0]);
      var d := ExpireOne(c, es[0]);
      IsOnward(c, d);
      ExpireAllGivesUp(d, es[1..]);
      GivesUpMore(c, d, ExpireAll(c, es));
    }
  }

  lemma IsOnward(c: Client, d: Client)
    requires GivesUp(c, d)
    ensures Onward(c, d)
  {}

  lemma SendGivesUp(c: Client, f: Wire, ok: bool)
    ensures GivesUp(c, SendEncoded(c, f, ok))
  {}

  lemma GiveUpGivesUp(c: Client, e: Exec, behind: bool)
    requires InFlight(c, e) ==> e in c.runs
    ensures GivesUp(c, GiveUp(c, e).(behind := behind))
  {
    hide GivesUp;
    if InFlight(c, e) {
      FailRunGivesUp(c, e, false);
      BehindGivesUp(FailRun(c, e, false), behind);
      GivesUpMore(c, FailRun(c, e, false), FailRun(c, e, false).(behind := behind));
    } else {
      RemoveGivesUp(c, RemoveExec(c, e).(behind := behind), e);
    }
  }

  lemma FailureGivesUp(c: Client, e: Exec, num: nat, failBytes: nat, ok: bool)
    ensures GivesUp(c, SendFailure(c, e, num, failBytes, ok))
  {}

  lemma BehindGivesUp(c: Client, behind: bool)
    ensures GivesUp(c, c.(behind := behind))
  {}

  lemma {:induction false} ReplayGivesUp(c: Client, i: nat, failBytes: nat, good: nat)
    requires i <= |c.pending| && c.inflight.Values <= c.runs.Keys
    ensures GivesUp(c, ReplayFrom(c, i, failBytes, good))
    decreases |c.pending| - i
  {
    hide GivesUp, SendFailure, GiveUp;
    if i == |c.pending| {
      BehindGivesUp(c, false);
    } else if TooLarge(c, c.pending[i].bytes) {
      hide DropExec;
      var f := c.pending[i].wire;
      var behind := DropExec(c.pending[i+1..], f.exec) != [];
      var d := GiveUp(c, f.exec).(behind := behind);
      GiveUpGivesUp(c, f.exec, behind);
      FailureGivesUp(d, f.exec, f.num, failBytes, good > 0);
      GivesUpMore(c, d, ReplayFrom(c, i, failBytes, good));
    } else {
      var d := SendEncoded(c, c.pending[i].wire, good > 0);
      SendGivesUp(c, c.pending[i].wire, good > 0);
      ReplayGivesUp(d, i + 1, failBytes, if good > 0 then good - 1 else 0);
      GivesUpMore(c, d, ReplayFrom(c, i, failBytes, good));
    }
  }

  lemma HelloAckGivesUp(lim: Limits, c: Client, maxFrame: nat, now: int, failBytes: nat, good: nat)
    requires c.inflight.Values <= c.runs.Keys
    ensures GivesUp(c, HelloAck(lim, c, maxFrame, now, failBytes, good))
  {
    hide ReplayFrom, ExpireAll, GivesUp;
    var k := c.(ready := true, maxFrame := Some(maxFrame), behind := true);
    ReadyGivesUp(c, maxFrame);
    if c.socket == Open {
      var d := Expire(lim, k, now);
      ExpireAllGivesUp(k, Expired(k.pending, now - lim.age));
      GivesUpMore(c, k, d);
      if d.socket == Open {
        IsOnward(k, d);
        ReplayGivesUp(d, 0, failBytes, good);
        GivesUpMore(c, d, ReplayFrom(d, 0, failBytes, good));
      }
    }
  }

  lemma ReadyGivesUp(c: Client, maxFrame: nat)
    ensures GivesUp(c, c.(ready := true, maxFrame := Some(maxFrame), behind := true))
  {}

  // ---------------------------------------------------------------- expiry

  lemma {:induction false} ExpireAllDrops(c: Client, es: seq<Exec>, f: Frame)
    requires AllTidy(c) && c.inflight.Values <= c.runs.Keys
    requires f in ExpireAll(c, es).pending
    ensures f in c.pending && f.wire.exec !in es
    decreases |es|
  {
    hide AllTidy, ExpireOne, GivesUp;
    if es != [] {
      var d := ExpireOne(c, es[0]);
      ExpireOneGivesUp(c, es[0]);
      IsOnward(c, d);
      GivingUpTidy(c, d);
      ExpireAllDrops(d, es[1..], f);
      ExpireOneDrops(c, es[0], f);
    }
  }

  lemma GivingUpTidy(c: Client, d: Client)
    requires AllTidy(c) && GivesUp(c, d)
    ensures AllTidy(d)
  {
    forall e | e in d.runs ensures Tidy(d, e) { assert Tidy(c, e) && KeepsOrDrops(c, d, e); }
  }

  lemma ExpireOneDrops(c: Client, e: Exec, f: Frame)
    requires AllTidy(c) && f in ExpireOne(c, e).pending
    ensures f in c.pending && f.wire.exec != e
  {
    hide AllTidy, ExpireOne, DropExec;
    ExpireOnePending(c, e);
    InDropExec(c.pending, e, f);
    if f in c.pending { NothingHeld(c, f); }
  }

  lemma ExpireOnePending(c: Client, e: Exec)
    ensures ExpireOne(c, e).pending == DropExec(c.pending, e)
            || (Suppressed(c, e) && ExpireOne(c, e).pending == c.pending)
  {
    hide DropExec, Bytes;
  }

  /** A suppressed run has no frame left in the queue. */
  lemma {:induction false} NothingHeld(c: Client, f: Frame)
    requires AllTidy(c) && f in c.pending
    ensures f.wire.exec in c.runs && !c.runs[f.wire.exec].suppressed
  {
    var i :| 0 <= i < |c.pending| && c.pending[i] == f;
    NumAt(c.pending, i);
    assert Tidy(c, f.wire.exec);
  }

  /** After an expiry no retained frame is as old as the age limit. */
  lemma NothingOverAge(lim: Limits, c: Client, now: int, f: Frame)
    requires Retained(lim, c) && f in Expire(lim, c, now).pending
    ensures f in c.pending && f.createdAt > now - lim.age
  {
    var es := Expired(c.pending, now - lim.age);
    ExpireAllDrops(c, es, f);
    var i :| 0 <= i < |c.pending| && c.pending[i] == f;
  }

  // ---------------------------------------------------------------- every step

  lemma {:induction false} DropAckedCharges(p: seq<Frame>, e: Exec, upTo: int)
    ensures |DropAcked(p, e, upTo)| <= |p| && Bytes(DropAcked(p, e, upTo)) <= Bytes(p)
  {
    if p != [] {
      DropAckedCharges(p[..|p|-1], e, upTo);
      if Acked(p[|p|-1], e, upTo) { assert DropAcked(p, e, upTo) == DropAcked(p[..|p|-1], e, upTo); }
      else { BytesAppend(DropAcked(p[..|p|-1], e, upTo), p[|p|-1]); }
    }
  }

  lemma AcknowledgeRetains(lim: Limits, c: Client, e: Exec, upTo: int)
    requires Retained(lim, c)
    ensures Retained(lim, Acknowledge(c, e, upTo))
    ensures forall f :: f in Acknowledge(c, e, upTo).pending <==>
            f in c.pending && !(f.wire.exec == e && f.wire.num <= upTo)
  {
    hide DropAcked, Tidy, Bytes;
    var d := Acknowledge(c, e, upTo);
    DropAckedCharges(c.pending, e, upTo);
    forall f ensures f in d.pending <==> f in c.pending && !(f.wire.exec == e && f.wire.num <= upTo) {
      InDropAcked(c.pending, e, upTo, f);
    }
    forall y | y in d.runs ensures Tidy(d, y) {
      assert Tidy(c, y);
      AcknowledgeTidy(c, e, upTo, y);
    }
  }

  lemma AcknowledgeTidy(c: Client, e: Exec, upTo: int, y: Exec)
    requires y in c.runs && Tidy(c, y)
    ensures Tidy(Acknowledge(c, e, upTo), y)
  {
    NumsDropAcked(c.pending, e, upTo, y);
    if y == e { AboveRun(Nums(c.pending, e), c.runs[e].nextSeq - |Nums(c.pending, e)|, upTo); }
  }

  lemma SuppressGivesUp(c: Client, e: Exec)
    requires e in c.runs
    ensures GivesUp(c, RemoveExec(Suppress(c, e), e)) && Suppressed(RemoveExec(Suppress(c, e), e), e)
  {
    hide GivesUp;
    RemoveGivesUp(c, RemoveExec(Suppress(c, e), e), e);
  }

  /** A frame within the limits is retained; one over a limit fails its run, which then takes one more number. */
  lemma EmitRetains(lim: Limits, c: Client, e: Exec, body: Body, bytes: nat, now: int, failBytes: nat, ok: bool)
    requires Retained(lim, c) && e in c.runs
    ensures var d := Emit(lim, c, e, body, bytes, now, failBytes, ok);
            Retained(lim, d) && d.inflight == c.inflight
  {
    hide SendFailure, FailRun;
    if !c.runs[e].suppressed {
      EmitCases(lim, c, e, body, bytes, now, failBytes, ok);
      if Overflows(lim, c, bytes) {
        OverflowRetains(lim, c, e, failBytes, ok);
      } else {
        RoomRetains(lim, c, Frame(Wire(e, c.runs[e].nextSeq, body), bytes, now), ok);
      }
    }
  }

  lemma OverflowRetains(lim: Limits, c: Client, e: Exec, failBytes: nat, ok: bool)
    requires Retained(lim, c) && e in c.runs && !c.runs[e].suppressed
    ensures var d := SendFailure(Numbered(RemoveExec(Suppress(c, e), e), e), e, c.runs[e].nextSeq, failBytes, ok);
            Retained(lim, d) && d.inflight == c.inflight
  {
    hide SendFailure;
    var s := RemoveExec(Suppress(c, e), e);
    var k := Numbered(s, e);
    SuppressGivesUp(c, e);
    GivingUpRetains(lim, c, s);
    forall y | y in k.runs ensures Tidy(k, y) { assert Tidy(s, y); }
    FailureGivesUp(k, e, c.runs[e].nextSeq, failBytes, ok);
    GivingUpRetains(lim, k, SendFailure(k, e, c.runs[e].nextSeq, failBytes, ok));
  }

  lemma RoomRetains(lim: Limits, c: Client, f: Frame, ok: bool)
    requires Retained(lim, c) && f.wire.exec in c.runs && !c.runs[f.wire.exec].suppressed
    requires f.wire.num == c.runs[f.wire.exec].nextSeq && !Overflows(lim, c, f.bytes)
    ensures var k := Retaining(c, f);
            var d := if c.ready then SendEncoded(k, f.wire, ok) else k;
            Retained(lim, d) && d.inflight == c.inflight
  {
    var k := Retaining(c, f);
    BytesAppend(c.pending, f);
    forall y | y in k.runs ensures Tidy(k, y) {
      assert Tidy(c, y);
      NumsAppend(c.pending, f, y);
    }
    SendGivesUp(k, f.wire, ok);
    GivingUpRetains(lim, k, SendEncoded(k, f.wire, ok));
  }

  /** What a caller gets from the four limits: an emission is retained, last in the queue, exactly when the frame
      is within the negotiated size and the queue with it still keeps both bounds; otherwise its run is failed and
      retains nothing. */
  lemma RetainsExactlyWhatFits(lim: Limits, c: Client, e: Exec, body: Body, bytes: nat, now: int, failBytes: nat,
                               ok: bool)
    requires Retained(lim, c) && e in c.runs && !c.runs[e].suppressed
    ensures var d, f := Emit(lim, c, e, body, bytes, now, failBytes, ok),
            Frame(Wire(e, c.runs[e].nextSeq, body), bytes, now);
            var fits := (c.maxFrame.Some? ==> bytes <= c.maxFrame.value)
                        && |c.pending + [f]| <= lim.frames && Bytes(c.pending + [f]) <= lim.bytes;
            if fits then d.pending == c.pending + [f]
            else Suppressed(d, e) && (forall g :: g in d.pending <==> g in c.pending && g.wire.exec != e)
  {
    hide SendFailure, RemoveExec, Suppress, AllTidy, SendEncoded;
    var f := Frame(Wire(e, c.runs[e].nextSeq, body), bytes, now);
    BytesAppend(c.pending, f);
    EmitCases(lim, c, e, body, bytes, now, failBytes, ok);
    if Overflows(lim, c, bytes) {
      FailedAt(c, e, c.runs[e].nextSeq, failBytes, ok);
    } else {
      SendingKeepsQueue(Retaining(c, f), f.wire, ok);
    }
  }

  lemma SendingKeepsQueue(c: Client, f: Wire, ok: bool)
    ensures SendEncoded(c, f, ok).pending == c.pending
  {}

  /** The run is suppressed and exactly its frames are gone. */
  lemma FailedAt(c: Client, e: Exec, num: nat, failBytes: nat, ok: bool)
    requires e in c.runs
    ensures var d := SendFailure(Numbered(RemoveExec(Suppress(c, e), e), e), e, num, failBytes, ok);
            Suppressed(d, e) && (forall g :: g in d.pending <==> g in c.pending && g.wire.exec != e)
  {
    var d := SendFailure(Numbered(RemoveExec(Suppress(c, e), e), e), e, num, failBytes, ok);
    assert d.pending == DropExec(c.pending, e) && Suppressed(d, e) by { hide DropExec, Bytes; }
    forall g ensures g in d.pending <==> g in c.pending && g.wire.exec != e { InDropExec(c.pending, e, g); }
  }

  /** A step that neither reads nor writes the retained frames or the runs. */
  lemma PlainRetains(lim: Limits, c: Client, d: Client)
    requires Retained(lim, c) && d.pending == c.pending && d.pendingBytes == c.pendingBytes && d.runs == c.runs
    requires d.inflight.Values <= c.inflight.Values
    ensures Retained(lim, d)
  {
    forall y | y in d.runs ensures Tidy(d, y) { assert Tidy(c, y); }
  }

  lemma AssignRetains(lim: Limits, c: Client, t: Task, e: Exec)
    requires Retained(lim, c) && e !in c.runs
    ensures Retained(lim, Assign(c, t, e))
  {
    var k := if t in c.inflight then RemoveExec(Suppress(c, c.inflight[t]), c.inflight[t]) else c;
    if t in c.inflight {
      SuppressGivesUp(c, c.inflight[t]);
      GivingUpRetains(lim, c, k);
      forall f ensures f in k.pending <==> f in c.pending && f.wire.exec != c.inflight[t] {
        InDropExec(c.pending, c.inflight[t], f);
      }
    }
    var d := Assign(c, t, e);
    forall f | f in k.pending ensures f.wire.exec != e {}
    NumsNone(k.pending, e);
    forall y | y in d.runs ensures Tidy(d, y) { if y != e { assert Tidy(k, y); } }
  }

  lemma HaltRetains(lim: Limits, c: Client)
    requires Retained(lim, c)
    ensures Retained(lim, Halt(c))
  {}

  /** Every operation, under any configuration, keeps the retention invariant. */
  lemma StepRetains(cfg: Config, s: Sys, op: Op)
    requires Retained(cfg.limits, s.client) && Legal(cfg, s, op)
    ensures Retained(cfg.limits, Step(cfg, s, op).client)
  {
    hide Retained, GivesUp, Emit, HelloAck, Acknowledge, Assign, Expire, Receive, Record, RemoveExec, Suppress, Halt,
         ExpireAll, Expired;
    var lim, c, d := cfg.limits, s.client, Step(cfg, s, op).client;
    RunsKnown(lim, c);
    match op
    case AssignOp(t, e) => AssignRetains(lim, c, t, e);
    case EmitOp(e, body, bytes, now, failBytes, ok) => EmitRetains(lim, c, e, body, bytes, now, failBytes, ok);
    case HelloAckOp(m, now, fb, good) =>
      HelloAckGivesUp(lim, c, m, now, fb, good);
      GivingUpRetains(lim, c, d);
    case TaskAckOp(e, upTo) => AcknowledgeRetains(lim, c, e, upTo);
    case CancelOp(t, which) =>
      if t in c.inflight && which.Some? && c.inflight[t] == which.value {
        SuppressGivesUp(c, which.value);
        GivingUpRetains(lim, c, d);
      }
    case CloseOp(fatal) =>
      PlainRetains(lim, c, c.(socket := NoSocket, sent := [], behind := false));
      HaltRetains(lim, c.(socket := NoSocket, sent := [], behind := false));
    case StopOp =>
      HaltRetains(lim, c);
      PlainRetains(lim, Halt(c), Stop(c));
    case ExpireOp(now) =>
      ExpireGivesUp(lim, c, now);
      GivingUpRetains(lim, c, d);
    case FinishOp(t, e) => PlainRetains(lim, c, d);
    case ConnectOp => PlainRetains(lim, c, d);
    case OpenedOp => PlainRetains(lim, c, d);
    case TerminateOp => PlainRetains(lim, c, d);
    case DeliverOp =>
    case DeliverPastOp(i) =>
  }

  lemma RunsKnown(lim: Limits, c: Client)
    requires Retained(lim, c)
    ensures c.inflight.Values <= c.runs.Keys
  {}

  lemma ExpireGivesUp(lim: Limits, c: Client, now: int)
    requires c.inflight.Values <= c.runs.Keys
    ensures GivesUp(c, Expire(lim, c, now))
  {
    ExpireAllGivesUp(c, Expired(c.pending, now - lim.age));
  }

  lemma {:induction false} RunRetains(cfg: Config, s: Sys, ops: seq<Op>, t: Sys)
    requires Retained(cfg.limits, s.client) && Steps(cfg, s, ops, t)
    ensures Retained(cfg.limits, t.client)
    decreases |ops|
  {
    hide Retained, Step, Legal;
    if ops != [] {
      StepRetains(cfg, s, ops[0]);
      RunRetains(cfg, Step(cfg, s, ops[0]), ops[1..], t);
    }
  }

  // ---------------------------------------------------------------- failing closed

  /** A run that gave way stays silent: a suppressed run is suppressed for good and its emissions change nothing. */
  lemma SuppressedForGood(cfg: Config, s: Sys, op: Op, e: Exec)
    requires Legal(cfg, s, op) && Retained(cfg.limits, s.client) && Suppressed(s.client, e)
    ensures Suppressed(Step(cfg, s, op).client, e)
    ensures op.EmitOp? && op.e == e ==> Step(cfg, s, op) == s
  {
    hide Retained, GivesUp, HelloAck, Expire, Acknowledge, Receive, FailRun, SendFailure, RemoveExec;
    var lim, c := cfg.limits, s.client;
    RunsKnown(lim, c);
    match op
    case EmitOp(x, body, bytes, now, failBytes, ok) =>
      if x != e { EmitKeepsOthers(lim, c, x, body, bytes, now, failBytes, ok, e); }
    case HelloAckOp(m, now, fb, good) =>
      HelloAckGivesUp(lim, c, m, now, fb, good);
      IsOnward(c, HelloAck(lim, c, m, now, fb, good));
    case ExpireOp(now) =>
      ExpireGivesUp(lim, c, now);
      IsOnward(c, Expire(lim, c, now));
    case TaskAckOp(x, upTo) => KeepsRuns(c, x, upTo);
    case AssignOp(t, x) => RemoveKeepsRuns(c);
    case CancelOp(t, which) => RemoveKeepsRuns(c);
    case _ =>
  }

  lemma KeepsRuns(c: Client, e: Exec, upTo: int)
    ensures Acknowledge(c, e, upTo).runs == c.runs
  {}

  lemma RemoveKeepsRuns(c: Client)
    ensures forall e :: RemoveExec(c, e).runs == c.runs
    ensures forall e, x :: RemoveExec(Suppress(c, x), e).runs == Suppress(c, x).runs
  {}

  lemma EmitKeepsOthers(lim: Limits, c: Client, x: Exec, body: Body, bytes: nat, now: int, failBytes: nat, ok: bool,
                        e: Exec)
    requires x in c.runs && e in c.runs && e != x
    ensures var d := Emit(lim, c, x, body, bytes, now, failBytes, ok); e in d.runs && d.runs[e] == c.runs[e]
  {
    hide Overflows, DropExec, Bytes, Emit, SendFailure;
    if c.runs[x].suppressed {
      EmitSuppressed(lim, c, x, body, bytes, now, failBytes, ok);
    } else {
      EmitCases(lim, c, x, body, bytes, now, failBytes, ok);
      SendingKeepsRuns(Numbered(RemoveExec(Suppress(c, x), x), x), x, c.runs[x].nextSeq, failBytes, ok);
    }
  }

  lemma EmitSuppressed(lim: Limits, c: Client, x: Exec, body: Body, bytes: nat, now: int, failBytes: nat, ok: bool)
    requires x in c.runs && c.runs[x].suppressed
    ensures Emit(lim, c, x, body, bytes, now, failBytes, ok) == c
  {}

  lemma SendingKeepsRuns(c: Client, e: Exec, num: nat, failBytes: nat, ok: bool)
    ensures SendFailure(c, e, num, failBytes, ok).runs == c.runs
  {}

  /** What ends a run for the bridge ends it here: a cancel for its execution, a new assignment of its task, and
      stopping for good all suppress it, and nothing of it is retained. */
  lemma FailsClosed(cfg: Config, s: Sys, op: Op, t: Task)
    requires Legal(cfg, s, op) && Retained(cfg.limits, s.client) && t in s.client.inflight
    requires || op == CancelOp(t, Some(s.client.inflight[t])) || (op.AssignOp? && op.t == t)
             || op == StopOp || op == CloseOp(true)
    ensures var d := Step(cfg, s, op).client;
            Suppressed(d, s.client.inflight[t]) && (forall f :: f in d.pending ==> f.wire.exec != s.client.inflight[t])
    ensures op == StopOp || op == CloseOp(true) ==> Step(cfg, s, op).client.pending == []
  {
    var c, d, e := s.client, Step(cfg, s, op).client, s.client.inflight[t];
    RunsKnown(cfg.limits, c);
    assert e in c.inflight.Values;
    StepRetains(cfg, s, op);
    assert Suppressed(d, e) by { hide Retained, DropExec, Bytes; }
    TidyOf(cfg.limits, d);
    hide Retained, Step;
    forall f | f in d.pending ensures f.wire.exec != e { NothingHeld(d, f); }
  }

  lemma TidyOf(lim: Limits, c: Client)
    requires Retained(lim, c)
    ensures AllTidy(c)
  {}

  // ---------------------------------------------------------------- what a replay hands over

  function Wires(p: seq<Frame>): seq<Wire> {
    seq(|p|, k requires 0 <= k < |p| => p[k].wire)
  }

  /** On a healthy socket that takes every frame, a replay hands over the whole queue, in order, and changes
      nothing else. */
  lemma {:induction false} ReplayHandsOver(c: Client, i: nat, failBytes: nat, good: nat)
    requires c.socket == Open && i <= |c.pending| && good >= |c.pending| - i
    requires forall j :: i <= j < |c.pending| ==> !TooLarge(c, c.pending[j].bytes)
    ensures ReplayFrom(c, i, failBytes, good) == c.(behind := false, sent := c.sent + Wires(c.pending[i..]))
    decreases |c.pending| - i
  {
    if i == |c.pending| {
      assert Wires(c.pending[i..]) == [] && c.sent + [] == c.sent;
    } else {
      var d := c.(sent := c.sent + [c.pending[i].wire]);
      ReplayHandsOver(d, i + 1, failBytes, good - 1);
      assert c.sent + Wires(c.pending[i..]) == d.sent + Wires(c.pending[i+1..]);
    }
  }

  /** At the first frame the server would not take, a small failure goes out under that frame's number, after
      everything in front of it, and the rest of the queue waits for the next connection. */
  lemma {:induction false} ReplayStopsShort(c: Client, i: nat, k: nat, failBytes: nat, good: nat)
    requires c.ready && c.socket == Open && i <= k < |c.pending| && good > k - i
    requires TooLarge(c, c.pending[k].bytes) && failBytes <= c.maxFrame.value
    requires forall j :: i <= j < k ==> !TooLarge(c, c.pending[j].bytes)
    ensures var t, f := ReplayFrom(c, i, failBytes, good), c.pending[k].wire;
            && t.sent == c.sent + Wires(c.pending[i..k]) + [Wire(f.exec, f.num, Overflow)]
            && t.behind == (DropExec(c.pending[k+1..], f.exec) != []) && t.socket == Open
            && (forall g :: g in t.pending ==> g in c.pending)
    decreases k - i
  {
    hide DropExec, Bytes, GiveUp, SendFailure;
    if i == k {
      assert Wires(c.pending[i..k]) == [] && c.sent + [] == c.sent;
      StopsHere(c, k, failBytes, good);
    } else {
      var d := c.(sent := c.sent + [c.pending[i].wire]);
      ReplayStopsShort(d, i + 1, k, failBytes, good - 1);
      assert c.sent + Wires(c.pending[i..k]) == d.sent + Wires(c.pending[i+1..k]);
    }
  }

  lemma StopsHere(c: Client, k: nat, failBytes: nat, good: nat)
    requires c.ready && c.socket == Open && k < |c.pending| && good > 0
    requires TooLarge(c, c.pending[k].bytes) && failBytes <= c.maxFrame.value
    ensures var t, f := ReplayFrom(c, k, failBytes, good), c.pending[k].wire;
            && t.sent == c.sent + [Wire(f.exec, f.num, Overflow)]
            && t.behind == (DropExec(c.pending[k+1..], f.exec) != []) && t.socket == Open
            && (forall g :: g in t.pending ==> g in c.pending)
  {
    hide DropExec, Bytes;
    var e := c.pending[k].wire.exec;
    GiveUpKeeps(c, e);
    forall g ensures g in DropExec(c.pending, e) ==> g in c.pending { InDropExec(c.pending, e, g); }
    hide GiveUp;
  }

  lemma GiveUpKeeps(c: Client, e: Exec)
    ensures var d := GiveUp(c, e);
            && d.ready == c.ready && d.socket == c.socket && d.maxFrame == c.maxFrame && d.sent == c.sent
            && (d.pending == c.pending || d.pending == DropExec(c.pending, e))
  {
    hide DropExec, Bytes;
    var s := Suppress(c, e);
    assert s.ready == c.ready && s.socket == c.socket && s.maxFrame == c.maxFrame && s.sent == c.sent;
    assert s.pending == c.pending;
    hide Suppress;
  }
}
