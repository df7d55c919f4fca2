/** The number of a synthetic failure. As long as no connection negotiates a smaller frame limit than an earlier
    one, a frame too large for a replay was never handed to any socket, so the failure that takes its number
    finds it unused. */
module ReplayFailures {
  import opened Options
  import opened ReplaySpec
  import opened ReplaySystem
  import opened ReplayProofs
  import opened ReplaySafety
  import opened ReplayRuns
  import opened ReplayRetention
  import opened ReplayGaps

  type SizeMap = map<Exec, seq<nat>>

  predicate Fits(z: SizeMap, h: Option<nat>, e: Exec, n: nat) {
    e in z && n < |z[e]| && h.Some? && z[e][n] <= h.value
  }

  /** Every frame a socket was handed, sockets the client gave up included. */
  ghost function InPast(past: seq<Conn>): set<Wire> {
    set k, x | k in past && x in k.sent :: x
  }

  ghost function Handed(past: set<Wire>, c: Client): set<Wire> {
    past + (set x | x in c.sent)
  }

  ghost predicate Counted(z: SizeMap, c: Client) {
    z.Keys == c.runs.Keys && (forall e {:trigger z[e]} :: e in z ==> |z[e]| == c.runs[e].nextSeq)
  }

  predicate HasSize(z: SizeMap, f: Frame) {
    f.wire.exec in z && f.wire.num < |z[f.wire.exec]| && z[f.wire.exec][f.wire.num] == f.bytes && f.wire.body.Data?
  }

  ghost predicate Measured(z: SizeMap, c: Client) {
    forall f {:trigger HasSize(z, f)} :: f in c.pending ==> HasSize(z, f)
  }

  /** A frame on a socket has a size, and a backend's frame was within the largest limit. */
  predicate Taken(z: SizeMap, h: Option<nat>, x: Wire) {
    x.exec in z && x.num < |z[x.exec]| && (x.body.Data? ==> Fits(z, h, x.exec, x.num))
  }

  ghost predicate HandedFits(z: SizeMap, h: Option<nat>, hs: set<Wire>) {
    forall x {:trigger Taken(z, h, x)} :: x in hs ==> Taken(z, h, x)
  }

  ghost predicate AcceptedFits(w: World, z: SizeMap, h: Option<nat>) {
    forall e, n: nat {:trigger Fits(z, h, e, n)} :: n < |Accepted(w, e)| && e !in w.closed ==> Fits(z, h, e, n)
  }

  /** The limit in force is the largest so far. */
  predicate Negotiated(h: Option<nat>, c: Client) {
    (c.maxFrame.Some? ==> c.maxFrame == h) && (c.ready ==> c.maxFrame.Some?)
  }

  /** The number of a failure belongs to no backend frame any more, and the bridge has not counted it. */
  ghost predicate Lone(w: World, hs: set<Wire>, p: seq<Frame>, x: Wire) {
    && (forall y {:trigger y in hs} :: y in hs && IsAt(y, x.exec, x.num) ==> y.body == Overflow)
    && (forall f {:trigger f in p} :: f in p ==> !IsAt(f.wire, x.exec, x.num))
    && (x.exec in w.closed || |Accepted(w, x.exec)| <= x.num)
  }

  ghost predicate FailuresLone(w: World, hs: set<Wire>, p: seq<Frame>) {
    forall x {:trigger Lone(w, hs, p, x)} :: x in hs && x.body == Overflow ==> Lone(w, hs, p, x)
  }

  ghost predicate Sized(w: World, z: SizeMap, h: Option<nat>, past: set<Wire>, c: Client) {
    && Counted(z, c) && Measured(z, c) && Negotiated(h, c)
    && HandedFits(z, h, Handed(past, c)) && AcceptedFits(w, z, h)
    && FailuresLone(w, Handed(past, c), c.pending)
  }

  // ---------------------------------------------------------------- steps that only give up

  /** Fewer frames, fewer sockets to read from, and the same limit or none. */
  ghost predicate Less(c: Client, d: Client) {
    && (forall f {:trigger f in d.pending} :: f in d.pending ==> f in c.pending)
    && (forall x {:trigger x in d.sent} :: x in d.sent ==> x in c.sent)
    && d.runs.Keys == c.runs.Keys
       && (forall e {:trigger d.runs[e]} :: e in c.runs ==> d.runs[e].nextSeq == c.runs[e].nextSeq)
    && ((d.maxFrame == c.maxFrame && d.ready == c.ready) || (d.maxFrame == None && !d.ready))
  }

  lemma LessSized(w: World, z: SizeMap, h: Option<nat>, past: set<Wire>, c: Client, d: Client)
    requires Sized(w, z, h, past, c) && Less(c, d)
    ensures Sized(w, z, h, past, d)
  {
    assert Handed(past, d) <= Handed(past, c);
    FewerLone(w, Handed(past, c), Handed(past, d), c.pending, d.pending);
    forall x | x in Handed(past, d) ensures Taken(z, h, x) { assert x in Handed(past, c); }
    forall f | f in d.pending ensures HasSize(z, f) { assert f in c.pending; }
  }

  lemma FewerLone(w: World, hs: set<Wire>, gs: set<Wire>, p: seq<Frame>, q: seq<Frame>)
    requires FailuresLone(w, hs, p) && gs <= hs && forall f {:trigger f in q} :: f in q ==> f in p
    ensures FailuresLone(w, gs, q)
  {
    forall x | x in gs && x.body == Overflow ensures Lone(w, gs, q, x) { assert x in hs && Lone(w, hs, p, x); }
  }

  // ---------------------------------------------------------------- handing frames over

  lemma HandedMoreSet(past: set<Wire>, c: Client, x: Wire)
    ensures Handed(past, c.(sent := c.sent + [x])) == Handed(past, c) + {x}
  {}

  lemma DataSized(w: World, z: SizeMap, h: Option<nat>, past: set<Wire>, c: Client, x: Wire)
    requires Sized(w, z, h, past, c) && x.body.Data? && Fits(z, h, x.exec, x.num)
    requires forall y :: y in Handed(past, c) && y.body == Overflow ==> !IsAt(y, x.exec, x.num)
    ensures Sized(w, z, h, past, c.(sent := c.sent + [x]))
  {
    var hs, p := Handed(past, c), c.pending;
    HandedMoreSet(past, c, x);
    hide Handed;
    forall y | y in hs + {x} ensures Taken(z, h, y) {}
    forall y | y in hs + {x} && y.body == Overflow ensures Lone(w, hs + {x}, p, y) { assert Lone(w, hs, p, y); }
    assert c.(sent := c.sent + [x]).pending == p;
    assert FailuresLone(w, hs + {x}, p);
  }

  lemma FailureSized(w: World, z: SizeMap, h: Option<nat>, past: set<Wire>, c: Client, x: Wire)
    requires Sized(w, z, h, past, c) && x.body == Overflow && x.exec in z && x.num < |z[x.exec]|
    requires Lone(w, Handed(past, c), c.pending, x)
    ensures Sized(w, z, h, past, c.(sent := c.sent + [x]))
  {
    var hs, p := Handed(past, c), c.pending;
    HandedMoreSet(past, c, x);
    hide Handed;
    forall y | y in hs + {x} ensures Taken(z, h, y) {}
    forall y | y in hs + {x} && y.body == Overflow ensures Lone(w, hs + {x}, p, y) {
      if y in hs { assert Lone(w, hs, p, y); }
    }
    assert FailuresLone(w, hs + {x}, p);
  }

  lemma SendFailureSized(w: World, z: SizeMap, h: Option<nat>, past: set<Wire>, c: Client, e: Exec, num: nat,
                         failBytes: nat, ok: bool)
    requires Sized(w, z, h, past, c) && e in z && num < |z[e]|
             && Lone(w, Handed(past, c), c.pending, Wire(e, num, Overflow))
    ensures Sized(w, z, h, past, SendFailure(c, e, num, failBytes, ok))
  {
    hide Sized, Lone;
    assert Sized(w, z, h, past, Terminate(c)) by { LessSized(w, z, h, past, c, Terminate(c)); }
    FailureSized(w, z, h, past, c, Wire(e, num, Overflow));
  }

  // ---------------------------------------------------------------- replay

  /** No suppressed run has a retained frame. */
  ghost predicate Live(c: Client) {
    forall f {:trigger f in c.pending} :: f in c.pending ==> f.wire.exec in c.runs && !c.runs[f.wire.exec].suppressed
  }

  lemma TidyLive(c: Client)
    requires AllTidy(c)
    ensures Live(c)
  {
    hide AllTidy;
    forall f | f in c.pending ensures f.wire.exec in c.runs && !c.runs[f.wire.exec].suppressed { NothingHeld(c, f); }
  }

  lemma QueueSized(w: World, z: SizeMap, h: Option<nat>, past: set<Wire>, c: Client, f: Frame, ok: bool)
    requires Sized(w, z, h, past, c) && f in c.pending && c.ready && !TooLarge(c, f.bytes)
    ensures Sized(w, z, h, past, SendEncoded(c, f.wire, ok))
  {
    hide Handed;
    assert HasSize(z, f);
    forall y | y in Handed(past, c) && y.body == Overflow ensures !IsAt(y, f.wire.exec, f.wire.num) {
      assert Lone(w, Handed(past, c), c.pending, y);
    }
    DataSized(w, z, h, past, c, f.wire);
    hide Sized;
    LessSized(w, z, h, past, c, Terminate(c));
  }

  /** The execution given up retains nothing. */
  lemma GivenUp(c: Client, e: Exec, behind: bool)
    requires Live(c) && e in c.runs && !c.runs[e].suppressed
    ensures var d := GiveUp(c, e).(behind := behind);
            Less(c, d) && d.sent == c.sent && forall f :: f in d.pending ==> f.wire.exec != e
  {
    hide DropExec, Bytes, Live;
    forall f ensures f in DropExec(c.pending, e) ==> f in c.pending && f.wire.exec != e { InDropExec(c.pending, e, f); }
  }

  lemma CutSized(w: World, z: SizeMap, h: Option<nat>, past: set<Wire>, c: Client, f: Frame, behind: bool,
                 failBytes: nat, ok: bool)
    requires Sized(w, z, h, past, c) && Live(c) && f in c.pending && TooLarge(c, f.bytes)
    ensures Sized(w, z, h, past,
            SendFailure(GiveUp(c, f.wire.exec).(behind := behind), f.wire.exec, f.wire.num, failBytes, ok))
  {
    hide GiveUp, SendFailure, Less;
    var e := f.wire.exec;
    var d, x := GiveUp(c, e).(behind := behind), Wire(e, f.wire.num, Overflow);
    assert HasSize(z, f) && !Fits(z, h, e, f.wire.num);
    GivenUp(c, e, behind);
    LessSized(w, z, h, past, c, d);
    assert Handed(past, d) == Handed(past, c);
    assert Lone(w, Handed(past, d), d.pending, x) by { NeverHanded(w, z, h, Handed(past, d), d.pending, x); }
    hide Sized;
    SendFailureSized(w, z, h, past, d, e, f.wire.num, failBytes, ok);
  }

  /** A frame above every limit so far is on no socket, and the bridge has not accepted it. */
  lemma NeverHanded(w: World, z: SizeMap, h: Option<nat>, hs: set<Wire>, p: seq<Frame>, x: Wire)
    requires HandedFits(z, h, hs) && AcceptedFits(w, z, h) && !Fits(z, h, x.exec, x.num)
    requires forall f :: f in p ==> f.wire.exec != x.exec
    ensures Lone(w, hs, p, x)
  {
    forall y | y in hs && IsAt(y, x.exec, x.num) ensures y.body == Overflow { assert Taken(z, h, y); }
  }

  lemma {:induction false} ReplaySized(w: World, z: SizeMap, h: Option<nat>, past: set<Wire>, c: Client, i: nat,
                                       failBytes: nat, good: nat)
    requires Sized(w, z, h, past, c) && Live(c) && c.ready && i <= |c.pending|
    ensures Sized(w, z, h, past, ReplayFrom(c, i, failBytes, good))
    decreases |c.pending| - i
  {
    hide Sized, GiveUp, SendFailure, DropExec;
    if i == |c.pending| {
      LessSized(w, z, h, past, c, c.(behind := false));
    } else if TooLarge(c, c.pending[i].bytes) {
      var f := c.pending[i];
      CutSized(w, z, h, past, c, f, DropExec(c.pending[i+1..], f.wire.exec) != [], failBytes, good > 0);
    } else {
      QueueSized(w, z, h, past, c, c.pending[i], good > 0);
      ReplaySized(w, z, h, past, SendEncoded(c, c.pending[i].wire, good > 0), i + 1, failBytes,
        if good > 0 then good - 1 else 0);
    }
  }

  lemma RaisedFits(w: World, z: SizeMap, h: Option<nat>, past: set<Wire>, c: Client, maxFrame: nat)
    requires Sized(w, z, h, past, c) && (h.None? || maxFrame >= h.value)
    ensures Sized(w, z, Some(maxFrame), past, c.(ready := true, maxFrame := Some(maxFrame), behind := true))
  {
    var k := c.(ready := true, maxFrame := Some(maxFrame), behind := true);
    assert Handed(past, k) == Handed(past, c);
    hide Handed;
    forall x | x in Handed(past, k) ensures Taken(z, Some(maxFrame), x) { assert Taken(z, h, x); }
    forall e, n: nat | n < |Accepted(w, e)| && e !in w.closed ensures Fits(z, Some(maxFrame), e, n) {
      assert Fits(z, h, e, n);
    }
  }

  /** An expiry drops frames and fails runs, and leaves the socket's content and the limit as they are. */
  lemma {:induction false} ExpireAllLess(c: Client, es: seq<Exec>)
    ensures Less(c, ExpireAll(c, es)) && ExpireAll(c, es).sent == c.sent
    ensures ExpireAll(c, es).ready == c.ready
    decreases |es|
  {
    hide ExpireOne;
    if es != [] {
      ExpireOneLess(c, es[0]);
      ExpireAllLess(ExpireOne(c, es[0]), es[1..]);
    }
  }

  lemma ExpireOneLess(c: Client, e: Exec)
    ensures var d := ExpireOne(c, e); Less(c, d) && d.sent == c.sent && d.ready == c.ready
  {
    hide DropExec, Bytes;
    forall f ensures f in DropExec(c.pending, e) ==> f in c.pending { InDropExec(c.pending, e, f); }
  }

  lemma HelloAckSized(lim: Limits, w: World, z: SizeMap, h: Option<nat>, past: set<Wire>, c: Client, maxFrame: nat,
                      now: int, failBytes: nat, good: nat)
    requires Sized(w, z, h, past, c) && (h.None? || maxFrame >= h.value)
    requires AllTidy(c) && c.inflight.Values <= c.runs.Keys
    ensures Sized(w, z, Some(maxFrame), past, HelloAck(lim, c, maxFrame, now, failBytes, good))
  {
    hide Sized, AllTidy, Less, GivesUp, ReplayFrom, ExpireAll, Expired;
    var k := c.(ready := true, maxFrame := Some(maxFrame), behind := true);
    RaisedFits(w, z, h, past, c, maxFrame);
    ReadyGivesUp(c, maxFrame);
    GivingUpTidy(c, k);
    var es := Expired(k.pending, now - lim.age);
    var d := ExpireAll(k, es);
    ExpireAllLess(k, es);
    LessSized(w, z, Some(maxFrame), past, k, d);
    ExpireAllGivesUp(k, es);
    GivingUpTidy(k, d);
    TidyLive(d);
    if d.socket == Open { ReplaySized(w, z, Some(maxFrame), past, d, 0, failBytes, good); }
  }

  // ---------------------------------------------------------------- emitting

  /** One more number, with its size. */
  lemma NumberedSized(w: World, v: World, z: SizeMap, h: Option<nat>, past: set<Wire>, c: Client, e: Exec, bytes: nat)
    requires Sized(w, z, h, past, c) && e in c.runs && v.accepted == w.accepted && v.closed == w.closed
    ensures Sized(v, z[e := z[e] + [bytes]], h, past, Numbered(c, e))
  {
    var y, d := z[e := z[e] + [bytes]], Numbered(c, e);
    forall f | f in d.pending ensures HasSize(y, f) { assert HasSize(z, f); }
    forall x | x in Handed(past, d) ensures Taken(y, h, x) { assert x in Handed(past, c) && Taken(z, h, x); }
    forall a, n: nat | n < |Accepted(v, a)| && a !in v.closed ensures Fits(y, h, a, n) {
      assert n < |Accepted(w, a)| && Fits(z, h, a, n);
    }
    assert Handed(past, d) == Handed(past, c);
    forall x | x in Handed(past, d) && x.body == Overflow ensures Lone(v, Handed(past, d), d.pending, x) {
      assert Lone(w, Handed(past, c), c.pending, x);
    }
  }

  /** Every number on a socket, in the queue or at the bridge is below the next one of its run. */
  lemma BelowNext(w: World, z: SizeMap, h: Option<nat>, past: set<Wire>, c: Client, e: Exec)
    requires Sized(w, z, h, past, c) && e in c.runs
    ensures forall x :: x in Handed(past, c) ==> !IsAt(x, e, c.runs[e].nextSeq)
    ensures forall f :: f in c.pending ==> !IsAt(f.wire, e, c.runs[e].nextSeq)
    ensures e in w.closed || |Accepted(w, e)| <= c.runs[e].nextSeq
  {
    hide Handed;
    var n := c.runs[e].nextSeq;
    forall x | x in Handed(past, c) ensures !IsAt(x, e, n) { assert Taken(z, h, x); }
    forall f | f in c.pending ensures !IsAt(f.wire, e, n) { assert HasSize(z, f); }
    assert !Fits(z, h, e, n);
  }

  lemma RefusedSized(w: World, v: World, z: SizeMap, h: Option<nat>, past: set<Wire>, c: Client, e: Exec, bytes: nat,
                     failBytes: nat, ok: bool)
    requires Sized(w, z, h, past, c) && e in c.runs && v.accepted == w.accepted && v.closed == w.closed
    ensures Sized(v, z[e := z[e] + [bytes]], h, past,
                  SendFailure(Numbered(RemoveExec(Suppress(c, e), e), e), e, c.runs[e].nextSeq, failBytes, ok))
  {
    var d, n := RemoveExec(Suppress(c, e), e), c.runs[e].nextSeq;
    SuppressLess(c, e);
    hide RemoveExec, Suppress, SendFailure, Handed;
    LessSized(w, z, h, past, c, d);
    BelowNext(w, z, h, past, d, e);
    NumberedSized(w, v, z, h, past, d, e, bytes);
    assert Handed(past, Numbered(d, e)) == Handed(past, d) by { SameHanded(past, d, Numbered(d, e)); }
    forall y | y in Handed(past, d) ensures !IsAt(y, e, n) {}
    assert Lone(v, Handed(past, d), d.pending, Wire(e, n, Overflow));
    assert |z[e]| == n;
    hide Sized, Lone;
    SendFailureSized(v, z[e := z[e] + [bytes]], h, past, Numbered(d, e), e, n, failBytes, ok);
  }

  lemma SameHanded(past: set<Wire>, c: Client, d: Client)
    requires d.sent == c.sent
    ensures Handed(past, d) == Handed(past, c)
  {}

  lemma SuppressLess(c: Client, e: Exec)
    requires e in c.runs
    ensures Less(c, RemoveExec(Suppress(c, e), e)) && e in RemoveExec(Suppress(c, e), e).runs
    ensures RemoveExec(Suppress(c, e), e).runs[e].nextSeq == c.runs[e].nextSeq
  {
    hide DropExec, Bytes;
    forall f ensures f in DropExec(c.pending, e) ==> f in c.pending { InDropExec(c.pending, e, f); }
  }

  lemma RoomSized(w: World, v: World, z: SizeMap, h: Option<nat>, past: set<Wire>, c: Client, f: Frame, ok: bool)
    requires Sized(w, z, h, past, c) && f.wire.exec in c.runs && v.accepted == w.accepted && v.closed == w.closed
    requires f.wire.num == c.runs[f.wire.exec].nextSeq && f.wire.body.Data? && !TooLarge(c, f.bytes)
    ensures Sized(v, z[f.wire.exec := z[f.wire.exec] + [f.bytes]], h, past,
                  if c.ready then SendEncoded(Retaining(c, f), f.wire, ok) else Retaining(c, f))
  {
    var e := f.wire.exec;
    var y, d, k := z[e := z[e] + [f.bytes]], Numbered(c, e), Retaining(c, f);
    BelowNext(w, z, h, past, c, e);
    NumberedSized(w, v, z, h, past, c, e, f.bytes);
    SameHanded(past, c, d);
    SameHanded(past, d, k);
    hide Handed;
    assert HasSize(y, f);
    RetainedSized(v, y, h, past, d, k, f);
    if c.ready { QueueSized(v, y, h, past, k, f, ok); }
  }

  lemma RetainedSized(w: World, z: SizeMap, h: Option<nat>, past: set<Wire>, d: Client, k: Client, f: Frame)
    requires Sized(w, z, h, past, d) && HasSize(z, f) && Handed(past, k) == Handed(past, d)
    requires k.pending == d.pending + [f] && k.runs == d.runs && k.maxFrame == d.maxFrame && k.ready == d.ready
    requires forall x :: x in Handed(past, d) ==> !IsAt(x, f.wire.exec, f.wire.num)
    ensures Sized(w, z, h, past, k)
  {
    hide Handed;
    forall g | g in k.pending ensures HasSize(z, g) { if g in d.pending { assert HasSize(z, g); } }
    forall x | x in Handed(past, k) && x.body == Overflow ensures Lone(w, Handed(past, k), k.pending, x) {
      assert Lone(w, Handed(past, d), d.pending, x);
      assert IsAt(f.wire, x.exec, x.num) ==> IsAt(x, f.wire.exec, f.wire.num);
    }
  }

  // ---------------------------------------------------------------- the bridge

  lemma ReceiveSized(w: World, z: SizeMap, h: Option<nat>, past: set<Wire>, c: Client, x: Wire)
    requires Sized(w, z, h, past, c) && x in Handed(past, c)
    ensures Sized(Receive(w, x), z, h, past, c)
  {
    var v, hs, p := Receive(w, x), Handed(past, c), c.pending;
    hide Handed;
    assert Taken(z, h, x);
    forall e, n: nat | n < |Accepted(v, e)| && e !in v.closed ensures Fits(z, h, e, n) {
      if n < |Accepted(w, e)| { assert Fits(z, h, e, n); }
    }
    forall y | y in hs && y.body == Overflow ensures Lone(v, hs, p, y) {
      assert Lone(w, hs, p, y);
      if |Accepted(v, y.exec)| > |Accepted(w, y.exec)| && x.num == y.num { assert IsAt(x, y.exec, y.num); }
    }
  }

  // ---------------------------------------------------------------- steps and runs

  ghost predicate SysSized(s: Sys) {
    Sized(s.world, s.sizes, s.highest, InPast(s.past), s.client)
  }

  lemma AssignSized(w: World, v: World, z: SizeMap, h: Option<nat>, past: set<Wire>, c: Client, t: Task, e: Exec)
    requires Sized(w, z, h, past, c) && e !in c.runs && c.inflight.Values <= c.runs.Keys
    requires v.accepted == w.accepted && v.closed == w.closed
    ensures Sized(v, z[e := []], h, past, Assign(c, t, e))
  {
    hide RemoveExec, Suppress, Handed;
    var k := if t in c.inflight then RemoveExec(Suppress(c, c.inflight[t]), c.inflight[t]) else c;
    if t in c.inflight { SuppressLess(c, c.inflight[t]); }
    LessSized(w, z, h, past, c, k);
    NewRunSized(w, v, z, h, past, k, t, e);
  }

  lemma NewRunSized(w: World, v: World, z: SizeMap, h: Option<nat>, past: set<Wire>, c: Client, t: Task, e: Exec)
    requires Sized(w, z, h, past, c) && e !in c.runs && v.accepted == w.accepted && v.closed == w.closed
    ensures Sized(v, z[e := []], h, past, c.(inflight := c.inflight[t := e], runs := c.runs[e := Run(false, 0)]))
  {
    var y, d := z[e := []], c.(inflight := c.inflight[t := e], runs := c.runs[e := Run(false, 0)]);
    SameHanded(past, c, d);
    hide Handed;
    forall f | f in d.pending ensures HasSize(y, f) { assert HasSize(z, f); }
    forall x | x in Handed(past, d) ensures Taken(y, h, x) { assert Taken(z, h, x); }
    forall a, n: nat | n < |Accepted(v, a)| && a !in v.closed ensures Fits(y, h, a, n) {
      assert n < |Accepted(w, a)| && Fits(z, h, a, n);
    }
    forall x | x in Handed(past, d) && x.body == Overflow ensures Lone(v, Handed(past, d), d.pending, x) {
      assert Lone(w, Handed(past, c), c.pending, x);
    }
  }

  lemma EmitSized(cfg: Config, s: Sys, op: Op)
    requires SysSized(s) && op.EmitOp? && Legal(cfg, s, op)
    ensures SysSized(Step(cfg, s, op))
  {
    hide Sized, InPast, SendFailure, SendEncoded, RemoveExec, Suppress, Emit;
    var lim, c, e, past := cfg.limits, s.client, op.e, InPast(s.past);
    if c.runs[e].suppressed {
      EmitSuppressed(lim, c, e, op.body, op.bytes, op.now, op.failBytes, op.ok);
    } else {
      var v, f := Step(cfg, s, op).world, Frame(Wire(e, c.runs[e].nextSeq, op.body), op.bytes, op.now);
      EmitCases(lim, c, e, op.body, op.bytes, op.now, op.failBytes, op.ok);
      KnownSizes(s, e);
      if Overflows(lim, c, op.bytes) {
        RefusedSized(s.world, v, s.sizes, s.highest, past, c, e, op.bytes, op.failBytes, op.ok);
      } else {
        RoomSized(s.world, v, s.sizes, s.highest, past, c, f, op.ok);
      }
    }
  }

  lemma KnownSizes(s: Sys, e: Exec)
    requires SysSized(s) && e in s.client.runs
    ensures e in s.sizes
  {}

  /** A socket that is given up or replaced changes nothing about what any socket was handed, but may forget it. */
  lemma CloseSized(cfg: Config, s: Sys, fatal: bool)
    requires SysSized(s) && Legal(cfg, s, CloseOp(fatal))
    ensures SysSized(Step(cfg, s, CloseOp(fatal)))
  {
    var t, c := Step(cfg, s, CloseOp(fatal)), s.client;
    assert InPast(t.past) == Handed(InPast(s.past), c) by {
      assert Conn(c.sent, s.delivered) in t.past;
      forall x | x in InPast(t.past) ensures x in Handed(InPast(s.past), c) {
        var k :| k in t.past && x in k.sent;
        assert k in s.past || k == Conn(c.sent, s.delivered);
      }
      forall x | x in InPast(s.past) ensures x in InPast(t.past) {
        var k :| k in s.past && x in k.sent;
        assert k in t.past;
      }
    }
    MovedSized(s.world, s.sizes, s.highest, InPast(s.past), InPast(t.past), c);
    hide Sized, InPast;
    LessSized(s.world, s.sizes, s.highest, InPast(t.past), c.(sent := []), t.client);
  }

  lemma MovedSized(w: World, z: SizeMap, h: Option<nat>, past: set<Wire>, more: set<Wire>, c: Client)
    requires Sized(w, z, h, past, c) && more == Handed(past, c)
    ensures Sized(w, z, h, more, c.(sent := []))
  {
    assert Handed(more, c.(sent := [])) == Handed(past, c);
  }

  lemma PastRead(s: Sys, i: nat)
    requires i < |s.past| && s.past[i].delivered < |s.past[i].sent|
    ensures s.past[i].sent[s.past[i].delivered] in InPast(s.past)
    ensures InPast(s.past[i := s.past[i].(delivered := s.past[i].delivered + 1)]) == InPast(s.past)
  {
    var k, past := s.past[i], s.past[i := s.past[i].(delivered := s.past[i].delivered + 1)];
    assert k in s.past && past[i] in past && k.sent[k.delivered] in k.sent;
    forall x ensures x in InPast(past) <==> x in InPast(s.past) {
      if x in InPast(past) {
        var m :| 0 <= m < |past| && x in past[m].sent;
        assert s.past[m] in s.past && x in s.past[m].sent;
      }
      if x in InPast(s.past) {
        var m :| 0 <= m < |s.past| && x in s.past[m].sent;
        assert past[m] in past && x in past[m].sent;
      }
    }
  }

  lemma AcknowledgeLess(c: Client, e: Exec, upTo: int)
    ensures Less(c, Acknowledge(c, e, upTo))
  {
    hide DropAcked, Bytes;
    forall f ensures f in DropAcked(c.pending, e, upTo) ==> f in c.pending { InDropAcked(c.pending, e, upTo, f); }
  }

  lemma CancelLess(c: Client, t: Task, which: Option<Exec>)
    requires c.inflight.Values <= c.runs.Keys
    ensures Less(c, Cancel(c, t, which))
  {
    hide RemoveExec, Suppress;
    if t in c.inflight && which.Some? && c.inflight[t] == which.value { SuppressLess(c, which.value); }
  }

  lemma StepSized(cfg: Config, s: Sys, op: Op)
    requires SysSized(s) && Retained(cfg.limits, s.client) && Legal(cfg, s, op) && !cfg.lowersLimit
    ensures SysSized(Step(cfg, s, op))
  {
    RunsKnown(cfg.limits, s.client);
    TidyOf(cfg.limits, s.client);
    hide Sized, InPast, Retained, AllTidy, Emit, HelloAck, Acknowledge, Cancel, Assign, Expire, Receive, Record, Less;
    var c, w, z, h, past := s.client, s.world, s.sizes, s.highest, InPast(s.past);
    var t := Step(cfg, s, op);
    match op
    case AssignOp(k, e) => AssignSized(w, t.world, z, h, past, c, k, e);
    case EmitOp(_, _, _, _, _, _) => EmitSized(cfg, s, op);
    case HelloAckOp(m, now, fb, good) => HelloAckSized(cfg.limits, w, z, h, past, c, m, now, fb, good);
    case TaskAckOp(e, upTo) =>
      AcknowledgeLess(c, e, upTo);
      LessSized(w, z, h, past, c, t.client);
    case CancelOp(k, which) =>
      CancelLess(c, k, which);
      LessSized(w, z, h, past, c, t.client);
    case CloseOp(fatal) => CloseSized(cfg, s, fatal);
    case ExpireOp(now) =>
      ExpireAllLess(c, Expired(c.pending, now - cfg.limits.age));
      LessSized(w, z, h, past, c, t.client) by { hide ExpireAll; }
    case DeliverOp => ReceiveSized(w, z, h, past, c, c.sent[s.delivered]);
    case DeliverPastOp(i) =>
      PastRead(s, i);
      ReceiveSized(w, z, h, past, c, s.past[i].sent[s.past[i].delivered]);
    case _ =>
      OtherLess(cfg, s, op);
      LessSized(w, z, h, past, c, t.client);
  }

  lemma OtherLess(cfg: Config, s: Sys, op: Op)
    requires Legal(cfg, s, op) && (op.FinishOp? || op.ConnectOp? || op.OpenedOp? || op.TerminateOp? || op.StopOp?)
    ensures Less(s.client, Step(cfg, s, op).client)
  {}

  lemma {:induction false} RunSized(cfg: Config, s: Sys, ops: seq<Op>, t: Sys)
    requires SysSized(s) && Retained(cfg.limits, s.client) && Steps(cfg, s, ops, t) && !cfg.lowersLimit
    ensures SysSized(t)
    decreases |ops|
  {
    hide SysSized, Retained, Step, Legal;
    if ops != [] {
      StepSized(cfg, s, ops[0]);
      StepRetains(cfg, s, ops[0]);
      RunSized(cfg, Step(cfg, s, ops[0]), ops[1..], t);
    }
  }

  lemma StartSized()
    ensures SysSized(Start)
  {}

  // ---------------------------------------------------------------- the number of a failure

  /** A failure that the bridge is about to read, of an execution it still listens to. */
  ghost predicate FailureDue(s: Sys, k: Conn) {
    && IsSocket(s, k) && k.delivered < |k.sent|
    && k.sent[k.delivered].body == Overflow && k.sent[k.delivered].exec !in s.world.closed
  }

  predicate IsNext(w: World, f: Wire) {
    f.num == |Accepted(w, f.exec)|
  }

  ghost predicate FailuresAreNext(cfg: Config) {
    forall s, k :: Reachable(cfg, s) && FailureDue(s, k) ==> IsNext(s.world, k.sent[k.delivered])
  }

  /** Without a lowered limit no failure repeats a number the bridge counted, whatever the backends do. */
  lemma FailureNeverRepeats(cfg: Config, s: Sys, k: Conn)
    requires Reachable(cfg, s) && !cfg.lowersLimit && FailureDue(s, k)
    ensures k.sent[k.delivered].num >= |Accepted(s.world, k.sent[k.delivered].exec)|
  {
    var ops :| Steps(cfg, Start, ops, s);
    assert SysSized(s) by {
      StartSized();
      RunSized(cfg, Start, ops, s);
    }
    var past, x := InPast(s.past), k.sent[k.delivered];
    assert x in k.sent && x in Handed(past, s.client);
    hide Handed;
    assert Lone(s.world, Handed(past, s.client), s.client.pending, x);
  }

  /** Every failure about to be read, on any socket in any orderly run, carries exactly the number the bridge
      expects next, if and only if the server never lowers its frame limit. */
  lemma FailuresAreNextExactly(cfg: Config)
    requires RoomForOne(cfg.limits) && Orderly(cfg)
    ensures FailuresAreNext(cfg) <==> !cfg.lowersLimit
  {
    hide Reachable, Orderly;
    if cfg.lowersLimit {
      FailureMayRepeat(cfg);
      var s :| Reachable(cfg, s) && s.delivered < |s.client.sent| &&
               var f := s.client.sent[s.delivered];
               f.body == Overflow && f.exec !in s.world.closed && f.num < |Accepted(s.world, f.exec)|;
      assert FailureDue(s, Conn(s.client.sent, s.delivered));
    } else {
      forall s, k | Reachable(cfg, s) && FailureDue(s, k) ensures IsNext(s.world, k.sent[k.delivered]) {
        FailureIsNext(cfg, s, k);
        FailureNeverRepeats(cfg, s, k);
      }
    }
  }
}
