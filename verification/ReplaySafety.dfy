/** The replay invariant while the bridge reads a frame and while a run emits. An emission keeps it when its
    frame may follow on the socket and continues what reaches the bridge. */
module ReplaySafety {
  import opened Options
  import opened ReplaySpec
  import opened ReplaySystem
  import opened ReplayProofs

  // ---------------------------------------------------------------- the world only grows

  /** The bridge covers at least as much, and what was emitted or refused before is as it was. */
  ghost predicate Grown(w: World, v: World) {
    && (forall e :: |Accepted(w, e)| <= |Accepted(v, e)|)
    && w.closed <= v.closed
    && (forall e :: e in w.emitted ==> e in v.emitted && w.emitted[e] <= v.emitted[e])
    && (forall e {:trigger e in v.refused} :: e in v.refused && e in w.emitted && v.refused[e] < |w.emitted[e]| ==>
          e in w.refused && w.refused[e] == v.refused[e])
  }

  lemma GenuineGrown(w: World, v: World, f: Wire)
    requires Grown(w, v) && Genuine(w, f)
    ensures Genuine(v, f)
  {
    assert w.emitted[f.exec][f.num] == v.emitted[f.exec][f.num];
  }

  lemma SocketGrown(w: World, v: World, fs: seq<Wire>, delivered: nat)
    requires Grown(w, v) && SocketOk(w, fs, delivered)
    ensures SocketOk(v, fs, delivered)
  {
    forall i | 0 <= i < |fs| ensures Covered(v, fs, i) && Genuine(v, fs[i]) {
      assert Covered(w, fs, i) && Genuine(w, fs[i]);
      GenuineGrown(w, v, fs[i]);
    }
    forall i | 0 <= i < delivered ensures Seen(v, fs[i]) { assert Seen(w, fs[i]); }
  }

  ghost predicate PastOk(w: World, past: seq<Conn>) {
    forall i {:trigger past[i]} :: 0 <= i < |past| ==> SocketOk(w, past[i].sent, past[i].delivered)
  }

  lemma PastGrown(w: World, v: World, past: seq<Conn>)
    requires Grown(w, v) && PastOk(w, past)
    ensures PastOk(v, past)
  {
    hide Grown, SocketOk;
    forall i | 0 <= i < |past| ensures SocketOk(v, past[i].sent, past[i].delivered) {
      SocketGrown(w, v, past[i].sent, past[i].delivered);
    }
  }

  // ---------------------------------------------------------------- the bridge reads a frame

  /** The next frame of a socket never runs ahead of the bridge. */
  lemma NoGap(w: World, fs: seq<Wire>, delivered: nat)
    requires SocketOk(w, fs, delivered) && delivered < |fs|
    ensures var f := fs[delivered]; f.exec in w.closed || f.num <= |Accepted(w, f.exec)|
    ensures Receive(w, fs[delivered]).gap == w.gap
  {
    var f := fs[delivered];
    assert Covered(w, fs, delivered);
    if f.num > |Accepted(w, f.exec)| {
      var j :| 0 <= j < delivered && IsAt(fs[j], f.exec, f.num - 1);
      assert Seen(w, fs[j]);
    }
  }

  lemma ReceiveGrows(w: World, f: Wire)
    ensures Grown(w, Receive(w, f))
  {}

  lemma ReceiveKeepsRuns(w: World, c: Client, f: Wire)
    requires RunsOk(w, c) && Genuine(w, f)
    ensures RunsOk(Receive(w, f), c)
  {
    hide RunOk, Genuine;
    var v := Receive(w, f);
    assert f.exec in w.emitted by { Named(w, f); }
    forall e | e in c.runs ensures RunOk(v, c, e) {
      assert RunOk(w, c, e);
      ReceiveKeepsRun(w, c, f, e);
    }
  }

  lemma Named(w: World, f: Wire)
    requires Genuine(w, f)
    ensures f.exec in w.emitted
  {}

  lemma ReceiveKeepsRun(w: World, c: Client, f: Wire, e: Exec)
    requires e in c.runs && RunOk(w, c, e) && Genuine(w, f)
    ensures RunOk(Receive(w, f), c, e)
  {
    var v := Receive(w, f);
    assert Emitted(v, e) == Emitted(w, e);
    if e != f.exec { assert Accepted(v, e) == Accepted(w, e); }
  }

  lemma ClientGrown(w: World, v: World, c: Client)
    requires Grown(w, v) && PendingOk(w, c) && Current(w, c) && v.emitted.Keys == w.emitted.Keys
    ensures PendingOk(v, c) && Current(v, c)
  {
    forall f | f in c.pending ensures f.wire.exec in c.runs && Genuine(v, f.wire) && f.wire.body != Overflow {
      GenuineGrown(w, v, f.wire);
    }
    forall e | e in c.runs ensures Contiguous(v, c, e) { assert Contiguous(w, c, e); }
    forall e | Active(c, e) && c.ready && c.socket == Open && !c.behind ensures CaughtUp(v, c, e) {
      assert CaughtUp(w, c, e);
    }
  }

  lemma ReadNext(w: World, fs: seq<Wire>, delivered: nat)
    requires SocketOk(w, fs, delivered) && delivered < |fs|
    ensures SocketOk(Receive(w, fs[delivered]), fs, delivered + 1)
  {
    var v := Receive(w, fs[delivered]);
    NoGap(w, fs, delivered);
    ReceiveGrows(w, fs[delivered]);
    SocketGrown(w, v, fs, delivered);
    forall i | 0 <= i < delivered + 1 ensures Seen(v, fs[i]) { if i < delivered { assert Seen(v, fs[i]); } }
  }

  lemma ReceiveOk(w: World, c: Client, fs: seq<Wire>, delivered: nat)
    requires ClientOk(w, c) && SocketOk(w, fs, delivered) && delivered < |fs|
    ensures ClientOk(Receive(w, fs[delivered]), c)
  {
    assert Genuine(w, fs[delivered]);
    hide Genuine, Grown, RunsOk, PendingOk, Current, SocketOk;
    ReceiveKeepsRuns(w, c, fs[delivered]);
    ReceiveGrows(w, fs[delivered]);
    ClientGrown(w, Receive(w, fs[delivered]), c);
  }

  // ---------------------------------------------------------------- emitting

  /** The world after a run emitted one more frame. */
  function Emitting(w: World, e: Exec, body: Body): World {
    w.(emitted := w.emitted[e := Emitted(w, e) + [body]])
  }

  function Refusing(w: World, e: Exec, num: nat): World {
    w.(refused := w.refused[e := num])
  }

  function Numbered(c: Client, e: Exec): Client
    requires e in c.runs
  {
    c.(runs := c.runs[e := c.runs[e].(nextSeq := c.runs[e].nextSeq + 1)])
  }

  lemma EmittingGrows(w: World, c: Client, e: Exec, body: Body)
    requires RunsOk(w, c) && e in c.runs
    ensures Grown(w, Emitting(w, e, body))
  {
    forall y ensures Accepted(Emitting(w, e, body), y) == Accepted(w, y) {}
    assert RunOk(w, c, e);
  }

  lemma RefusingGrows(w: World, c: Client, e: Exec, body: Body)
    requires RunsOk(w, c) && e in c.runs
    ensures Grown(w, Refusing(Emitting(w, e, body), e, c.runs[e].nextSeq))
  {
    forall y ensures Accepted(Refusing(Emitting(w, e, body), e, c.runs[e].nextSeq), y) == Accepted(w, y) {}
    assert RunOk(w, c, e);
  }

  lemma HeldGenuine(w: World, v: World, c: Client, d: Client)
    requires PendingOk(w, c) && Grown(w, v) && d.pending == c.pending && d.runs.Keys == c.runs.Keys
    ensures forall f :: f in d.pending ==> f.wire.exec in d.runs && Genuine(v, f.wire) && f.wire.body != Overflow
  {
    hide Genuine, Grown, Contiguous;
    forall f | f in d.pending ensures f.wire.exec in d.runs && Genuine(v, f.wire) && f.wire.body != Overflow {
      GenuineGrown(w, v, f.wire);
    }
  }

  lemma EmittedAt(w: World, e: Exec, body: Body, y: Exec)
    ensures Emitted(Emitting(w, e, body), y) == Emitted(w, y) + if y == e then [body] else []
    ensures Accepted(Emitting(w, e, body), y) == Accepted(w, y)
  {}

  lemma RefuseRun(w: World, c: Client, e: Exec, body: Body, y: Exec)
    requires e in c.runs && y in c.runs && RunOk(w, c, y) && c.runs[e].suppressed && e !in w.refused && body.Data?
    ensures RunOk(Refusing(Emitting(w, e, body), e, c.runs[e].nextSeq), Numbered(c, e), y)
  {
    EmittedAt(w, e, body, y);
  }

  lemma RefuseContiguous(w: World, c: Client, e: Exec, body: Body, y: Exec)
    requires e in c.runs && y in c.runs && Contiguous(w, c, y) && c.runs[e].suppressed
    ensures Contiguous(Refusing(Emitting(w, e, body), e, c.runs[e].nextSeq), Numbered(c, e), y)
  {
    EmittedAt(w, e, body, y);
  }

  /** A suppressed run that retains nothing may take one more number, refused. */
  lemma RefuseOk(w: World, c: Client, e: Exec, body: Body)
    requires ClientOk(w, c) && e in c.runs && c.runs[e].suppressed && e !in w.refused && body.Data?
    ensures ClientOk(Refusing(Emitting(w, e, body), e, c.runs[e].nextSeq), Numbered(c, e))
  {
    hide Genuine, Grown, RunOk, Contiguous;
    var n := c.runs[e].nextSeq;
    var v, d := Refusing(Emitting(w, e, body), e, n), Numbered(c, e);
    RefusingGrows(w, c, e, body);
    HeldGenuine(w, v, c, d);
    forall y | y in d.runs ensures RunOk(v, d, y) && Contiguous(v, d, y) {
      assert RunOk(w, c, y) && Contiguous(w, c, y);
      RefuseRun(w, c, e, body, y);
      RefuseContiguous(w, c, e, body, y);
    }
    forall y | Active(d, y) && d.ready && d.socket == Open && !d.behind ensures CaughtUp(v, d, y) {
      assert CaughtUp(w, c, y);
      EmittedAt(w, e, body, y);
    }
  }

  /** The frame may follow on the current socket. */
  ghost predicate MayFollow(w: World, c: Client, e: Exec)
    requires e in c.runs
  {
    c.runs[e].nextSeq <= |Accepted(w, e)| || Has(c.sent, |c.sent|, e, c.runs[e].nextSeq - 1)
  }

  /** What the run retains reaches down to what the bridge accepted. */
  ghost predicate Reaches(w: World, c: Client, e: Exec)
    requires e in c.runs
  {
    c.runs[e].nextSeq - |Nums(c.pending, e)| <= |Accepted(w, e)|
  }

  /** An emission hands a frame to the socket at once: its own or the failure. */
  predicate GoesOut(lim: Limits, c: Client, bytes: nat, failBytes: nat, ok: bool) {
    if Overflows(lim, c, bytes) then FailureGoesOut(c, failBytes, ok) else c.ready && c.socket == Open && ok
  }

  /** A frame that goes out may follow, and one that is retained continues what reaches the bridge. */
  ghost predicate Sound(lim: Limits, w: World, c: Client, e: Exec, bytes: nat, failBytes: nat, ok: bool)
    requires e in c.runs
  {
    && (GoesOut(lim, c, bytes, failBytes, ok) ==> MayFollow(w, c, e))
    && (!Overflows(lim, c, bytes) ==> Reaches(w, c, e))
  }

  /** A run in flight emits soundly on a socket that is not behind. */
  lemma ActiveSound(lim: Limits, w: World, c: Client, e: Exec, bytes: nat, failBytes: nat, ok: bool)
    requires ClientOk(w, c) && Active(c, e)
    requires c.ready && c.socket == Open ==> !c.behind
    ensures Sound(lim, w, c, e, bytes, failBytes, ok)
  {
    hide Overflows;
    assert Contiguous(w, c, e);
    if c.ready && c.socket == Open { assert CaughtUp(w, c, e); }
  }

  function Retaining(c: Client, f: Frame): Client
    requires f.wire.exec in c.runs
  {
    Numbered(c, f.wire.exec).(pending := c.pending + [f], pendingBytes := c.pendingBytes + f.bytes)
  }

  /** The two outcomes of an emission by a run that is not suppressed. */
  lemma EmitCases(lim: Limits, c: Client, e: Exec, body: Body, bytes: nat, now: int, failBytes: nat, ok: bool)
    requires e in c.runs && !c.runs[e].suppressed
    ensures var t, n := Emit(lim, c, e, body, bytes, now, failBytes, ok), c.runs[e].nextSeq;
            var d := Retaining(c, Frame(Wire(e, n, body), bytes, now));
            if Overflows(lim, c, bytes) then
              t == SendFailure(Numbered(RemoveExec(Suppress(c, e), e), e), e, n, failBytes, ok)
            else
              t == if c.ready then SendEncoded(d, Wire(e, n, body), ok) else d
  {
    NumberedFail(c, e);
    assert Overflows(lim, Numbered(c, e), bytes) == Overflows(lim, c, bytes);
    hide Overflows, SendFailure, RemoveExec, Suppress, SendEncoded, FailRun;
  }

  /** Counting the frame and failing its run commute. */
  lemma NumberedFail(c: Client, e: Exec)
    requires e in c.runs && !c.runs[e].suppressed
    ensures FailRun(c.(runs := c.runs[e := Run(false, c.runs[e].nextSeq + 1)]), e, false) ==
            Numbered(RemoveExec(Suppress(c, e), e), e)
    ensures RemoveExec(Suppress(c, e), e).runs == c.runs[e := Run(true, c.runs[e].nextSeq)]
  {}

  lemma RunFacts(w: World, c: Client, e: Exec)
    requires ClientOk(w, c) && e in c.runs && !c.runs[e].suppressed
    ensures e !in w.refused && |Emitted(w, e)| == c.runs[e].nextSeq && e in w.emitted
  {
    assert RunOk(w, c, e);
  }

  /** A frame over a limit: its run is failed, and the failure takes its number. */
  lemma OverflowOk(lim: Limits, w: World, c: Client, delivered: nat, e: Exec, body: Body, bytes: nat, now: int,
                   failBytes: nat, ok: bool)
    requires ClientOk(w, c) && SocketOk(w, c.sent, delivered) && e in c.runs && !c.runs[e].suppressed && body.Data?
    requires Sound(lim, w, c, e, bytes, failBytes, ok) && Overflows(lim, c, bytes)
    ensures var v, t := Refusing(Emitting(w, e, body), e, c.runs[e].nextSeq),
            Emit(lim, c, e, body, bytes, now, failBytes, ok);
            ClientOk(v, t) && SocketOk(v, t.sent, delivered)
  {
    hide ClientOk, SocketOk, Overflows, Grown, RunsOk, PendingOk, Current, RemoveExec, Suppress, SendFailure;
    var n := c.runs[e].nextSeq;
    var v, d := Refusing(Emitting(w, e, body), e, n), RemoveExec(Suppress(c, e), e);
    RunFacts(w, c, e);
    FactsOf(w, c);
    RefusingGrows(w, c, e, body);
    SuppressOk(w, c, e);
    NumberedFail(c, e);
    RefuseOk(w, d, e, body);
    SocketGrown(w, v, c.sent, delivered);
    EmitCases(lim, c, e, body, bytes, now, failBytes, ok);
    EmittedAt(w, e, body, e);
    assert TooLarge(Numbered(d, e), failBytes) == TooLarge(c, failBytes);
    FailureSent(v, Numbered(d, e), delivered, e, n, failBytes, ok);
  }

  lemma RetainRun(w: World, c: Client, f: Frame, y: Exec)
    requires f.wire.exec in c.runs && y in c.runs && RunOk(w, c, y)
    requires y == f.wire.exec ==> !c.runs[y].suppressed && f.wire.body.Data?
    ensures RunOk(Emitting(w, f.wire.exec, f.wire.body), Retaining(c, f), y)
  {
    EmittedAt(w, f.wire.exec, f.wire.body, y);
  }

  lemma RetainContiguous(w: World, c: Client, f: Frame, y: Exec)
    requires y in c.runs && Contiguous(w, c, y) && f.wire.exec in c.runs && !c.runs[f.wire.exec].suppressed
    requires Reaches(w, c, f.wire.exec) && f.wire.num == c.runs[f.wire.exec].nextSeq
    ensures Contiguous(Emitting(w, f.wire.exec, f.wire.body), Retaining(c, f), y)
  {
    hide Nums;
    EmittedAt(w, f.wire.exec, f.wire.body, y);
    NumsAppend(c.pending, f, y);
  }

  /** The retained frame is the next of its run. */
  lemma RetainOk(w: World, c: Client, f: Frame)
    requires ClientOk(w, c) && f.wire.exec in c.runs && !c.runs[f.wire.exec].suppressed && f.wire.body.Data?
    requires Reaches(w, c, f.wire.exec) && f.wire.num == c.runs[f.wire.exec].nextSeq
    ensures var v := Emitting(w, f.wire.exec, f.wire.body);
            RunsOk(v, Retaining(c, f)) && PendingOk(v, Retaining(c, f)) && Genuine(v, f.wire)
  {
    hide Genuine, Grown, RunOk, Contiguous;
    var d := Retaining(c, f);
    var v := Emitting(w, f.wire.exec, f.wire.body);
    EmittingGrows(w, c, f.wire.exec, f.wire.body);
    RunFacts(w, c, f.wire.exec);
    NewGenuine(w, f.wire);
    HeldGenuine(w, v, c, c);
    forall y | y in d.runs ensures RunOk(v, d, y) && Contiguous(v, d, y) {
      assert RunOk(w, c, y) && Contiguous(w, c, y);
      RetainRun(w, c, f, y);
      RetainContiguous(w, c, f, y);
    }
  }

  lemma NewGenuine(w: World, f: Wire)
    requires |Emitted(w, f.exec)| == f.num && f.exec !in w.refused
    ensures Genuine(Emitting(w, f.exec, f.body), f)
  {}

  lemma TakenOk(lim: Limits, w: World, c: Client, delivered: nat, e: Exec, body: Body, bytes: nat, now: int,
                failBytes: nat, ok: bool)
    requires ClientOk(w, c) && SocketOk(w, c.sent, delivered) && e in c.runs && !c.runs[e].suppressed && body.Data?
    requires Sound(lim, w, c, e, bytes, failBytes, ok) && !Overflows(lim, c, bytes)
    ensures var v, t := Emitting(w, e, body), Emit(lim, c, e, body, bytes, now, failBytes, ok);
            ClientOk(v, t) && SocketOk(v, t.sent, delivered)
  {
    hide ClientOk, SocketOk, Overflows, Grown, RunsOk, PendingOk, Current, Genuine;
    var v, f := Emitting(w, e, body), Wire(e, c.runs[e].nextSeq, body);
    var d := Retaining(c, Frame(f, bytes, now));
    var t := Emit(lim, c, e, body, bytes, now, failBytes, ok);
    EmitCases(lim, c, e, body, bytes, now, failBytes, ok);
    FactsOf(w, c);
    EmittingGrows(w, c, e, body);
    RetainOk(w, c, Frame(f, bytes, now));
    SocketGrown(w, v, c.sent, delivered);
    if t.socket == Open && t.ready {
      EmittedAt(w, e, body, e);
      HandOver(v, c.sent, delivered, f);
      NowCaughtUp(w, c, e, body, d, f);
    } else {
      NotConnecting(w, c);
      QuietOk(v, d, f, ok);
    }
  }

  lemma NotConnecting(w: World, c: Client)
    requires Current(w, c)
    ensures c.socket == Connecting ==> !c.ready
  {}

  lemma QuietOk(w: World, d: Client, f: Wire, ok: bool)
    requires RunsOk(w, d) && PendingOk(w, d) && (d.socket == Connecting ==> !d.ready)
    requires d.ready ==> SendEncoded(d, f, ok).socket != Open
    ensures var t := if d.ready then SendEncoded(d, f, ok) else d; ClientOk(w, t) && t.sent == d.sent
  {
    if d.ready { SendQuiet(w, d, f, ok); }
  }

  lemma MoreSent(w: World, d: Client, f: Wire)
    requires RunsOk(w, d) && PendingOk(w, d)
    ensures RunsOk(w, d.(sent := d.sent + [f])) && PendingOk(w, d.(sent := d.sent + [f]))
  {
    var t := d.(sent := d.sent + [f]);
    forall y | y in t.runs ensures RunOk(w, t, y) && Contiguous(w, t, y) {
      assert RunOk(w, d, y) && Contiguous(w, d, y);
    }
  }

  /** After a frame was retained and handed over, its run is caught up and so is every other run. */
  lemma NowCaughtUp(w: World, c: Client, e: Exec, body: Body, d: Client, f: Wire)
    requires ClientOk(w, c) && e in c.runs && c.ready && c.socket == Open
    requires d.runs == Numbered(c, e).runs && d.inflight == c.inflight && d.sent == c.sent && d.behind == c.behind
    requires d.ready && d.socket == Open
    requires f == Wire(e, c.runs[e].nextSeq, body)
    requires RunsOk(Emitting(w, e, body), d) && PendingOk(Emitting(w, e, body), d)
    ensures ClientOk(Emitting(w, e, body), d.(sent := d.sent + [f]))
  {
    hide RunsOk, PendingOk;
    var v, t := Emitting(w, e, body), d.(sent := d.sent + [f]);
    MoreSent(v, d, f);
    FactsOf(w, c);
    forall y | Active(t, y) && !t.behind ensures CaughtUp(v, t, y) {
      if y == e { HasLast(c.sent, f); }
      else {
        assert CaughtUp(w, c, y);
        if Has(c.sent, |c.sent|, y, c.runs[y].nextSeq - 1) { HasMore(c.sent, f, |c.sent|, y, c.runs[y].nextSeq - 1); }
      }
    }
  }

  /** `sendTaskFrame` of a run that emits soundly. */
  lemma EmitOk(lim: Limits, w: World, c: Client, delivered: nat, e: Exec, body: Body, bytes: nat, now: int,
               failBytes: nat, ok: bool)
    requires ClientOk(w, c) && SocketOk(w, c.sent, delivered) && e in c.runs && body.Data?
    requires !c.runs[e].suppressed ==> Sound(lim, w, c, e, bytes, failBytes, ok)
    ensures var v, t := Record(lim, c, w, e, body, bytes), Emit(lim, c, e, body, bytes, now, failBytes, ok);
            ClientOk(v, t) && SocketOk(v, t.sent, delivered) && Grown(w, v) && v.gap == w.gap
  {
    hide ClientOk, SocketOk, Overflows, RunsOk;
    if c.runs[e].suppressed {
    } else if Overflows(lim, c, bytes) {
      OverflowOk(lim, w, c, delivered, e, body, bytes, now, failBytes, ok);
      FactsOf(w, c);
      RefusingGrows(w, c, e, body);
    } else {
      TakenOk(lim, w, c, delivered, e, body, bytes, now, failBytes, ok);
      FactsOf(w, c);
      EmittingGrows(w, c, e, body);
    }
  }

  lemma FactsOf(w: World, c: Client)
    requires ClientOk(w, c)
    ensures RunsOk(w, c) && PendingOk(w, c) && Current(w, c)
  {}
}
