/** The replay invariant while executions are given up and while retained frames are handed to a socket. */
module ReplayProofs {
  import opened Options
  import opened ReplaySpec
  import opened ReplaySystem

  // ---------------------------------------------------------------- retained numbers

  lemma NumsAppend(p: seq<Frame>, f: Frame, e: Exec)
    ensures Nums(p + [f], e) == Nums(p, e) + (if f.wire.exec == e then [f.wire.num] else [])
  {
    assert (p + [f])[..|p|] == p;
  }

  lemma {:induction false} NumsDropExec(p: seq<Frame>, x: Exec, e: Exec)
    ensures Nums(DropExec(p, x), e) == if e == x then [] else Nums(p, e)
  {
    if p != [] {
      var q, f := p[..|p|-1], p[|p|-1];
      NumsDropExec(q, x, e);
      if f.wire.exec != x { NumsAppend(DropExec(q, x), f, e); }
      else { assert DropExec(p, x) == DropExec(q, x); }
    }
  }

  lemma {:induction false} NumsNone(p: seq<Frame>, e: Exec)
    requires forall f :: f in p ==> f.wire.exec != e
    ensures Nums(p, e) == []
  {
    if p != [] {
      assert p[|p|-1] in p;
      NumsNone(p[..|p|-1], e);
    }
  }

  lemma BytesAppend(p: seq<Frame>, f: Frame)
    ensures Bytes(p + [f]) == Bytes(p) + f.bytes
  {
    assert (p + [f])[..|p|] == p;
  }

  lemma {:induction false} InDropExec(p: seq<Frame>, x: Exec, f: Frame)
    ensures f in DropExec(p, x) <==> f in p && f.wire.exec != x
  {
    if p != [] {
      InDropExec(p[..|p|-1], x, f);
      assert p == p[..|p|-1] + [p[|p|-1]];
    }
  }

  lemma {:induction false} InDropAcked(p: seq<Frame>, x: Exec, upTo: int, f: Frame)
    ensures f in DropAcked(p, x, upTo) <==> f in p && !Acked(f, x, upTo)
  {
    if p != [] {
      InDropAcked(p[..|p|-1], x, upTo, f);
      assert p == p[..|p|-1] + [p[|p|-1]];
    }
  }

  function Above(r: seq<nat>, upTo: int): seq<nat> {
    if r == [] then []
    else Above(r[..|r|-1], upTo) + (if r[|r|-1] <= upTo then [] else [r[|r|-1]])
  }

  lemma AboveAppend(r: seq<nat>, n: nat, upTo: int)
    ensures Above(r + [n], upTo) == Above(r, upTo) + (if n <= upTo then [] else [n])
  {
    assert (r + [n])[..|r|] == r;
  }

  lemma {:induction false} NumsDropAcked(p: seq<Frame>, x: Exec, upTo: int, e: Exec)
    ensures Nums(DropAcked(p, x, upTo), e) == if e == x then Above(Nums(p, e), upTo) else Nums(p, e)
  {
    if p != [] {
      var q, f := p[..|p|-1], p[|p|-1];
      NumsDropAcked(q, x, upTo, e);
      if f.wire.exec == e { AboveAppend(Nums(q, e), f.wire.num, upTo); } else { assert Nums(p, e) == Nums(q, e); }
      if Acked(f, x, upTo) { assert DropAcked(p, x, upTo) == DropAcked(q, x, upTo); }
      else { NumsAppend(DropAcked(q, x, upTo), f, e); }
    }
  }

  /** Cutting a contiguous run from below leaves a contiguous run with the same end. */
  lemma {:induction false} AboveRun(r: seq<nat>, lo: int, upTo: int)
    requires forall k :: 0 <= k < |r| ==> r[k] == lo + k
    ensures var a := Above(r, upTo);
            && |a| <= |r|
            && (forall k :: 0 <= k < |a| ==> a[k] == lo + |r| - |a| + k)
            && (|a| < |r| ==> lo + |r| - |a| <= upTo + 1)
            && (a != [] ==> a[0] > upTo)
  {
    if r != [] {
      AboveRun(r[..|r|-1], lo, upTo);
    }
  }

  lemma {:induction false} NumsPrefix(p: seq<Frame>, i: nat, e: Exec)
    requires i <= |p|
    ensures Nums(p[..i], e) <= Nums(p, e)
  {
    if i < |p| {
      assert p[..|p|-1][..i] == p[..i];
      NumsPrefix(p[..|p|-1], i, e);
    } else {
      assert p[..i] == p;
    }
  }

  /** The frame at position `i` carries the number that comes after those retained before it. */
  lemma NumAt(p: seq<Frame>, i: nat)
    requires i < |p|
    ensures var e := p[i].wire.exec;
            |Nums(p[..i], e)| < |Nums(p, e)| && p[i].wire.num == Nums(p, e)[|Nums(p[..i], e)|]
  {
    var e := p[i].wire.exec;
    assert p[..i+1] == p[..i] + [p[i]];
    NumsAppend(p[..i], p[i], e);
    NumsPrefix(p, i + 1, e);
  }

  /** Every retained number belongs to a frame of the execution. */
  lemma {:induction false} NumIsHeld(p: seq<Frame>, e: Exec, k: nat) returns (i: nat)
    requires k < |Nums(p, e)|
    ensures i < |p| && IsAt(p[i].wire, e, Nums(p, e)[k])
  {
    if p[|p|-1].wire.exec == e && k == |Nums(p, e)| - 1 {
      i := |p| - 1;
    } else {
      i := NumIsHeld(p[..|p|-1], e, k);
    }
  }

  // ---------------------------------------------------------------- giving an execution up

  /** Everything but the retained frames, one run's flag and the socket's state is as it was. */
  ghost predicate SameBut(c: Client, d: Client) {
    && d.sent == c.sent && d.ready == c.ready && d.maxFrame == c.maxFrame && d.inflight == c.inflight
    && d.behind == c.behind && d.stopped == c.stopped
    && d.runs.Keys == c.runs.Keys && (forall e :: e in c.runs ==> d.runs[e].nextSeq == c.runs[e].nextSeq)
    && (d.socket == c.socket || (c.socket == Open && d.socket == Closing))
  }

  lemma DropKeepsPending(w: World, c: Client, d: Client, x: Exec)
    requires PendingOk(w, c) && d.runs.Keys == c.runs.Keys && d.inflight == c.inflight
    requires d.pending == DropExec(c.pending, x)
    requires forall e :: e in c.runs ==>
             d.runs[e] == if e == x && e in c.runs then Run(d.runs[e].suppressed, c.runs[e].nextSeq) else c.runs[e]
    requires !Active(d, x)
    ensures PendingOk(w, d)
  {
    forall f | f in d.pending ensures f.wire.exec in d.runs && Genuine(w, f.wire) && f.wire.body != Overflow {
      InDropExec(c.pending, x, f);
    }
    forall e | e in d.runs ensures Contiguous(w, d, e) {
      NumsDropExec(c.pending, x, e);
      assert Contiguous(w, c, e);
    }
  }

  lemma SuppressOk(w: World, c: Client, e: Exec)
    requires ClientOk(w, c) && e in c.runs
    ensures var d := RemoveExec(Suppress(c, e), e); ClientOk(w, d) && SameBut(c, d)
  {
    var d := RemoveExec(Suppress(c, e), e);
    DropKeepsPending(w, c, d, e);
    hide PendingOk;
    forall y | y in d.runs ensures RunOk(w, d, y) { assert RunOk(w, c, y); }
    forall y | Active(d, y) && c.ready && c.socket == Open && !c.behind ensures CaughtUp(w, d, y) {
      assert CaughtUp(w, c, y);
    }
  }

  lemma FailRunOk(w: World, c: Client, e: Exec, disconnect: bool)
    requires ClientOk(w, c) && e in c.runs
    ensures var d := FailRun(c, e, disconnect); ClientOk(w, d) && SameBut(c, d)
  {
    hide ClientOk, Suppress, RemoveExec, Terminate;
    if !c.runs[e].suppressed {
      SuppressOk(w, c, e);
      TerminateOk(w, RemoveExec(Suppress(c, e), e));
    } else {
      SameButSelf(c);
    }
  }

  lemma RemoveFinishedOk(w: World, c: Client, e: Exec)
    requires ClientOk(w, c) && !InFlight(c, e)
    ensures ClientOk(w, RemoveExec(c, e)) && SameBut(c, RemoveExec(c, e))
    ensures ClientOk(w, Terminate(RemoveExec(c, e))) && SameBut(c, Terminate(RemoveExec(c, e)))
  {
    var d := RemoveExec(c, e);
    DropKeepsPending(w, c, d, e);
    forall y | y in d.runs ensures RunOk(w, d, y) && RunOk(w, Terminate(d), y) { assert RunOk(w, c, y); }
    forall y | Active(d, y) && c.ready && c.socket == Open && !c.behind ensures CaughtUp(w, d, y) {
      assert CaughtUp(w, c, y);
    }
    TerminateOk(w, d);
  }

  lemma TerminateOk(w: World, c: Client)
    requires ClientOk(w, c)
    ensures ClientOk(w, Terminate(c)) && SameBut(c, Terminate(c))
  {
    var d := Terminate(c);
    forall y | y in d.runs ensures RunOk(w, d, y) && Contiguous(w, d, y) {
      assert RunOk(w, c, y) && Contiguous(w, c, y);
    }
    if c.socket != Open { assert d == c; }
  }

  lemma SameButTransitive(a: Client, b: Client, c: Client)
    requires SameBut(a, b) && SameBut(b, c)
    ensures SameBut(a, c)
  {}

  lemma ExpireOneOk(w: World, c: Client, e: Exec)
    requires ClientOk(w, c)
    ensures ClientOk(w, ExpireOne(c, e)) && SameBut(c, ExpireOne(c, e))
  {
    hide PendingOk, Current;
    if InFlight(c, e) { FailRunOk(w, c, e, true); } else { RemoveFinishedOk(w, c, e); }
  }

  lemma {:induction false} ExpireAllOk(w: World, c: Client, es: seq<Exec>)
    requires ClientOk(w, c)
    ensures ClientOk(w, ExpireAll(c, es)) && SameBut(c, ExpireAll(c, es))
    decreases |es|
  {
    hide ClientOk, SameBut, ExpireOne;
    if es == [] {
      SameButSelf(c);
    } else {
      ExpireOneOk(w, c, es[0]);
      ExpireAllOk(w, ExpireOne(c, es[0]), es[1..]);
      SameButTransitive(c, ExpireOne(c, es[0]), ExpireAll(c, es));
    }
  }

  lemma SameButSelf(c: Client)
    ensures SameBut(c, c)
  {}

  // ---------------------------------------------------------------- handing frames to the socket

  lemma HasMore(fs: seq<Wire>, f: Wire, n: nat, e: Exec, num: int)
    requires n <= |fs| && Has(fs, n, e, num)
    ensures Has(fs + [f], n, e, num) && Has(fs + [f], |fs| + 1, e, num)
  {
    var j :| 0 <= j < n && IsAt(fs[j], e, num);
    assert IsAt((fs + [f])[j], e, num);
  }

  lemma HasLast(fs: seq<Wire>, f: Wire)
    ensures Has(fs + [f], |fs| + 1, f.exec, f.num)
  {
    assert IsAt((fs + [f])[|fs|], f.exec, f.num);
  }

  /** A frame whose predecessor the bridge has, or was handed over before, can follow on the socket. */
  lemma HandOver(w: World, fs: seq<Wire>, delivered: nat, f: Wire)
    requires SocketOk(w, fs, delivered) && Genuine(w, f)
    requires f.num <= |Accepted(w, f.exec)| || Has(fs, |fs|, f.exec, f.num - 1)
    ensures SocketOk(w, fs + [f], delivered)
  {
    var gs := fs + [f];
    forall i | 0 <= i < |gs| ensures Covered(w, gs, i) {
      if i < |fs| {
        assert Covered(w, fs, i) && gs[i] == fs[i];
        if Has(fs, i, fs[i].exec, fs[i].num - 1) { HasMore(fs, f, i, fs[i].exec, fs[i].num - 1); }
      } else if Has(fs, |fs|, f.exec, f.num - 1) {
        HasMore(fs, f, |fs|, f.exec, f.num - 1);
      }
    }
    forall i | 0 <= i < |gs| ensures Genuine(w, gs[i]) { if i < |fs| { assert Genuine(w, fs[i]) && gs[i] == fs[i]; } }
    forall i | 0 <= i < delivered ensures Seen(w, gs[i]) { assert Seen(w, fs[i]) && gs[i] == fs[i]; }
  }

  /** All of the first `i` retained frames were handed to the current socket. */
  ghost predicate HandedUpTo(c: Client, i: nat)
    requires i <= |c.pending|
  {
    forall j {:trigger c.pending[j]} :: 0 <= j < i ==>
      Has(c.sent, |c.sent|, c.pending[j].wire.exec, c.pending[j].wire.num)
  }

  /** The frame at position `i` of the queue may be sent once everything in front of it was. */
  lemma NextInQueue(w: World, c: Client, i: nat)
    requires PendingOk(w, c) && i < |c.pending| && HandedUpTo(c, i)
    ensures var f := c.pending[i].wire;
            f.exec in c.runs && Genuine(w, f) &&
            (f.num <= |Accepted(w, f.exec)| || Has(c.sent, |c.sent|, f.exec, f.num - 1))
  {
    var f := c.pending[i].wire;
    assert c.pending[i] in c.pending;
    assert Contiguous(w, c, f.exec);
    NumAt(c.pending, i);
    NumsPrefix(c.pending, i, f.exec);
    var m := |Nums(c.pending[..i], f.exec)|;
    if m > 0 {
      var j := NumIsHeld(c.pending[..i], f.exec, m - 1);
      assert c.pending[j] == c.pending[..i][j];
    }
  }

  /** When the whole queue was handed over, every active run is caught up. */
  lemma AllHanded(w: World, c: Client, e: Exec)
    requires PendingOk(w, c) && HandedUpTo(c, |c.pending|) && Active(c, e)
    ensures CaughtUp(w, c, e)
  {
    assert Contiguous(w, c, e);
    var r := Nums(c.pending, e);
    if r != [] {
      var j := NumIsHeld(c.pending, e, |r| - 1);
      assert IsAt(c.pending[j].wire, e, c.runs[e].nextSeq - 1);
    }
  }

  /** All but the current-socket part of what the client keeps. */
  ghost predicate Quiet(w: World, c: Client) {
    RunsOk(w, c) && PendingOk(w, c) && (c.socket == Connecting ==> !c.ready)
  }

  lemma SendQuiet(w: World, c: Client, f: Wire, ok: bool)
    requires Quiet(w, c)
    ensures Quiet(w, SendEncoded(c, f, ok))
  {
    var d := SendEncoded(c, f, ok);
    forall y | y in d.runs ensures RunOk(w, d, y) && Contiguous(w, d, y) {
      assert RunOk(w, c, y) && Contiguous(w, c, y);
    }
  }

  /** Handing a frame over keeps the client's invariant. */
  lemma SentOk(w: World, c: Client, f: Wire, ok: bool)
    requires ClientOk(w, c)
    ensures ClientOk(w, SendEncoded(c, f, ok))
  {
    var d := SendEncoded(c, f, ok);
    forall y | y in d.runs ensures RunOk(w, d, y) && Contiguous(w, d, y) {
      assert RunOk(w, c, y) && Contiguous(w, c, y);
    }
    forall y | Active(d, y) && d.ready && d.socket == Open && !d.behind ensures CaughtUp(w, d, y) {
      assert CaughtUp(w, c, y);
      if d.sent != c.sent && Has(c.sent, |c.sent|, y, c.runs[y].nextSeq - 1) {
        HasMore(c.sent, f, |c.sent|, y, c.runs[y].nextSeq - 1);
      }
    }
  }

  predicate FailureGoesOut(c: Client, failBytes: nat, ok: bool) {
    c.ready && c.socket == Open && ok && !TooLarge(c, failBytes)
  }

  lemma FailureSent(w: World, c: Client, delivered: nat, e: Exec, num: nat, failBytes: nat, ok: bool)
    requires ClientOk(w, c) && SocketOk(w, c.sent, delivered)
    requires Genuine(w, Wire(e, num, Overflow))
    requires FailureGoesOut(c, failBytes, ok) ==> num <= |Accepted(w, e)| || Has(c.sent, |c.sent|, e, num - 1)
    ensures var t := SendFailure(c, e, num, failBytes, ok); ClientOk(w, t) && SocketOk(w, t.sent, delivered)
  {
    hide ClientOk, SocketOk, Genuine, Has;
    TerminateOk(w, c);
    SentOk(w, c, Wire(e, num, Overflow), ok);
    if FailureGoesOut(c, failBytes, ok) { HandOver(w, c.sent, delivered, Wire(e, num, Overflow)); }
  }

  /** When no other execution's frame comes after position `i`, giving up the execution there leaves only frames
      that were handed over. */
  lemma RestHanded(w: World, c: Client, i: nat)
    requires PendingOk(w, c) && i < |c.pending| && HandedUpTo(c, i) && c.pending[i].wire.exec in c.runs
    requires DropExec(c.pending[i+1..], c.pending[i].wire.exec) == []
    ensures var k := GiveUp(c, c.pending[i].wire.exec); HandedUpTo(k, |k.pending|)
  {
    var e := c.pending[i].wire.exec;
    NotSuppressed(w, c, i);
    GiveUpDrops(c, e);
    hide PendingOk, DropExec, GiveUp, Has;
    var k := GiveUp(c, e);
    forall j {:trigger k.pending[j]} | 0 <= j < |k.pending|
      ensures Has(k.sent, |k.sent|, k.pending[j].wire.exec, k.pending[j].wire.num)
    {
      var m := InFront(c.pending, i, k.pending[j]);
      assert c.pending[m] == k.pending[j];
    }
  }

  lemma GiveUpDrops(c: Client, e: Exec)
    requires e in c.runs && !c.runs[e].suppressed
    ensures GiveUp(c, e).pending == DropExec(c.pending, e) && GiveUp(c, e).sent == c.sent
  {
    hide DropExec, Bytes;
  }

  /** A frame of another execution stands in front of position `i` when none stands behind it. */
  lemma InFront(p: seq<Frame>, i: nat, g: Frame) returns (m: nat)
    requires i < |p| && g in DropExec(p, p[i].wire.exec) && DropExec(p[i+1..], p[i].wire.exec) == []
    ensures m < i && p[m] == g
  {
    hide DropExec;
    InDropExec(p, p[i].wire.exec, g);
    m :| 0 <= m < |p| && p[m] == g;
    if m > i {
      assert p[i+1..][m-i-1] == g;
      InDropExec(p[i+1..], p[i].wire.exec, g);
    }
  }

  lemma NotSuppressed(w: World, c: Client, i: nat)
    requires PendingOk(w, c) && i < |c.pending| && c.pending[i].wire.exec in c.runs
    ensures !c.runs[c.pending[i].wire.exec].suppressed
  {
    NumAt(c.pending, i);
    assert Contiguous(w, c, c.pending[i].wire.exec);
  }

  /** A replay that stops at position `i`. */
  lemma CutOk(w: World, c: Client, delivered: nat, i: nat, failBytes: nat, good: nat)
    requires Quiet(w, c) && SocketOk(w, c.sent, delivered) && c.ready && c.behind
    requires i < |c.pending| && (c.socket == Open ==> HandedUpTo(c, i)) && TooLarge(c, c.pending[i].bytes)
    ensures var t := ReplayFrom(c, i, failBytes, good);
            ClientOk(w, t) && SocketOk(w, t.sent, delivered)
  {
    hide ClientOk, SocketOk, RunsOk, PendingOk, GiveUp, HandedUpTo, DropExec, SendFailure;
    var f := c.pending[i].wire;
    var k := GiveUp(c, f.exec);
    var rest := DropExec(c.pending[i+1..], f.exec) != [];
    KnownExec(w, c, i);
    BehindOk(w, c);
    GiveUpOk(w, c, f.exec);
    if rest {
      assert k == k.(behind := rest);
    } else {
      if c.socket == Open { RestHanded(w, c, i); }
      QuietOf(w, k);
      CaughtUpOk(w, k);
    }
    if c.socket == Open { NextInQueue(w, c, i); }
    FailureSent(w, k.(behind := rest), delivered, f.exec, f.num, failBytes, good > 0);
  }

  lemma QuietOf(w: World, c: Client)
    requires ClientOk(w, c)
    ensures Quiet(w, c)
  {}

  lemma KnownExec(w: World, c: Client, i: nat)
    requires PendingOk(w, c) && i < |c.pending|
    ensures c.pending[i].wire.exec in c.runs
            && Genuine(w, Wire(c.pending[i].wire.exec, c.pending[i].wire.num, Overflow))
  {
    assert c.pending[i] in c.pending;
  }

  lemma GiveUpOk(w: World, c: Client, e: Exec)
    requires ClientOk(w, c) && e in c.runs
    ensures ClientOk(w, GiveUp(c, e)) && SameBut(c, GiveUp(c, e))
  {
    hide ClientOk;
    if InFlight(c, e) { FailRunOk(w, c, e, false); } else { RemoveFinishedOk(w, c, e); }
  }

  lemma BehindOk(w: World, c: Client)
    requires Quiet(w, c) && c.behind
    ensures ClientOk(w, c)
  {}

  lemma CaughtUpOk(w: World, c: Client)
    requires Quiet(w, c) && (c.socket == Open ==> HandedUpTo(c, |c.pending|))
    ensures ClientOk(w, c.(behind := false))
  {
    var d := c.(behind := false);
    forall e | Active(d, e) && c.socket == Open ensures CaughtUp(w, d, e) { AllHanded(w, c, e); }
    forall y | y in d.runs ensures RunOk(w, d, y) && Contiguous(w, d, y) {
      assert RunOk(w, c, y) && Contiguous(w, c, y);
    }
  }

  lemma {:induction false} ReplayOk(w: World, c: Client, delivered: nat, i: nat, failBytes: nat, good: nat)
    requires Quiet(w, c) && SocketOk(w, c.sent, delivered) && c.ready && c.behind
    requires i <= |c.pending| && (c.socket == Open ==> HandedUpTo(c, i))
    ensures var t := ReplayFrom(c, i, failBytes, good);
            ClientOk(w, t) && SocketOk(w, t.sent, delivered)
    decreases |c.pending| - i
  {
    if i == |c.pending| {
      CaughtUpOk(w, c);
    } else if TooLarge(c, c.pending[i].bytes) {
      CutOk(w, c, delivered, i, failBytes, good);
    } else {
      hide SocketOk, PendingOk, RunsOk, ClientOk;
      var f := c.pending[i].wire;
      var d := SendEncoded(c, f, good > 0);
      SendQuiet(w, c, f, good > 0);
      if d.socket == Open {
        NextInQueue(w, c, i);
        HandOver(w, c.sent, delivered, f);
        HandedMore(c, i);
      }
      ReplayOk(w, d, delivered, i + 1, failBytes, if good > 0 then good - 1 else 0);
    }
  }

  lemma HandedMore(c: Client, i: nat)
    requires i < |c.pending| && HandedUpTo(c, i)
    ensures HandedUpTo(c.(sent := c.sent + [c.pending[i].wire]), i + 1)
  {
    var f := c.pending[i].wire;
    var d := c.(sent := c.sent + [f]);
    forall j | 0 <= j < i + 1 ensures Has(d.sent, |d.sent|, d.pending[j].wire.exec, d.pending[j].wire.num) {
      if j < i {
        HasMore(c.sent, f, |c.sent|, c.pending[j].wire.exec, c.pending[j].wire.num);
      } else {
        HasLast(c.sent, f);
      }
    }
  }
}
