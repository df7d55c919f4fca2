/** What each handler of the client comes to, told by its effect: which runs are suppressed, which frames stay, what the
    socket was handed, and whether it is still open. */
module ReplayHandlers {
  import opened Options
  import opened ReplaySpec
  import opened ReplaySystem
  import opened ReplayProofs
  import opened ReplaySafety
  import opened ReplayRetention

  // ---------------------------------------------------------------- expiry

  /** An execution with a frame created at or before the cutoff. */
  predicate Stale(p: seq<Frame>, e: Exec, cutoff: int) {
    exists i :: 0 <= i < |p| && p[i].wire.exec == e && p[i].createdAt <= cutoff
  }

  predicate AnyStale(p: seq<Frame>, cutoff: int) {
    exists i :: 0 <= i < |p| && p[i].createdAt <= cutoff
  }

  /** The frames of all executions but the listed ones, in their order. */
  function Except(p: seq<Frame>, es: set<Exec>): seq<Frame> {
    if p == [] then []
    else Except(p[..|p|-1], es) + (if p[|p|-1].wire.exec in es then [] else [p[|p|-1]])
  }

  lemma ExceptAppend(p: seq<Frame>, f: Frame, es: set<Exec>)
    ensures Except(p + [f], es) == Except(p, es) + (if f.wire.exec in es then [] else [f])
  {
    assert (p + [f])[..|p|] == p;
  }

  lemma {:induction false} ExceptNone(p: seq<Frame>)
    ensures Except(p, {}) == p
  {
    if p != [] { ExceptNone(p[..|p|-1]); }
  }

  lemma {:induction false} ExceptMore(p: seq<Frame>, e: Exec, es: set<Exec>)
    ensures Except(DropExec(p, e), es) == Except(p, es + {e})
  {
    if p != [] {
      var q, f := p[..|p|-1], p[|p|-1];
      ExceptMore(q, e, es);
      if f.wire.exec == e { assert DropExec(p, e) == DropExec(q, e); } else { ExceptAppend(DropExec(q, e), f, es); }
    }
  }

  ghost predicate Same(c: Client, d: Client) {
    && d.sent == c.sent && d.ready == c.ready && d.maxFrame == c.maxFrame && d.inflight == c.inflight
    && d.stopped == c.stopped && d.behind == c.behind && d.runs.Keys == c.runs.Keys
    && d.pendingBytes - Bytes(d.pending) == c.pendingBytes - Bytes(c.pending)
  }

  /** Run `e` is as it was, and suppressed as well if it is in flight and among `es`. */
  ghost predicate RunIs(c: Client, d: Client, e: Exec, es: set<Exec>)
    requires e in c.runs && e in d.runs
  {
    d.runs[e] == Run(c.runs[e].suppressed || (InFlight(c, e) && e in es), c.runs[e].nextSeq)
  }

  /** The executions are given up, those in flight fail, and an open socket ends if there was any. */
  ghost predicate GaveUp(c: Client, d: Client, es: set<Exec>) {
    && Same(c, d) && d.pending == Except(c.pending, es)
    && (forall e {:trigger RunIs(c, d, e, es)} :: e in c.runs ==> RunIs(c, d, e, es))
    && d.socket == (if es != {} && c.socket == Open then Closing else c.socket)
  }

  lemma ExpireOneExactly(c: Client, e: Exec)
    requires InFlight(c, e) ==> e in c.runs && !c.runs[e].suppressed
    ensures GaveUp(c, ExpireOne(c, e), {e})
  {
    ExceptNone(DropExec(c.pending, e));
    ExceptMore(c.pending, e, {});
    assert {} + {e} == {e};
    hide DropExec, Except, Bytes;
    var d := ExpireOne(c, e);
    assert d.pending == DropExec(c.pending, e);
    forall y | y in c.runs ensures RunIs(c, d, y, {e}) {}
  }

  lemma {:induction false} ExpireAllExactly(c: Client, es: seq<Exec>)
    requires forall i, j :: 0 <= i < j < |es| ==> es[i] != es[j]
    requires forall e :: e in es && InFlight(c, e) ==> e in c.runs && !c.runs[e].suppressed
    ensures GaveUp(c, ExpireAll(c, es), set e | e in es)
    decreases |es|
  {
    if es == [] {
      ExceptNone(c.pending);
      assert (set e | e in es) == {};
      assert forall e :: e in c.runs ==> RunIs(c, c, e, {});
    } else {
      var d, rest := ExpireOne(c, es[0]), es[1..];
      ExpireOneExactly(c, es[0]);
      NextIsOpen(c, d, es);
      ExpireAllExactly(d, rest);
      assert (set e | e in es) == (set e | e in rest) + {es[0]};
      hide ExpireOne, ExpireAll, DropExec;
      GaveUpMore(c, d, ExpireAll(d, rest), es[0], set e | e in rest);
    }
  }

  lemma NextIsOpen(c: Client, d: Client, es: seq<Exec>)
    requires es != [] && GaveUp(c, d, {es[0]}) && (forall i, j :: 0 <= i < j < |es| ==> es[i] != es[j])
    requires forall e :: e in es && InFlight(c, e) ==> e in c.runs && !c.runs[e].suppressed
    ensures forall e :: e in es[1..] && InFlight(d, e) ==> e in d.runs && !d.runs[e].suppressed
  {
    forall e | e in es[1..] && InFlight(d, e) ensures e in d.runs && !d.runs[e].suppressed {
      assert RunIs(c, d, e, {es[0]});
    }
  }

  lemma GaveUpMore(c: Client, d: Client, t: Client, e: Exec, es: set<Exec>)
    requires GaveUp(c, d, {e}) && GaveUp(d, t, es)
    ensures GaveUp(c, t, es + {e})
  {
    hide Except, Bytes;
    OneExcept(c.pending, e, es);
    forall y | y in c.runs ensures RunIs(c, t, y, es + {e}) {
      assert RunIs(c, d, y, {e}) && RunIs(d, t, y, es);
    }
  }

  lemma OneExcept(p: seq<Frame>, e: Exec, es: set<Exec>)
    ensures Except(Except(p, {e}), es) == Except(p, es + {e})
  {
    ExceptNone(DropExec(p, e));
    ExceptMore(p, e, {});
    assert {} + {e} == {e};
    ExceptMore(p, e, es);
  }

  lemma {:induction false} ExpiredOnce(p: seq<Frame>, cutoff: int)
    ensures forall i, j :: 0 <= i < j < |Expired(p, cutoff)| ==> Expired(p, cutoff)[i] != Expired(p, cutoff)[j]
  {
    if p != [] { ExpiredOnce(p[..|p|-1], cutoff); }
  }

  /** The executions listed as expired are those with a stale frame, each once and, in flight, not suppressed. */
  lemma ExpiredExactly(lim: Limits, c: Client, cutoff: int)
    requires Retained(lim, c)
    ensures var es := Expired(c.pending, cutoff);
            && (forall e :: e in es <==> Stale(c.pending, e, cutoff))
            && (forall e :: e in es && InFlight(c, e) ==> e in c.runs && !c.runs[e].suppressed)
            && (es != [] <==> AnyStale(c.pending, cutoff))
  {
    var p, es := c.pending, Expired(c.pending, cutoff);
    TidyOf(lim, c);
    hide Retained, Expired;
    forall e | e in es && InFlight(c, e) ensures e in c.runs && !c.runs[e].suppressed {
      var i :| 0 <= i < |p| && p[i].wire.exec == e && p[i].createdAt <= cutoff;
      NothingHeld(c, p[i]);
    }
    if i :| 0 <= i < |p| && p[i].createdAt <= cutoff { assert p[i].wire.exec in es; }
    if es != [] { assert es[0] in es; }
  }

  function StaleExecs(p: seq<Frame>, cutoff: int): set<Exec> {
    set i | 0 <= i < |p| && p[i].createdAt <= cutoff :: p[i].wire.exec
  }

  lemma StaleExecsAre(p: seq<Frame>, cutoff: int, es: seq<Exec>)
    requires forall e :: e in es <==> Stale(p, e, cutoff)
    ensures (set e | e in es) == StaleExecs(p, cutoff)
    ensures StaleExecs(p, cutoff) != {} <==> AnyStale(p, cutoff)
  {
    if i :| 0 <= i < |p| && p[i].createdAt <= cutoff { assert p[i].wire.exec in StaleExecs(p, cutoff); }
  }

  /** What an expiry does, whatever the order of its loop: every execution with a stale frame loses all its frames, is
      failed if it is in flight, and an open socket ends, if and only if there is any. */
  lemma ExpiryExactly(lim: Limits, c: Client, now: int)
    requires Retained(lim, c)
    ensures var d, cutoff := Expire(lim, c, now), now - lim.age;
            && GaveUp(c, d, StaleExecs(c.pending, cutoff))
            && (!AnyStale(c.pending, cutoff) ==> d == c)
  {
    hide Retained, Expired, ExpireAll, GaveUp, AnyStale, StaleExecs, Stale, Bytes, DropExec;
    var cutoff := now - lim.age;
    var es := Expired(c.pending, cutoff);
    ExpiredOnce(c.pending, cutoff);
    ExpiredExactly(lim, c, cutoff);
    ExpireAllExactly(c, es);
    StaleExecsAre(c.pending, cutoff, es);
    if es == [] { NothingToDo(c, es); }
  }

  lemma NothingToDo(c: Client, es: seq<Exec>)
    requires es == []
    ensures ExpireAll(c, es) == c
  {}

  /** An expiry ends an open socket exactly when a retained frame is at or past the age limit. */
  lemma ExpiryDisconnectsExactly(lim: Limits, c: Client, now: int)
    requires Retained(lim, c) && c.socket == Open
    ensures Expire(lim, c, now).socket != Open <==> exists f :: f in c.pending && f.createdAt <= now - lim.age
    ensures (forall f :: f in c.pending ==> f.createdAt > now - lim.age) ==> Expire(lim, c, now) == c
  {
    hide Expire, Retained, Bytes, Except, Same, RunIs;
    ExpiryExactly(lim, c, now);
    AnyStaleFrame(c.pending, now - lim.age);
  }

  lemma AnyStaleFrame(p: seq<Frame>, cutoff: int)
    ensures AnyStale(p, cutoff) <==> exists f :: f in p && f.createdAt <= cutoff
    ensures AnyStale(p, cutoff) <==> StaleExecs(p, cutoff) != {}
  {
    if f :| f in p && f.createdAt <= cutoff {
      var i :| 0 <= i < |p| && p[i] == f;
      assert p[i].wire.exec in StaleExecs(p, cutoff);
    }
    if i :| 0 <= i < |p| && p[i].createdAt <= cutoff { assert p[i] in p && p[i].wire.exec in StaleExecs(p, cutoff); }
  }

  // ---------------------------------------------------------------- replay

  /** The first frame too large for the connection, from position `i` on, or the end of the queue. */
  ghost predicate FirstTooLarge(c: Client, i: nat, k: nat) {
    && i <= k <= |c.pending| && (forall j :: i <= j < k ==> !TooLarge(c, c.pending[j].bytes))
    && (k < |c.pending| ==> TooLarge(c, c.pending[k].bytes))
  }

  /** The frames in front of `k` went out in order until a write threw; at `k` a failure went out under its number, if
      it fits and its own write worked, and the execution there is given up; the socket stays open exactly if no write
      threw and nothing stood in the failure's way. */
  ghost predicate Replayed(c: Client, t: Client, i: nat, k: nat, failBytes: nat, good: nat)
    requires FirstTooLarge(c, i, k)
  {
    var n := if good < k - i then good else k - i;
    var fails := k < |c.pending| && good > k - i && c.maxFrame.Some? && failBytes <= c.maxFrame.value;
    && t.sent == c.sent + Wires(c.pending[i..i+n])
                 + (if fails then [Wire(c.pending[k].wire.exec, c.pending[k].wire.num, Overflow)] else [])
    && t.socket == (if good >= k - i && (k < |c.pending| ==> fails) then Open else Closing)
    && (if k == |c.pending| then t.pending == c.pending && t.runs == c.runs && !t.behind else AtTooLarge(c, t, k))
  }

  /** What a replay from position `i` on comes to on an open and ready socket. */
  lemma {:induction false} ReplayExactly(c: Client, i: nat, k: nat, failBytes: nat, good: nat)
    requires c.ready && c.socket == Open && FirstTooLarge(c, i, k)
    ensures Replayed(c, ReplayFrom(c, i, failBytes, good), i, k, failBytes, good)
    decreases k - i
  {
    hide DropExec, Bytes, GiveUp, SendFailure;
    if i == k {
      assert Wires(c.pending[i..i]) == [] && c.sent + [] == c.sent;
      if k < |c.pending| { EndsAt(c, k, failBytes, good > 0); }
    } else if good > 0 {
      var d := c.(sent := c.sent + [c.pending[i].wire]);
      ReplayExactly(d, i + 1, k, failBytes, good - 1);
      var t := ReplayFrom(d, i + 1, failBytes, good - 1);
      assert ReplayFrom(c, i, failBytes, good) == t;
      OneSent(c, d, t, i, k, failBytes, good);
    } else {
      assert Wires(c.pending[i..i]) == [] && c.sent + [] == c.sent;
      ClosedReplay(c.(socket := Closing), i + 1, k, failBytes);
      SameQueue(c, c.(socket := Closing), k);
    }
  }

  lemma OneSent(c: Client, d: Client, t: Client, i: nat, k: nat, failBytes: nat, good: nat)
    requires FirstTooLarge(c, i, k) && i < k && good > 0
    requires d == c.(sent := c.sent + [c.pending[i].wire])
    requires FirstTooLarge(d, i + 1, k) && Replayed(d, t, i + 1, k, failBytes, good - 1)
    ensures Replayed(c, t, i, k, failBytes, good)
  {
    hide ReplayFrom, TooLarge;
    var n := if good < k - i then good else k - i;
    assert c.sent + Wires(c.pending[i..i+n]) == d.sent + Wires(c.pending[i+1..i+n]);
    SameQueue(c, d, k);
  }

  /** The execution at `k` is given up: failed if it is in flight, and none of its frames is left. */
  ghost predicate AtTooLarge(c: Client, t: Client, k: nat)
    requires k < |c.pending|
  {
    var e := c.pending[k].wire.exec;
    && t.behind == (DropExec(c.pending[k+1..], e) != [])
    && (!Suppressed(c, e) ==>
          && t.pending == DropExec(c.pending, e)
          && t.runs == if InFlight(c, e) && e in c.runs then c.runs[e := c.runs[e].(suppressed := true)] else c.runs)
  }

  lemma SameQueue(c: Client, d: Client, k: nat)
    requires k < |c.pending| ==> d.pending == c.pending && d.runs == c.runs && d.inflight == c.inflight
    ensures k < |c.pending| ==> forall t :: AtTooLarge(d, t, k) <==> AtTooLarge(c, t, k)
  {}

  lemma EndsAt(c: Client, k: nat, failBytes: nat, ok: bool)
    requires c.ready && c.socket == Open && k < |c.pending| && TooLarge(c, c.pending[k].bytes)
    ensures var e := c.pending[k].wire.exec;
            var t := ReplayFrom(c, k, failBytes, if ok then 1 else 0);
            && t.sent == c.sent + (if ok && failBytes <= c.maxFrame.value
                                   then [Wire(e, c.pending[k].wire.num, Overflow)] else [])
            && t.socket == (if ok && failBytes <= c.maxFrame.value then Open else Closing)
            && AtTooLarge(c, t, k)
    ensures forall good: nat :: (good > 0) == ok ==>
              ReplayFrom(c, k, failBytes, good) == ReplayFrom(c, k, failBytes, if ok then 1 else 0)
  {
    hide DropExec, Bytes;
    var e := c.pending[k].wire.exec;
    GiveUpKeeps(c, e);
    GaveUpRun(c, e);
    hide GiveUp;
  }

  lemma GaveUpRun(c: Client, e: Exec)
    ensures var d := GiveUp(c, e);
            !Suppressed(c, e) ==>
              && d.pending == DropExec(c.pending, e)
              && d.runs == if InFlight(c, e) && e in c.runs then c.runs[e := c.runs[e].(suppressed := true)] else c.runs
  {
    hide DropExec, Bytes;
  }

  /** A replay on a socket that is ending only looks for the frame that is too large. */
  lemma {:induction false} ClosedReplay(c: Client, i: nat, k: nat, failBytes: nat)
    requires c.socket == Closing && i <= k <= |c.pending|
    requires forall j :: i <= j < k ==> !TooLarge(c, c.pending[j].bytes)
    requires k < |c.pending| ==> TooLarge(c, c.pending[k].bytes)
    ensures var t := ReplayFrom(c, i, failBytes, 0);
            && t.sent == c.sent && t.socket == Closing
            && (if k == |c.pending| then t.pending == c.pending && t.runs == c.runs && !t.behind
                else AtTooLarge(c, t, k))
    decreases k - i
  {
    hide DropExec, Bytes, GiveUp;
    if i < k {
      ClosedReplay(c, i + 1, k, failBytes);
    } else if k < |c.pending| {
      GiveUpKeeps(c, c.pending[k].wire.exec);
      GaveUpRun(c, c.pending[k].wire.exec);
    }
  }

  /** A `hello.ack` makes the connection ready with its limit. On an open socket it replays the queue, unless a frame
      has expired: then nothing is sent and the socket ends. */
  lemma HelloAckExactly(lim: Limits, c: Client, maxFrame: nat, now: int, failBytes: nat, good: nat)
    requires Retained(lim, c)
    ensures var t := HelloAck(lim, c, maxFrame, now, failBytes, good);
            var k := c.(ready := true, maxFrame := Some(maxFrame), behind := true);
            && (c.socket != Open ==> t == k)
            && (c.socket == Open && AnyStale(c.pending, now - lim.age) ==> t.sent == c.sent && t.socket == Closing)
            && (c.socket == Open && !AnyStale(c.pending, now - lim.age) ==> t == ReplayFrom(k, 0, failBytes, good))
  {
    var k := c.(ready := true, maxFrame := Some(maxFrame), behind := true);
    ReadyGivesUp(c, maxFrame);
    GivingUpRetains(lim, c, k);
    ExpiryExactly(lim, k, now);
    AnyStaleFrame(c.pending, now - lim.age);
    hide Expire, ReplayFrom, Retained, AnyStale, StaleExecs, Bytes, Except, RunIs;
  }

  // ---------------------------------------------------------------- emitting

  /** What an emission comes to. A frame that fits is retained under the next number and goes out at once on a ready
      and open socket; a write that throws ends the socket. One that does not fit fails its run; its number goes to a
      failure, which goes out if the connection is ready and open and the failure fits, or else the socket ends. */
  lemma EmissionExactly(lim: Limits, c: Client, e: Exec, body: Body, bytes: nat, now: int, failBytes: nat, ok: bool)
    requires Retained(lim, c) && e in c.runs && !c.runs[e].suppressed
    ensures var d, n := Emit(lim, c, e, body, bytes, now, failBytes, ok), c.runs[e].nextSeq;
            var fits := (c.maxFrame.Some? ==> bytes <= c.maxFrame.value)
                        && |c.pending| + 1 <= lim.frames && Bytes(c.pending) + bytes <= lim.bytes;
            var open := c.ready && c.socket == Open;
            && d.runs == c.runs[e := Run(!fits, n + 1)] && d.inflight == c.inflight && d.ready == c.ready
            && d.maxFrame == c.maxFrame && d.stopped == c.stopped && d.behind == c.behind
            && (if fits then
                  && d.pending == c.pending + [Frame(Wire(e, n, body), bytes, now)]
                  && d.sent == c.sent + (if open && ok then [Wire(e, n, body)] else [])
                  && d.socket == (if open && !ok then Closing else c.socket)
                else
                  var goes := open && ok && (c.maxFrame.Some? ==> failBytes <= c.maxFrame.value);
                  && d.pending == DropExec(c.pending, e)
                  && d.sent == c.sent + (if goes then [Wire(e, n, Overflow)] else [])
                  && d.socket == (if c.socket == Open && !goes then Closing else c.socket))
  {
    hide RemoveExec, Suppress, AllTidy;
    EmitCases(lim, c, e, body, bytes, now, failBytes, ok);
    Suppressing(c, e);
    assert Overflows(lim, c, bytes) <==>
           !((c.maxFrame.Some? ==> bytes <= c.maxFrame.value)
             && |c.pending| + 1 <= lim.frames && Bytes(c.pending) + bytes <= lim.bytes);
    hide Overflows, Bytes, DropExec;
  }

  lemma Suppressing(c: Client, e: Exec)
    requires e in c.runs && !c.runs[e].suppressed
    ensures var d := Numbered(RemoveExec(Suppress(c, e), e), e);
            && d.runs == c.runs[e := Run(true, c.runs[e].nextSeq + 1)] && d.pending == DropExec(c.pending, e)
            && d.sent == c.sent && d.socket == c.socket && d.ready == c.ready && d.maxFrame == c.maxFrame
            && d.inflight == c.inflight && d.stopped == c.stopped && d.behind == c.behind
  {
    hide DropExec, Bytes;
  }

  // ---------------------------------------------------------------- the other handlers

  /** Exactly this execution is suppressed and released; all others stay as they are. */
  ghost predicate OnlyReleases(c: Client, d: Client, e: Exec) {
    && d.pending == DropExec(c.pending, e)
    && d.runs == (if e in c.runs then c.runs[e := c.runs[e].(suppressed := true)] else c.runs)
    && d.sent == c.sent && d.socket == c.socket && d.ready == c.ready && d.maxFrame == c.maxFrame
    && d.stopped == c.stopped && d.behind == c.behind
  }

  /** A cancel for the execution its task is running releases that execution, and no other cancel does anything. */
  lemma CancelExactly(c: Client, t: Task, which: Option<Exec>)
    ensures var d := Cancel(c, t, which);
            if which.Some? && t in c.inflight && c.inflight[t] == which.value
            then OnlyReleases(c, d, which.value) && d.inflight == c.inflight else d == c
  {
    hide DropExec, Bytes;
  }

  /** An assignment releases the execution the task was running, if any, and no other; the new run starts at 0. */
  lemma AssignExactly(c: Client, t: Task, e: Exec)
    requires e !in c.runs
    ensures var d := Assign(c, t, e);
            && d.inflight == c.inflight[t := e] && e in d.runs && d.runs[e] == Run(false, 0)
            && (if t in c.inflight && c.inflight[t] in c.runs
                then OnlyReleases(c, d.(runs := d.runs - {e}, inflight := c.inflight), c.inflight[t])
                else t !in c.inflight ==> d == c.(inflight := c.inflight[t := e], runs := c.runs[e := Run(false, 0)]))
  {
    hide DropExec, Bytes;
    var d := Assign(c, t, e);
    if t in c.inflight && c.inflight[t] in c.runs {
      var x := c.inflight[t];
      assert d.runs - {e} == c.runs[x := c.runs[x].(suppressed := true)];
    }
  }

  /** The end of a run takes it out of flight exactly if its task has no newer one, and does nothing else. */
  lemma FinishExactly(c: Client, t: Task, e: Exec)
    ensures var d := Finish(c, t, e);
            && d.(inflight := c.inflight) == c
            && (forall u :: u in d.inflight <==> u in c.inflight && !(u == t && c.inflight[u] == e))
            && (forall u :: u in d.inflight ==> d.inflight[u] == c.inflight[u])
  {}

  /** The loss of a connection keeps every run and every frame; a fatal one, like stopping, suppresses the runs in
      flight, no others, and retains nothing. */
  lemma ClosingExactly(c: Client, fatal: bool)
    ensures var d := Close(c, fatal);
            && d.socket == NoSocket && d.sent == [] && !d.behind && d.ready == c.ready && d.maxFrame == c.maxFrame
            && d.inflight == c.inflight && d.runs.Keys == c.runs.Keys
            && (forall e :: e in c.runs ==>
                  d.runs[e] == Run(c.runs[e].suppressed || (fatal && InFlight(c, e)), c.runs[e].nextSeq))
            && d.pending == (if fatal then [] else c.pending) && (fatal ==> d.pendingBytes == 0)
            && (!fatal ==> d.pendingBytes == c.pendingBytes) && d.stopped == (c.stopped || fatal)
    ensures var d := Stop(c);
            && d.stopped && d.pending == [] && d.pendingBytes == 0 && d.inflight == c.inflight
            && d.runs.Keys == c.runs.Keys
            && (forall e :: e in c.runs ==>
                  d.runs[e] == Run(c.runs[e].suppressed || InFlight(c, e), c.runs[e].nextSeq))
            && d.socket == (if c.socket == NoSocket then NoSocket else Closing) && d.sent == c.sent
  {}

  /** A new socket starts closed, without readiness, without a limit and without anything sent; runs and frames wait. */
  lemma ConnectExactly(c: Client)
    ensures var d := Connect(c);
            && d.socket == Connecting && !d.ready && d.maxFrame == None && d.sent == [] && !d.behind
            && d.pending == c.pending && d.pendingBytes == c.pendingBytes && d.runs == c.runs
            && d.inflight == c.inflight
            && d.stopped == c.stopped
  {}
}
