/** The daemon's client as it is written: fields and run objects updated by its handlers, each proved equal
    to the value-level step. A run object outlives its entry in `inflight`: the backend keeps it. */
module ReplayClient {
  import opened Options
  import opened ReplaySpec

  class ClientRun {
    const executionId: Exec
    var suppressed: bool
    var nextSeq: nat
    /** The backend's signal. */
    var aborted: bool

    constructor (executionId: Exec)
      ensures this.executionId == executionId && !suppressed && nextSeq == 0 && !aborted
    {
      this.executionId := executionId;
      suppressed, nextSeq, aborted := false, 0, false;
    }
  }

  class ReplayClient {
    const limits: Limits
    var pendingFrames: seq<Frame>
    var pendingBytes: int
    var replayReady: bool
    var ws: Socket
    var negotiatedMaxFrameBytes: Option<nat>
    var inflight: map<Task, ClientRun>
    var stopped: bool
    /** Every run there ever was, by execution. */
    ghost var runs: map<Exec, ClientRun>
    /** What the current socket was handed, and whether its replay is still owed something. */
    ghost var sent: seq<Wire>
    ghost var behind: bool

    ghost predicate Valid()
      reads this`runs, this`inflight
    {
      && (forall e :: e in runs ==> runs[e].executionId == e)
      && (forall t :: t in inflight ==> inflight[t].executionId in runs && runs[inflight[t].executionId] == inflight[t])
    }

    ghost function RunStates(): map<Exec, Run>
      reads this`runs, runs.Values`suppressed, runs.Values`nextSeq
    {
      map e | e in runs :: Run(runs[e].suppressed, runs[e].nextSeq)
    }

    ghost function Tasks(): map<Task, Exec>
      reads this`inflight
    {
      map t | t in inflight :: inflight[t].executionId
    }

    ghost function Model(): Client
      reads this, runs.Values`suppressed, runs.Values`nextSeq
    {
      Client(pendingFrames, pendingBytes, replayReady, ws, negotiatedMaxFrameBytes, Tasks(), RunStates(), stopped, sent,
        behind)
    }

    ghost predicate Holds(run: ClientRun)
      reads this`runs
    {
      run.executionId in runs && runs[run.executionId] == run
    }

    constructor (limits: Limits)
      ensures Valid() && Model() == Fresh && this.limits == limits && fresh(this)
    {
      this.limits := limits;
      pendingFrames, pendingBytes := [], 0;
      replayReady, ws, negotiatedMaxFrameBytes, stopped := false, NoSocket, None, false;
      inflight, runs := map[], map[];
      sent, behind := [], false;
    }

    // ---------------------------------------------------------------- retained frames

    method RemovePendingExecution(e: Exec)
      modifies this`pendingFrames, this`pendingBytes
      ensures Model() == RemoveExec(old(Model()), e)
    {
      var kept, i := [], 0;
      while i < |pendingFrames|
        invariant 0 <= i <= |pendingFrames| && pendingFrames == old(pendingFrames)
        invariant kept == DropExec(pendingFrames[..i], e)
        invariant pendingBytes == old(pendingBytes) - Bytes(pendingFrames[..i]) + Bytes(kept)
      {
        assert pendingFrames[..i+1][..i] == pendingFrames[..i];
        if pendingFrames[i].wire.exec != e {
          assert (kept + [pendingFrames[i]])[..|kept|] == kept;
          kept := kept + [pendingFrames[i]];
        } else {
          pendingBytes := pendingBytes - pendingFrames[i].bytes;
        }
        i := i + 1;
      }
      assert pendingFrames[..i] == pendingFrames;
      pendingFrames := kept;
    }

    method AcknowledgeFrames(e: Exec, acceptedSeq: int)
      modifies this`pendingFrames, this`pendingBytes
      ensures Model() == Acknowledge(old(Model()), e, acceptedSeq)
    {
      var kept, i := [], 0;
      while i < |pendingFrames|
        invariant 0 <= i <= |pendingFrames| && pendingFrames == old(pendingFrames)
        invariant kept == DropAcked(pendingFrames[..i], e, acceptedSeq)
        invariant pendingBytes == old(pendingBytes) - Bytes(pendingFrames[..i]) + Bytes(kept)
      {
        assert pendingFrames[..i+1][..i] == pendingFrames[..i];
        if pendingFrames[i].wire.exec != e || pendingFrames[i].wire.num > acceptedSeq {
          assert (kept + [pendingFrames[i]])[..|kept|] == kept;
          kept := kept + [pendingFrames[i]];
        } else {
          pendingBytes := pendingBytes - pendingFrames[i].bytes;
        }
        i := i + 1;
      }
      assert pendingFrames[..i] == pendingFrames;
      pendingFrames := kept;
    }

    // ---------------------------------------------------------------- the socket

    method TerminateSocket()
      modifies this`ws
      ensures Model() == Terminate(old(Model()))
    {
      if ws == Open { ws := Closing; }
    }

    method SendOn(w: Wire, ok: bool)
      modifies this`ws, this`sent
      ensures Model() == SendEncoded(old(Model()), w, ok)
    {
      if ws == Open {
        if ok { sent := sent + [w]; } else { ws := Closing; }
      }
    }

    method FailReliableRun(run: ClientRun, disconnect: bool)
      requires Valid() && Holds(run)
      modifies this`pendingFrames, this`pendingBytes, this`ws, run`suppressed
      ensures Valid() && Model() == FailRun(old(Model()), run.executionId, disconnect)
    {
      if run.suppressed { return; }
      run.suppressed := true;
      assert RunStates() == old(RunStates())[run.executionId := Run(true, run.nextSeq)];
      RemovePendingExecution(run.executionId);
      if disconnect { TerminateSocket(); }
    }

    method SendReliableFailureAndDisconnect(e: Exec, num: nat, failBytes: nat, ok: bool)
      modifies this`ws, this`sent
      ensures Model() == SendFailure(old(Model()), e, num, failBytes, ok)
    {
      if !replayReady || ws != Open {
        TerminateSocket();
        return;
      }
      if negotiatedMaxFrameBytes.Some? && failBytes > negotiatedMaxFrameBytes.value {
        TerminateSocket();
        return;
      }
      SendOn(Wire(e, num, Overflow), ok);
    }

    method TakeNumber(run: ClientRun) returns (num: nat)
      requires Valid() && Holds(run) && !run.suppressed
      modifies run`nextSeq
      ensures Valid() && num == old(run.nextSeq)
      ensures Model() == old(Model()).(runs := old(Model()).runs[run.executionId := Run(false, num + 1)])
    {
      num := run.nextSeq;
      run.nextSeq := run.nextSeq + 1;
      assert RunStates() == old(RunStates())[run.executionId := Run(false, num + 1)];
    }

    method Retain(f: Frame)
      modifies this`pendingFrames, this`pendingBytes
      ensures Model() == old(Model()).(pending := old(pendingFrames) + [f], pendingBytes := old(pendingBytes) + f.bytes)
    {
      pendingFrames := pendingFrames + [f];
      pendingBytes := pendingBytes + f.bytes;
    }

    lemma RunState(run: ClientRun)
      requires Holds(run)
      ensures run.executionId in Model().runs && Model().runs[run.executionId] == Run(run.suppressed, run.nextSeq)
    {}

    method OverLimit(bytes: nat) returns (over: bool)
      ensures over == Overflows(limits, Model(), bytes)
    {
      over := (negotiatedMaxFrameBytes.Some? && bytes > negotiatedMaxFrameBytes.value)
        || bytes > limits.bytes || |pendingFrames| >= limits.frames || pendingBytes + bytes > limits.bytes;
    }

    method SendTaskFrame(run: ClientRun, body: Body, bytes: nat, now: int, failBytes: nat, ok: bool)
      requires Valid() && Holds(run)
      modifies this`pendingFrames, this`pendingBytes, this`ws, this`sent, run
      ensures Valid() && Model() == Emit(limits, old(Model()), run.executionId, body, bytes, now, failBytes, ok)
    {
      hide FailRun, SendFailure, SendEncoded, Overflows, RunStates, Tasks;
      RunState(run);
      if run.suppressed { return; }
      var num := TakeNumber(run);
      var over := OverLimit(bytes);
      if over {
        FailReliableRun(run, false);
        SendReliableFailureAndDisconnect(run.executionId, num, failBytes, ok);
        return;
      }
      Retain(Frame(Wire(run.executionId, num, body), bytes, now));
      if replayReady { SendOn(Wire(run.executionId, num, body), ok); }
    }

    // ---------------------------------------------------------------- expiry and replay

    /** The run among those in flight with this execution, if any. */
    method FindRun(e: Exec) returns (r: Option<ClientRun>)
      requires Valid()
      ensures r.Some? <==> InFlight(Model(), e)
      ensures r.Some? ==> r.value.executionId == e && Holds(r.value)
    {
      if t :| t in inflight && inflight[t].executionId == e {
        assert Tasks()[t] == e;
        r := Some(inflight[t]);
      } else {
        r := None;
        assert forall t :: t in Tasks() ==> Tasks()[t] == inflight[t].executionId;
      }
    }

    method ExpiredExecutions(cutoff: int) returns (es: seq<Exec>)
      ensures es == Expired(pendingFrames, cutoff)
    {
      es := [];
      var i := 0;
      while i < |pendingFrames|
        invariant 0 <= i <= |pendingFrames| && es == Expired(pendingFrames[..i], cutoff)
      {
        assert pendingFrames[..i+1][..i] == pendingFrames[..i];
        if pendingFrames[i].createdAt <= cutoff && pendingFrames[i].wire.exec !in es {
          es := es + [pendingFrames[i].wire.exec];
        }
        i := i + 1;
      }
      assert pendingFrames[..i] == pendingFrames;
    }

    method ExpirePendingFrames(now: int)
      requires Valid()
      modifies this`pendingFrames, this`pendingBytes, this`ws, runs.Values`suppressed
      ensures Valid() && Model() == Expire(limits, old(Model()), now)
    {
      hide ExpireOne, RunStates, Tasks;
      if |pendingFrames| == 0 { return; }
      var es := ExpiredExecutions(now - limits.age);
      var i := 0;
      assert es[0..] == es;
      while i < |es|
        invariant 0 <= i <= |es| && Valid()
        invariant ExpireAll(Model(), es[i..]) == ExpireAll(old(Model()), es)
      {
        assert es[i..][1..] == es[i+1..];
        ExpireExecution(es[i]);
        i := i + 1;
      }
    }

    method ExpireExecution(e: Exec)
      requires Valid()
      modifies this`pendingFrames, this`pendingBytes, this`ws, runs.Values`suppressed
      ensures Valid() && Model() == ExpireOne(old(Model()), e)
    {
      var run := FindRun(e);
      if run.Some? {
        FailReliableRun(run.value, ws == Open);
      } else {
        RemovePendingExecution(e);
        TerminateSocket();
      }
    }

    method GiveUpReplay(e: Exec)
      requires Valid()
      modifies this`pendingFrames, this`pendingBytes, this`ws, runs.Values`suppressed
      ensures Valid() && Model() == GiveUp(old(Model()), e)
    {
      var run := FindRun(e);
      if run.Some? { FailReliableRun(run.value, false); } else { RemovePendingExecution(e); }
    }

    /** The replay meets a frame the server would not take. */
    method StopReplay(i: nat, failBytes: nat, ok: bool)
      requires Valid() && i < |pendingFrames|
      modifies this`pendingFrames, this`pendingBytes, this`ws, this`sent, this`behind, runs.Values`suppressed
      ensures Valid()
      ensures var f, rest := old(pendingFrames[i].wire),
              old(DropExec(pendingFrames[i+1..], pendingFrames[i].wire.exec) != []);
              Model() == SendFailure(GiveUp(old(Model()), f.exec).(behind := rest), f.exec, f.num, failBytes, ok)
    {
      hide GiveUp, SendFailure, RunStates, Tasks, DropExec;
      var entry := pendingFrames[i];
      ghost var rest := DropExec(pendingFrames[i+1..], entry.wire.exec) != [];
      GiveUpReplay(entry.wire.exec);
      behind := rest;
      SendReliableFailureAndDisconnect(entry.wire.exec, entry.wire.num, failBytes, ok);
    }

    method FlushPendingFrames(now: int, failBytes: nat, good: nat)
      requires Valid()
      modifies this`pendingFrames, this`pendingBytes, this`ws, this`sent, this`behind, runs.Values`suppressed
      ensures Valid() && Model() == Flush(limits, old(Model()), now, failBytes, good)
    {
      hide Expire, GiveUp, SendFailure, SendEncoded, RunStates, Tasks, DropExec;
      if !replayReady || ws != Open { return; }
      ExpirePendingFrames(now);
      if !replayReady || ws != Open { return; }
      ghost var start := Model();
      var i, left := 0, good;
      while i < |pendingFrames|
        invariant 0 <= i <= |pendingFrames| && Valid()
        invariant ReplayFrom(Model(), i, failBytes, left) == ReplayFrom(start, 0, failBytes, good)
      {
        var entry := pendingFrames[i];
        if negotiatedMaxFrameBytes.Some? && entry.bytes > negotiatedMaxFrameBytes.value {
          StopReplay(i, failBytes, left > 0);
          return;
        }
        SendOn(entry.wire, left > 0);
        left := if left > 0 then left - 1 else 0;
        i := i + 1;
      }
      behind := false;
    }

    // ---------------------------------------------------------------- handlers

    /** `scopeMissing`: the backend needs a caller scope that the server does not support. `replays`: the server
        has the replay capability. */
    method OnHelloAck(scopeMissing: bool, replays: bool, maxFrameBytes: nat, now: int, failBytes: nat, good: nat)
      requires Valid()
      modifies this`pendingFrames, this`pendingBytes, this`ws, this`sent, this`behind, this`replayReady,
        this`negotiatedMaxFrameBytes, this`stopped, runs.Values`suppressed, runs.Values`aborted
      ensures Valid()
      ensures Model() == if scopeMissing then Stop(old(Model()))
                         else if replays then HelloAck(limits, old(Model()), maxFrameBytes, now, failBytes, good)
                         else old(Model())
      ensures forall r :: r in runs.Values ==> r.aborted == (old(r.aborted) || (scopeMissing && r in inflight.Values))
    {
      hide Flush, Halt, RunStates, Tasks;
      if scopeMissing {
        StopClient();
        return;
      }
      if !replays { return; }
      replayReady, negotiatedMaxFrameBytes, behind := true, Some(maxFrameBytes), true;
      FlushPendingFrames(now, failBytes, good);
    }

    /** A cancel without an execution id, or for the current one, aborts the backend; only the latter also
        suppresses the run. */
    method OnCancel(t: Task, e: Option<Exec>)
      requires Valid()
      modifies this`pendingFrames, this`pendingBytes, runs.Values`suppressed, runs.Values`aborted
      ensures Valid() && Model() == Cancel(old(Model()), t, e)
      ensures forall r :: r in runs.Values ==>
                r.aborted ==
                (old(r.aborted) || (t in inflight && inflight[t] == r && (e.None? || e.value == r.executionId)))
    {
      hide RemoveExec, Suppress, RunStates;
      if t in inflight && (e.None? || inflight[t].executionId == e.value) {
        assert Tasks()[t] == inflight[t].executionId;
        if e.Some? {
          SuppressRun(inflight[t]);
          RemovePendingExecution(e.value);
        }
        inflight[t].aborted := true;
      } else {
        assert t in inflight ==> Tasks()[t] == inflight[t].executionId;
      }
    }

    method SuppressRun(run: ClientRun)
      requires Valid() && Holds(run)
      modifies run`suppressed
      ensures Valid() && Model() == Suppress(old(Model()), run.executionId)
    {
      run.suppressed := true;
      assert RunStates() == old(RunStates())[run.executionId := Run(true, run.nextSeq)];
    }

    /** A run still in flight for the task gives way. */
    method SupersedeRun(t: Task)
      requires Valid()
      modifies this`pendingFrames, this`pendingBytes, runs.Values`suppressed, runs.Values`aborted
      ensures Valid()
      ensures Model() ==
              var c := old(Model());
              if t in c.inflight then RemoveExec(Suppress(c, c.inflight[t]), c.inflight[t]) else c
      ensures forall r :: r in runs.Values ==> r.aborted == (old(r.aborted) || (t in inflight && inflight[t] == r))
    {
      hide RemoveExec, Suppress;
      if t in inflight {
        assert Tasks()[t] == inflight[t].executionId;
        SuppressRun(inflight[t]);
        inflight[t].aborted := true;
        RemovePendingExecution(inflight[t].executionId);
      }
    }

    method RegisterRun(t: Task, e: Exec) returns (run: ClientRun)
      requires Valid() && e !in runs
      modifies this`inflight, this`runs
      ensures Valid() && fresh(run) && Holds(run) && run.executionId == e
      ensures Model() ==
              old(Model()).(inflight := old(Model()).inflight[t := e], runs := old(Model()).runs[e := Run(false, 0)])
    {
      run := new ClientRun(e);
      runs := runs[e := run];
      inflight := inflight[t := run];
      assert Tasks() == old(Tasks())[t := e];
      assert RunStates() == old(RunStates())[e := Run(false, 0)];
    }

    /** `runTask` up to the call of the backend. Execution ids are never used twice. */
    method RunTask(t: Task, e: Exec) returns (run: ClientRun)
      requires Valid() && e !in runs
      modifies this`pendingFrames, this`pendingBytes, this`inflight, this`runs, runs.Values`suppressed,
               runs.Values`aborted
      ensures Valid() && fresh(run) && Holds(run) && run.executionId == e
      ensures Model() == Assign(old(Model()), t, e)
      ensures forall r :: r in old(runs.Values) ==>
                r.aborted == (old(r.aborted) || (t in old(inflight) && old(inflight)[t] == r))
    {
      hide RemoveExec, Suppress;
      SupersedeRun(t);
      run := RegisterRun(t, e);
    }

    method TaskEnded(t: Task, run: ClientRun)
      requires Valid() && Holds(run)
      modifies this`inflight
      ensures Valid() && Model() == Finish(old(Model()), t, run.executionId)
    {
      if t in inflight && inflight[t] == run {
        inflight := inflight - {t};
        assert Tasks() == old(Tasks()) - {t};
      } else {
        assert t in Tasks() ==> Tasks()[t] == inflight[t].executionId;
      }
    }

    /** Stop for good: suppress every run in flight and retain nothing. */
    method Shut()
      requires Valid()
      modifies this`stopped, this`pendingFrames, this`pendingBytes, runs.Values`suppressed, runs.Values`aborted
      ensures Valid() && Model() == Halt(old(Model()))
      ensures forall r :: r in runs.Values ==> r.aborted == (old(r.aborted) || r in inflight.Values)
    {
      stopped := true;
      SuppressInFlight();
      pendingFrames, pendingBytes := [], 0;
    }

    method SuppressInFlight()
      requires Valid()
      modifies runs.Values`suppressed, runs.Values`aborted
      ensures Valid() && RunStates() == SuppressAll(old(RunStates()), Tasks().Values)
      ensures forall r :: r in runs.Values ==> r.aborted == (old(r.aborted) || r in inflight.Values)
    {
      hide RunStates, Tasks, Seen;
      assert Seen(inflight.Keys) == {} by { NoneSeen(); }
      var todo := inflight.Keys;
      while todo != {}
        invariant todo <= inflight.Keys && Valid()
        invariant forall e {:trigger runs[e]} :: e in runs ==>
                    && runs[e].suppressed == (old(runs[e].suppressed) || e in Seen(todo))
                    && runs[e].aborted == (old(runs[e].aborted) || e in Seen(todo))
        decreases |todo|
      {
        var t :| t in todo;
        SeenMore(todo, t);
        inflight[t].suppressed := true;
        inflight[t].aborted := true;
        todo := todo - {t};
      }
      AllSeen();
      Suppressing();
    }

    lemma NoneSeen()
      ensures Seen(inflight.Keys) == {}
    {}

    twostate lemma Suppressing()
      requires old(runs) == runs
      requires forall e :: e in runs ==> runs[e].suppressed == (old(runs[e].suppressed) || e in Tasks().Values)
      requires forall e :: e in runs ==> runs[e].nextSeq == old(runs[e].nextSeq)
      ensures RunStates() == SuppressAll(old(RunStates()), Tasks().Values)
    {}

    lemma AllSeen()
      requires Valid()
      ensures Seen({}) == Tasks().Values
      ensures forall r :: r in runs.Values ==> (r in inflight.Values <==> r.executionId in Seen({}))
    {
      forall e | e in Tasks().Values ensures e in Seen({}) {
        var t :| t in Tasks() && Tasks()[t] == e;
      }
      forall e | e in Seen({}) ensures e in Tasks().Values {
        var t :| t in inflight && inflight[t].executionId == e;
        assert Tasks()[t] == e;
      }
      forall r | r in runs.Values && r.executionId in Seen({}) ensures r in inflight.Values {
        var t :| t in inflight && inflight[t].executionId == r.executionId;
        var e :| e in runs && runs[e] == r;
      }
    }

    lemma SeenMore(todo: set<Task>, t: Task)
      requires Valid() && t in todo && todo <= inflight.Keys
      ensures Seen(todo - {t}) == Seen(todo) + {inflight[t].executionId}
    {}

    /** The executions of the runs in flight that the loop is done with. */
    ghost function Seen(todo: set<Task>): set<Exec>
      reads this`inflight
    {
      set t | t in inflight && t !in todo :: inflight[t].executionId
    }

    method OnClose(fatal: bool)
      requires Valid()
      modifies this`ws, this`sent, this`behind, this`stopped, this`pendingFrames, this`pendingBytes,
        runs.Values`suppressed, runs.Values`aborted
      ensures Valid() && Model() == Close(old(Model()), fatal)
      ensures forall r :: r in runs.Values ==> r.aborted == (old(r.aborted) || (fatal && r in inflight.Values))
    {
      hide Halt, RunStates, Tasks;
      ws, sent, behind := NoSocket, [], false;
      if fatal { Shut(); }
    }

    method StopClient()
      requires Valid()
      modifies this`ws, this`stopped, this`pendingFrames, this`pendingBytes, runs.Values`suppressed, runs.Values`aborted
      ensures Valid() && Model() == Stop(old(Model()))
      ensures forall r :: r in runs.Values ==> r.aborted == (old(r.aborted) || r in inflight.Values)
    {
      Shut();
      if ws != NoSocket { ws := Closing; }
    }

    method ConnectSocket()
      requires Valid()
      modifies this`replayReady, this`negotiatedMaxFrameBytes, this`ws, this`sent, this`behind
      ensures Valid() && Model() == Connect(old(Model()))
    {
      hide RunStates, Tasks;
      replayReady, negotiatedMaxFrameBytes := false, None;
      ws, sent, behind := Connecting, [], false;
    }
  }
}
