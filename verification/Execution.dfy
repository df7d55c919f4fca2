/** One task given to the scoped backend as it runs: what it emits, and what it leaves behind. Every operation it
    awaits is the next one of its path (`ExecutionSteps`) and ends as its script says. While it is awaited anything
    may happen that is not the task's own doing: heartbeats, frames of the worker, an abort, the time limit, a failing
    storage check, a sibling's quarantine. The worker may ignore an abort and speak on after the task is over. */
module Execution {
  import opened Options
  import opened ExecutionSteps

  /** What a worker emits, numbered: a `task.complete` or `task.fail` of its own is a terminal. */
  datatype WorkerFrame = WorkerChunk(n: nat) | WorkerTerminal(n: nat)

  /** Frames as the bridge sees them; `Fail` is the scoped backend's own. */
  datatype Frame = Heartbeat | Notice | Chunk(n: nat) | Terminal(n: nat) | Fail(code: Code)

  datatype Happening = Beat | Speaks(f: WorkerFrame) | Aborts | TimesOut | StorageFails(limit: bool)
    | SiblingQuarantines | SiblingFailsContext

  /** How one awaited operation ends: what happens meanwhile, and the error it rejects with, if any. */
  datatype Await = Await(happenings: seq<Happening>, error: Option<Error>)

  /** The next entry of a script; without one the operation just fails. */
  function Scripted(script: seq<Await>): Await {
    if script == [] then Await([], Some(Plain)) else script[0]
  }

  predicate IsTerminal(f: Frame) {
    f.Terminal? || f.Fail?
  }

  ghost predicate NoTerminal(fs: seq<Frame>) {
    forall f :: f in fs ==> !IsTerminal(f)
  }

  /** Exactly one terminal frame, and nothing after it. */
  ghost predicate OneTerminal(fs: seq<Frame>) {
    fs != [] && IsTerminal(fs[|fs|-1]) && NoTerminal(fs[..|fs|-1])
  }

  /** The terminal a worker's frames end up with: its last one. */
  function LastTerminal(frames: seq<WorkerFrame>): Option<nat> {
    if frames == [] then None
    else if frames[|frames|-1].WorkerTerminal? then Some(frames[|frames|-1].n)
    else LastTerminal(frames[..|frames|-1])
  }

  /** The worker's chunks among what was emitted, and among what the worker said. */
  function Relayed(fs: seq<Frame>): seq<nat> {
    if fs == [] then [] else Relayed(fs[..|fs|-1]) + (if fs[|fs|-1].Chunk? then [fs[|fs|-1].n] else [])
  }

  function Chunks(frames: seq<WorkerFrame>): seq<nat> {
    if frames == [] then []
    else Chunks(frames[..|frames|-1]) + (if frames[|frames|-1].WorkerChunk? then [frames[|frames|-1].n] else [])
  }

  function Beats(fs: seq<Frame>): nat {
    if fs == [] then 0 else Beats(fs[..|fs|-1]) + (if fs[|fs|-1] == Heartbeat then 1 else 0)
  }

  lemma OneMore(fs: seq<Frame>, f: Frame)
    ensures Relayed(fs + [f]) == Relayed(fs) + (if f.Chunk? then [f.n] else [])
    ensures Beats(fs + [f]) == Beats(fs) + (if f == Heartbeat then 1 else 0)
  {
    assert (fs + [f])[..|fs|] == fs;
  }

  lemma OneMoreSaid(frames: seq<WorkerFrame>, f: WorkerFrame)
    ensures Chunks(frames + [f]) == Chunks(frames) + (if f.WorkerChunk? then [f.n] else [])
    ensures LastTerminal(frames + [f]) == if f.WorkerTerminal? then Some(f.n) else LastTerminal(frames)
  {
    assert (frames + [f])[..|frames|] == frames;
  }

  // ---------------------------------------------------------------- what happens during an operation

  /** What runs while an operation is awaited: the heartbeat, the storage monitor, the worker's callback, and whether
      that callback still forwards. */
  datatype Setting = Setting(heartbeat: bool, monitoring: bool, started: bool, forwarding: bool)

  /** The task's flags, what the worker said and what of it passed, and the heartbeats emitted. */
  datatype Heard = Heard(flags: Flags, spoken: seq<WorkerFrame>, passed: seq<WorkerFrame>, beats: nat)

  function Hear(g: Setting, s: Heard, h: Happening): Heard {
    match h
    case Beat => if g.heartbeat && !s.flags.aborted then s.(beats := s.beats + 1) else s
    case Speaks(f) =>
      if !g.started then s
      else s.(spoken := s.spoken + [f], passed := if g.forwarding && !s.flags.aborted then s.passed + [f] else s.passed)
    case Aborts => s.(flags := s.flags.(aborted := true))
    case TimesOut => s.(flags := s.flags.(aborted := true, timedOut := true))
    case StorageFails(limit) =>
      if g.monitoring && !s.flags.aborted
      then s.(flags := s.flags.(aborted := true, storageCheckFailed := true, storageFailure := limit)) else s
    case SiblingQuarantines => s.(flags := s.flags.(quarantined := true))
    case SiblingFailsContext => s.(flags := s.flags.(contextFailed := true))
  }

  function HearAll(g: Setting, s: Heard, hs: seq<Happening>): Heard {
    if hs == [] then s else Hear(g, HearAll(g, s, hs[..|hs|-1]), hs[|hs|-1])
  }

  predicate Ends(h: Happening, monitoring: bool) {
    h == Aborts || h == TimesOut || (h.StorageFails? && monitoring)
  }

  /** What happens before the first event that aborts the task. */
  function UntilAbort(hs: seq<Happening>, monitoring: bool): seq<Happening> {
    if hs == [] || Ends(hs[0], monitoring) then [] else [hs[0]] + UntilAbort(hs[1..], monitoring)
  }

  function Said(hs: seq<Happening>): seq<WorkerFrame> {
    if hs == [] then [] else Said(hs[..|hs|-1]) + (if hs[|hs|-1].Speaks? then [hs[|hs|-1].f] else [])
  }

  function Beating(hs: seq<Happening>): nat {
    if hs == [] then 0 else Beating(hs[..|hs|-1]) + (if hs[|hs|-1] == Beat then 1 else 0)
  }

  /** Everything up to the end of the list, or up to the first event that aborts. */
  lemma {:induction false} UntilAbortMeans(hs: seq<Happening>, monitoring: bool)
    ensures var u := UntilAbort(hs, monitoring);
            && u <= hs && (forall i :: 0 <= i < |u| ==> !Ends(hs[i], monitoring))
            && (|u| < |hs| ==> Ends(hs[|u|], monitoring))
  {
    if hs != [] && !Ends(hs[0], monitoring) { UntilAbortMeans(hs[1..], monitoring); }
  }

  lemma {:induction false} UntilAbortMore(hs: seq<Happening>, h: Happening, monitoring: bool)
    ensures UntilAbort(hs + [h], monitoring) ==
            if |UntilAbort(hs, monitoring)| < |hs| || Ends(h, monitoring) then UntilAbort(hs, monitoring) else hs + [h]
  {
    if hs != [] {
      assert (hs + [h])[1..] == hs[1..] + [h];
      UntilAbortMore(hs[1..], h, monitoring);
      UntilAbortMeans(hs[1..], monitoring);
    } else {
      assert (hs + [h])[1..] == [];
    }
  }

  lemma SaidMore(hs: seq<Happening>, h: Happening)
    ensures Said(hs + [h]) == Said(hs) + (if h.Speaks? then [h.f] else [])
    ensures Beating(hs + [h]) == Beating(hs) + (if h == Beat then 1 else 0)
  {
    assert (hs + [h])[..|hs|] == hs;
  }

  /** What becomes of everything that happens meanwhile. The worker's frames and the heartbeats count until the task is
      aborted; every later frame is dropped; the first event that aborts it decides whether its storage failed. */
  ghost predicate HeardRight(g: Setting, s: Heard, hs: seq<Happening>, u: seq<Happening>, t: Heard)
    requires u <= hs
  {
    var storage := !s.flags.aborted && |u| < |hs| && hs[|u|].StorageFails?;
    && t.flags.aborted == (s.flags.aborted || |u| < |hs|)
    && t.flags.timedOut == (s.flags.timedOut || TimesOut in hs)
    && t.flags.storageCheckFailed == (s.flags.storageCheckFailed || storage)
    && t.flags.storageFailure == (if storage then hs[|u|].limit else s.flags.storageFailure)
    && t.flags.quarantined == (s.flags.quarantined || SiblingQuarantines in hs)
    && t.flags.contextFailed == (s.flags.contextFailed || SiblingFailsContext in hs)
    && t.spoken == s.spoken + (if g.started then Said(hs) else [])
    && t.passed == s.passed + (if g.started && g.forwarding && !s.flags.aborted then Said(u) else [])
    && t.beats == s.beats + (if g.heartbeat && !s.flags.aborted then Beating(u) else 0)
  }

  lemma HeardMore(g: Setting, s: Heard, hs: seq<Happening>, u: seq<Happening>, t: Heard, h: Happening)
    requires u <= hs && (|u| < |hs| ==> Ends(hs[|u|], g.monitoring)) && HeardRight(g, s, hs, u, t)
    ensures var v := if |u| < |hs| || Ends(h, g.monitoring) then u else hs + [h];
            v <= hs + [h] && HeardRight(g, s, hs + [h], v, Hear(g, t, h))
  {
    SaidMore(hs, h);
    hide Said, Beating;
    if |u| == |hs| { assert u == hs; }
  }

  lemma {:induction false} HearAllMeans(g: Setting, s: Heard, hs: seq<Happening>)
    ensures UntilAbort(hs, g.monitoring) <= hs
    ensures HeardRight(g, s, hs, UntilAbort(hs, g.monitoring), HearAll(g, s, hs))
  {
    UntilAbortMeans(hs, g.monitoring);
    if hs != [] {
      hide UntilAbort, HeardRight, Hear;
      var before, h := hs[..|hs|-1], hs[|hs|-1];
      assert hs == before + [h];
      HearAllMeans(g, s, before);
      UntilAbortMore(before, h, g.monitoring);
      UntilAbortMeans(before, g.monitoring);
      HeardMore(g, s, before, UntilAbort(before, g.monitoring), HearAll(g, s, before), h);
    }
  }

  // ---------------------------------------------------------------- a task

  datatype Task = Task(valid: bool, stopped: bool, aborted: bool)

  /** Errors that leave it open what exists, or find what must not be used. */
  predicate InDoubt(e: Error) {
    e == HelperUnconfirmed || e == Orphaned || e == Unreserved || e == Incomplete || e == Missing
  }

  predicate Monitored(op: Operation) {
    op.Handling? || op.Settling? || op.CheckUnderway?
  }

  /** Operations awaited once the worker has returned or was given up. */
  predicate WorkerOver(op: Operation) {
    || op.Settling? || op.CheckUnderway? || op.CheckStorage? || op.Removing?
    || op.SettlingAgain? || op.CheckAgain? || op.Stopping? || op.RemovingAgain?
  }

  /** The path of the task that is being executed. */
  datatype Path = OnSerial(serial: Serial) | OnConcurrent(concurrent: Concurrent)

  function Next(p: Path, st: Stage, r: Report): Stage
    requires Awaited(st).Some?
  {
    match p
    case OnSerial(q) => SerialNext(q, st, r)
    case OnConcurrent(q) => ConcurrentNext(q, st, r)
  }

  function After(p: Path, log: seq<Report>): Stage {
    match p
    case OnSerial(q) => SerialAfter(q, log)
    case OnConcurrent(q) => ConcurrentAfter(q, log)
  }

  /** The task may have a container: at its turn it was not aborted, and its scope and context were sound. */
  predicate LetIn(p: Path, turn: Report) {
    && turn.error.None? && !turn.aborted && !turn.quarantined
    && (p.OnConcurrent? ==> !turn.contextFailed && !p.concurrent.full) && (p.OnSerial? ==> !p.serial.full)
  }

  lemma OneMoreReport(p: Path, log: seq<Report>, r: Report)
    requires Awaited(After(p, log)).Some?
    ensures After(p, log + [r]) == Next(p, After(p, log), r)
  {
    assert (log + [r])[..|log|] == log;
  }

  lemma RunningIsLetIn(p: Path, log: seq<Report>)
    requires After(p, log) == Running
    ensures log != [] && LetIn(p, log[0])
  {
    if log != [] && !LetIn(p, log[0]) {
      match p
      case OnSerial(q) => SerialTurnedAway(q, log);
      case OnConcurrent(q) => ConcurrentTurnedAway(q, log);
    }
  }

  lemma RemovesMeans(e: Error)
    ensures Removes(e) == Broken(e, [SettlingAgain, RemovingAgain], false, true)
  {}

  lemma NextCleansUp(p: Path)
    ensures forall st: Stage, r :: st.Broken? && st.todo != [] ==> Next(p, st, r) == CleansUp(st, r)
  {}

  lemma ResumeFirst(e: Error, acquired: bool)
    ensures Awaited(Fails(e, acquired, true)) == Some(RecordFailed)
  {}

  /** What a task's end says of its path: a task that was not let in touched nothing, and a container that may still run
      after the cleanup was dealt with in vain. */
  lemma AtTheEnd(p: Path, log: seq<Report>)
    requires log != [] && Awaited(After(p, log)).None?
    ensures var st := After(p, log);
            && (st.Broken? ==> st.todo == [] && (st.mayRun ==> st.inVain))
            && (!LetIn(p, log[0]) ==> Untouched(st))
  {
    match p
    case OnSerial(q) =>
      SerialAnswered(q, log);
      if !LetIn(p, log[0]) { SerialTurnedAway(q, log); }
    case OnConcurrent(q) =>
      ConcurrentAnswered(q, log);
      if !LetIn(p, log[0]) { ConcurrentTurnedAway(q, log); }
  }

  class TaskExecution {
    var emitted: seq<Frame>
    var aborted: bool
    var timedOut: bool
    var storageCheckFailed: bool
    var storageFailure: bool
    /** The heartbeat is running; a storage check may be under way. */
    var heartbeat: bool
    var monitoring: bool
    /** The gate of the worker's callback, and the worker's terminal so far. */
    var forwarding: bool
    var terminal: Option<nat>
    var script: seq<Await>
    /** Entry state: the scope and the context must not be used again. */
    var quarantined: bool
    var contextFailed: bool
    /** The scheduler's slot is held; the task has left its queue. */
    var slotHeld: bool
    var allocating: bool
    /** The worker has its callback; all it said through it, and what passed the gate. */
    var started: bool
    ghost var spoken: seq<WorkerFrame>
    ghost var passed: seq<WorkerFrame>
    /** The task's path, how its operations ended, and where that leads; only `Wait` adds to the log. */
    ghost var path: Path
    ghost var log: seq<Report>
    ghost var stage: Stage
    /** The task's flags when its terminal was emitted. */
    ghost var told: Flags
    /** Whether the storage check that was still under way was awaited at the end. */
    ghost var settled: bool

    /** The gate lets a prefix of what the worker says through, until it closes for good: its chunks were emitted
        in order, its last terminal is held back. */
    ghost predicate Relays()
      reads this`emitted, this`passed, this`spoken, this`terminal, this`started, this`forwarding, this`aborted
    {
      && passed <= spoken && (forwarding && !aborted ==> passed == spoken)
      && terminal == LastTerminal(passed) && Relayed(emitted) == Chunks(passed)
      && (!started ==> spoken == [])
    }

    /** The stage is where the log leads, and only a task that was let in has a worker. */
    ghost predicate Logged()
      reads this`path, this`log, this`stage, this`started
    {
      stage == After(path, log) && (started ==> log != [] && LetIn(path, log[0]))
    }

    ghost predicate Unused()
      reads this
    {
      && emitted == [] && passed == [] && spoken == [] && terminal == None && forwarding && !started
      && !aborted && !timedOut && !storageCheckFailed && !storageFailure && !heartbeat && !monitoring
      && !slotHeld && !allocating && log == [] && stage == Queued && !settled
    }

    constructor (script: seq<Await>, quarantined: bool, contextFailed: bool)
      ensures Unused() && this.quarantined == quarantined && this.contextFailed == contextFailed
              && this.script == script
    {
      emitted, aborted, timedOut, storageCheckFailed, storageFailure := [], false, false, false, false;
      heartbeat, monitoring, forwarding, terminal := false, false, true, None;
      this.script, this.quarantined, this.contextFailed := script, quarantined, contextFailed;
      slotHeld, allocating, started, spoken, passed := false, false, false, [], [];
      log, stage, settled := [], Queued, false;
    }

    function Now(): Flags
      reads this`aborted, this`timedOut, this`storageFailure, this`storageCheckFailed, this`quarantined,
        this`contextFailed
    {
      Flags(aborted, timedOut, storageFailure, storageCheckFailed, quarantined, contextFailed)
    }

    ghost function Ears(): Heard
      reads this`aborted, this`timedOut, this`storageFailure, this`storageCheckFailed, this`quarantined,
        this`contextFailed, this`spoken, this`passed, this`emitted
    {
      Heard(Now(), spoken, passed, Beats(emitted))
    }

    ghost function Around(): Setting
      reads this`heartbeat, this`monitoring, this`started, this`forwarding
    {
      Setting(heartbeat, monitoring, started, forwarding)
    }

    /** What the outside can do to a task: emitted frames only grow, by no terminal, and not at all once the task is
        aborted; the entry's failures stay; a closed gate lets nothing through. */
    twostate predicate Advanced()
      reads this`emitted, this`passed, this`spoken, this`aborted, this`quarantined, this`contextFailed, this`forwarding,
        this`heartbeat
    {
      && old(emitted) <= emitted && (NoTerminal(old(emitted)) ==> NoTerminal(emitted))
      && (old(aborted) ==> aborted && emitted == old(emitted) && passed == old(passed))
      && (!old(forwarding) ==> passed == old(passed))
      && (!old(heartbeat) && !old(forwarding) ==> emitted == old(emitted))
      && (old(quarantined) ==> quarantined) && (old(contextFailed) ==> contextFailed)
      && old(spoken) <= spoken
    }

    function Latest(e: Option<Error>): Report
      reads this`aborted, this`quarantined, this`contextFailed, this`terminal
    {
      Report(e, aborted, quarantined, contextFailed, terminal.Some?)
    }

    twostate predicate Noted(e: Option<Error>)
      reads this`log, this`aborted, this`quarantined, this`contextFailed, this`terminal
    {
      log == old(log) + [Latest(e)]
    }

    /** Everything the script says happened, and nothing else. */
    twostate predicate Heeded()
      reads this`aborted, this`timedOut, this`storageFailure, this`storageCheckFailed, this`quarantined,
        this`contextFailed, this`spoken, this`passed, this`emitted, this`heartbeat, this`monitoring, this`started,
        this`forwarding, this`script
    {
      && Ears() == HearAll(Around(), old(Ears()), Scripted(old(script)).happenings)
      && script == if old(script) == [] then [] else old(script)[1..]
    }

    /** The log only grows. */
    twostate predicate Longer()
      reads this`log
    {
      log != [] && (old(log) != [] ==> log[0] == old(log)[0])
    }

    lemma NothingYet()
      requires Unused()
      ensures NoTerminal(emitted) && Relays()
    {}

    // ---------------------------------------------------------------- what happens meanwhile

    method Emit(f: Frame)
      requires NoTerminal(emitted) && Relays() && !f.Chunk?
      modifies this`emitted
      ensures old(Logged()) ==> Logged()
      ensures emitted == old(emitted) + [f] && Relays()
      ensures Beats(emitted) == Beats(old(emitted)) + (if f == Heartbeat then 1 else 0)
      ensures if IsTerminal(f) then OneTerminal(emitted) else NoTerminal(emitted)
    {
      OneMore(emitted, f);
      emitted := emitted + [f];
    }

    /** The callback given to the worker. */
    method OnFrame(f: WorkerFrame)
      requires Relays() && started && (forwarding && !aborted ==> NoTerminal(emitted))
      modifies this`emitted, this`terminal, this`spoken, this`passed
      ensures Relays() && Advanced() && spoken == old(spoken) + [f] && Beats(emitted) == Beats(old(emitted))
      ensures forwarding && !aborted ==> NoTerminal(emitted) && passed == old(passed) + [f]
      ensures !forwarding || aborted ==> emitted == old(emitted) && passed == old(passed) && terminal == old(terminal)
      ensures Notice in emitted <==> Notice in old(emitted)
    {
      hide LastTerminal, Relayed, Chunks, Beats;
      spoken := spoken + [f];
      if !forwarding || aborted { return; }
      OneMoreSaid(passed, f);
      passed := passed + [f];
      if f.WorkerTerminal? {
        terminal := Some(f.n);
      } else {
        OneMore(emitted, Chunk(f.n));
        emitted := emitted + [Chunk(f.n)];
      }
    }

    method Happen(h: Happening)
      requires Relays() && (heartbeat || forwarding ==> NoTerminal(emitted))
      modifies this`emitted, this`terminal, this`spoken, this`passed, this`aborted, this`timedOut,
        this`storageCheckFailed, this`storageFailure, this`quarantined, this`contextFailed
      ensures Relays() && Advanced() && (heartbeat || forwarding ==> NoTerminal(emitted))
      ensures Ears() == Hear(Around(), old(Ears()), h)
      ensures Notice in emitted <==> Notice in old(emitted)
      ensures !forwarding ==> terminal == old(terminal)
    {
      hide NoTerminal, LastTerminal, Relayed, Chunks, Beats;
      match h
      case Beat => if heartbeat && !aborted { Tell(Heartbeat); }
      case Speaks(f) => if started { OnFrame(f); }
      case Aborts => aborted := true;
      case TimesOut => timedOut, aborted := true, true;
      case StorageFails(limit) =>
        if monitoring && !aborted { storageCheckFailed, storageFailure, aborted := true, limit, true; }
      case SiblingQuarantines => quarantined := true;
      case SiblingFailsContext => contextFailed := true;
    }

    method HappenAll(hs: seq<Happening>)
      requires Relays() && (heartbeat || forwarding ==> NoTerminal(emitted))
      modifies this`emitted, this`terminal, this`spoken, this`passed, this`aborted, this`timedOut,
        this`storageCheckFailed, this`storageFailure, this`quarantined, this`contextFailed
      ensures Relays() && Advanced() && (heartbeat || forwarding ==> NoTerminal(emitted))
      ensures Ears() == HearAll(Around(), old(Ears()), hs)
      ensures Notice in emitted <==> Notice in old(emitted)
      ensures !forwarding ==> terminal == old(terminal)
    {
      hide NoTerminal, Relays, Hear, Ears;
      for i := 0 to |hs|
        invariant Relays() && Advanced() && (heartbeat || forwarding ==> NoTerminal(emitted))
        invariant Ears() == HearAll(Around(), old(Ears()), hs[..i])
        invariant Notice in emitted <==> Notice in old(emitted)
        invariant !forwarding ==> terminal == old(terminal)
      {
        assert hs[..i+1][..i] == hs[..i];
        Happen(hs[i]);
      }
      assert hs[..|hs|] == hs;
    }

    /** What must be running, and what must be over, when an operation is awaited: the heartbeat always; the storage
        monitor from the worker's start to the last check; the gate is closed once the worker has returned. */
    ghost predicate Set(op: Operation)
      reads this`heartbeat, this`started, this`forwarding, this`monitoring, this`path
    {
      && heartbeat
      && (op.Handling? ==> started && forwarding)
      && (Monitored(op) && path.OnSerial? ==> monitoring)
      && (op.CheckStorage? || op.Stopping? ==> !monitoring)
      && (WorkerOver(op) ==> !forwarding)
    }

    /** Await the next operation of the path. */
    method Wait(ghost op: Operation) returns (e: Option<Error>)
      requires Relays() && Logged() && NoTerminal(emitted) && Awaited(stage) == Some(op) && Set(op)
      modifies this`emitted, this`terminal, this`spoken, this`passed, this`aborted, this`timedOut,
        this`storageCheckFailed, this`storageFailure, this`quarantined, this`contextFailed, this`script,
        this`log, this`stage
      ensures Relays() && Advanced() && Logged()
      ensures NoTerminal(old(emitted)) ==> NoTerminal(emitted)
      ensures (old(aborted) ==> aborted) && (old(quarantined) ==> quarantined) && (old(contextFailed) ==> contextFailed)
      ensures !heartbeat && !forwarding ==> emitted == old(emitted)
      ensures !forwarding ==> passed == old(passed) && terminal == old(terminal)
      ensures Notice in emitted <==> Notice in old(emitted)
      ensures stage == Next(path, old(stage), Latest(e)) && Noted(e)
      ensures log != [] && log[0] == if old(log) == [] then Latest(e) else old(log)[0]
      ensures Heeded() && e == Scripted(old(script)).error
    {
      hide NoTerminal, Relays, Ears, Next, After;
      var step := Scripted(script);
      if script != [] { script := script[1..]; }
      HappenAll(step.happenings);
      e := step.error;
      ghost var report := Latest(e);
      OneMoreReport(path, log, report);
      log, stage := log + [report], Next(path, stage, report);
    }

    /** The last await of a serial task, when it is over. */
    method WaitOnceMore()
      requires Relays() && !heartbeat && !forwarding && !monitoring
      modifies this`settled, this`emitted, this`terminal, this`spoken, this`passed, this`aborted, this`timedOut,
        this`storageCheckFailed, this`storageFailure, this`quarantined, this`contextFailed, this`script
      ensures Relays() && Advanced() && emitted == old(emitted) && passed == old(passed)
      ensures (old(aborted) ==> aborted) && (old(quarantined) ==> quarantined) && (old(contextFailed) ==> contextFailed)
      ensures Heeded() && settled
    {
      hide NoTerminal, Relays, Ears;
      var step := Scripted(script);
      if script != [] { script := script[1..]; }
      HappenAll(step.happenings);
      settled := true;
    }

    /** The worker speaks on although the task is over. */
    method Linger(late: seq<WorkerFrame>)
      requires Relays() && !forwarding
      modifies this`emitted, this`terminal, this`spoken, this`passed
      ensures Relays() && emitted == old(emitted) && passed == old(passed)
      ensures spoken == old(spoken) + if started then late else []
    {
      hide NoTerminal, Relays, Advanced, Beats;
      if !started { return; }
      for i := 0 to |late|
        invariant Relays() && emitted == old(emitted) && passed == old(passed) && spoken == old(spoken) + late[..i]
      {
        OnFrame(late[i]);
      }
    }

    /** From here on the callback drops whatever the worker says. */
    method CloseGate()
      requires Relays()
      modifies this`forwarding
      ensures old(Logged()) ==> Logged()
      ensures Relays() && !forwarding && passed <= spoken
    {
      forwarding := false;
    }

    lemma Gate()
      requires Relays()
      ensures passed <= spoken && terminal == LastTerminal(passed)
    {}

    /** The backend's own failure, as the task's terminal. */
    method Refuse(code: Code)
      requires NoTerminal(emitted) && Relays()
      modifies this`emitted, this`told
      ensures old(Logged()) ==> Logged()
      ensures emitted == old(emitted) + [Fail(code)] && OneTerminal(emitted) && Relays() && told == Now()
    {
      Emit(Fail(code));
      told := Now();
    }

    method Forward(n: nat)
      requires NoTerminal(emitted) && Relays()
      modifies this`emitted, this`told
      ensures old(Logged()) ==> Logged()
      ensures emitted == old(emitted) + [Terminal(n)] && OneTerminal(emitted) && Relays() && told == Now()
    {
      Emit(Terminal(n));
      told := Now();
    }

    /** A frame of the backend that ends nothing. */
    method Tell(f: Frame)
      requires NoTerminal(emitted) && Relays() && (f == Heartbeat || f == Notice)
      modifies this`emitted
      ensures old(Logged()) ==> Logged()
      ensures NoTerminal(emitted) && Relays() && emitted == old(emitted) + [f]
      ensures Beats(emitted) == Beats(old(emitted)) + (if f == Heartbeat then 1 else 0)
    {
      Emit(f);
    }

    /** The worker's `handle`, with the callback, until it returns or the task is aborted: nothing the worker says
        after an abort is emitted, its terminals are held back and the last one that passed counts. */
    method Handle() returns (e: Option<Error>)
      requires Relays() && Logged() && NoTerminal(emitted) && !started && forwarding && heartbeat && stage == Running
      requires path.OnSerial? ==> monitoring
      modifies this`emitted, this`terminal, this`spoken, this`passed, this`aborted, this`timedOut,
        this`storageCheckFailed, this`storageFailure, this`quarantined, this`contextFailed, this`script,
        this`log, this`stage, this`started
      ensures Relays() && Advanced() && Logged() && NoTerminal(emitted) && started
      ensures old(aborted) ==> emitted == old(emitted)
      ensures Longer() && (old(quarantined) ==> quarantined) && (old(contextFailed) ==> contextFailed)
      ensures Notice in emitted <==> Notice in old(emitted)
      ensures stage == if e.None? then SettlingDown
                       else if path.OnSerial? then Fails(e.value, true, false) else Removes(e.value)
      ensures e.None? ==> !aborted && passed == spoken && terminal == LastTerminal(spoken)
    {
      RunningIsLetIn(path, log);
      started := true;
      e := Wait(Handling);
      if e.None? && aborted { e := Some(Plain); }
    }

    /** The worker's terminal, as the task's, unless there is none or the task was aborted after all. */
    method ForwardTerminal() returns (r: Option<Error>)
      requires NoTerminal(emitted) && Relays() && (stage == Done <==> !aborted && terminal.Some?)
      modifies this`emitted, this`told
      ensures old(Logged()) ==> Logged()
      ensures Relays() && (r == None || r == Some(Plain))
      ensures r.None? <==> stage == Done
      ensures r.Some? ==> emitted == old(emitted)
      ensures r.None? ==> LastTerminal(passed).Some?
                          && emitted == old(emitted) + [Terminal(LastTerminal(passed).value)]
                          && OneTerminal(emitted) && told == Now() && !told.aborted
    {
      hide NoTerminal, OneTerminal, IsTerminal, LastTerminal, Relays, Advanced, Relayed, Chunks, Logged, Noted, Heeded,
           Scripted, Fails, Removes, CleansUp, Next, After;
      Gate();
      if aborted || terminal.None? { return Some(Plain); }
      Forward(terminal.value);
      r := None;
    }

    /** The worker's processes have ended and its container answers. */
    method Settle(healthyNow: bool) returns (r: Option<Error>)
      requires NoTerminal(emitted) && Relays() && Logged() && !forwarding && heartbeat && stage == SettlingDown
      requires path.OnSerial? ==> monitoring
      requires healthyNow == match path case OnSerial(q) => q.healthy case OnConcurrent(q) => q.healthy
      modifies this`emitted, this`terminal, this`spoken, this`passed, this`aborted, this`timedOut,
        this`storageCheckFailed, this`storageFailure, this`quarantined, this`contextFailed, this`script,
        this`log, this`stage
      ensures Relays() && Logged() && NoTerminal(emitted) && passed == old(passed)
      ensures Longer() && (old(quarantined) ==> quarantined) && (old(contextFailed) ==> contextFailed)
      ensures Notice in emitted <==> Notice in old(emitted)
      ensures r.None? ==> stage == if path.OnSerial? then CheckingUnderway else Leaving
      ensures r.Some? ==> stage == if path.OnSerial? then Fails(r.value, true, false) else Removes(r.value)
    {
      hide NoTerminal, OneTerminal, IsTerminal, LastTerminal, Relays, Advanced, Relayed, Chunks, Logged, Noted, Heeded,
           Scripted, Fails, Removes, CleansUp;
      r := Wait(Settling);
      if r.Some? { return; }
      if !healthyNow { return Some(Plain); }
    }

    /** Refusals before the task queues. */
    method TurnAway(task: Task, queueFull: bool, noScopeLeft: bool, unusable: bool) returns (refused: bool)
      requires emitted == [] && NoTerminal(emitted) && Relays()
      modifies this`emitted, this`told
      ensures Relays() && (old(Logged()) ==> Logged()) && (refused ==> OneTerminal(emitted))
      ensures refused <==> !task.valid || task.stopped || task.aborted || queueFull || noScopeLeft || unusable
      ensures !refused ==> emitted == []
      ensures !task.valid ==> emitted == [Fail(ScopeRequired)]
      ensures task.valid && (task.stopped || task.aborted) ==> emitted == [Fail(ExecutionSteps.Stopped)]
      ensures task.valid && !task.stopped && !task.aborted ==>
                && (queueFull || noScopeLeft ==> emitted == [Fail(Capacity)])
                && (!queueFull && !noScopeLeft && unusable ==> emitted == [Fail(ExecutionSteps.Quarantined)])
    {
      refused := true;
      if !task.valid { Refuse(ScopeRequired); return; }
      if task.stopped || task.aborted { Refuse(ExecutionSteps.Stopped); return; }
      if queueFull { Refuse(Capacity); return; }
      if noScopeLeft { Refuse(Capacity); return; }
      if unusable { Refuse(ExecutionSteps.Quarantined); return; }
      refused := false;
    }

    // ---------------------------------------------------------------- serial path

    /** Acquire the container and have a worker for it. A failing acquisition needs cleanup once it mutated
        anything. */
    method PrepareWorker(q: Serial) returns (acquired: bool, resuming: bool, r: Option<Error>)
      requires NoTerminal(emitted) && Relays() && Logged() && !started && heartbeat && !monitoring
      requires path == OnSerial(q) && stage == Acquiring
      modifies this`emitted, this`terminal, this`spoken, this`passed, this`aborted, this`timedOut,
        this`storageCheckFailed, this`storageFailure, this`quarantined, this`contextFailed, this`script,
        this`log, this`stage
      ensures Relays() && Logged() && NoTerminal(emitted)
      ensures Longer() && (old(quarantined) ==> quarantined) && (old(contextFailed) ==> contextFailed)
      ensures Notice in emitted <==> Notice in old(emitted)
      ensures r.None? ==> stage == Running && acquired && !resuming
      ensures r.Some? ==> stage == Fails(r.value, acquired, resuming)
    {
      hide NoTerminal, OneTerminal, IsTerminal, LastTerminal, Relays, Advanced, Relayed, Chunks, Logged, Noted, Heeded,
           Scripted, Fails, Removes, CleansUp;
      acquired, resuming := false, q.resume;
      r := Wait(Acquire);
      if r.Some? && !q.mutated { return; }
      acquired := true;
      if r.Some? { return; }
      if aborted { return acquired, resuming, Some(Plain); }
      resuming, r := MakeWorker(q);
      if r.Some? { return; }
      if resuming {
        r := Wait(RecordReset);
        if r.Some? { return; }
        resuming := false;
      }
    }

    /** Close the worker of an earlier container, and make one for this. */
    method MakeWorker(q: Serial) returns (resuming: bool, r: Option<Error>)
      requires NoTerminal(emitted) && Relays() && Logged() && !started && heartbeat && !monitoring && !aborted
      requires path == OnSerial(q) && log != []
      requires stage == if q.restarted && q.haveWorker then Renewing
                        else if !q.haveWorker then Making(q.resume) else WithWorker(q.resume)
      modifies this`emitted, this`terminal, this`spoken, this`passed, this`aborted, this`timedOut,
        this`storageCheckFailed, this`storageFailure, this`quarantined, this`contextFailed, this`script,
        this`log, this`stage
      ensures Relays() && Logged() && NoTerminal(emitted)
      ensures Longer() && (old(quarantined) ==> quarantined) && (old(contextFailed) ==> contextFailed)
      ensures Notice in emitted <==> Notice in old(emitted)
      ensures stage == if r.None? then WithWorker(resuming) else Fails(r.value, true, resuming)
    {
      hide NoTerminal, OneTerminal, IsTerminal, LastTerminal, Relays, Advanced, Relayed, Chunks, Logged, Noted, Heeded,
           Scripted, Fails, Removes, CleansUp;
      resuming, r := q.resume, None;
      if q.restarted && q.haveWorker {
        r := Wait(OldSettles);
        if r.Some? { return; }
        resuming := true;
      }
      if q.restarted || !q.haveWorker {
        r := Wait(Factory);
        if r.Some? { return; }
      }
      if aborted { return resuming, Some(Plain); }
    }

    /** Run the task and forward its terminal: only after settling, the health check and the storage checks. */
    method RunAndForward(q: Serial, notice: bool) returns (r: Option<Error>)
      requires NoTerminal(emitted) && Relays() && Logged() && !started && forwarding && heartbeat && !monitoring
      requires path == OnSerial(q) && stage == Running
      modifies this`emitted, this`terminal, this`spoken, this`passed, this`aborted, this`timedOut,
        this`storageCheckFailed, this`storageFailure, this`quarantined, this`contextFailed, this`script,
        this`log, this`stage, this`started, this`forwarding, this`monitoring,
        this`told
      ensures Relays() && Logged() && Longer() && started && (old(quarantined) ==> quarantined)
      ensures r.None? <==> stage == Done
      ensures r.Some? ==> NoTerminal(emitted) && stage == Fails(r.value, true, false)
      ensures r.None? ==> LastTerminal(passed).Some? && OneTerminal(emitted) && told == Now() && !told.aborted
                          && emitted[|emitted|-1] == Terminal(LastTerminal(passed).value)
      ensures Notice in emitted <==> Notice in old(emitted) || notice
    {
      hide NoTerminal, OneTerminal, IsTerminal, LastTerminal, Relays, Advanced, Relayed, Chunks, Logged, Noted, Heeded,
           Scripted, Fails, Removes, CleansUp;
      if notice { Tell(Notice); }
      monitoring := true;
      r := Handle();
      if r.Some? { return; }
      CloseGate();
      r := Settle(q.healthy);
      if r.Some? { return; }
      r := CheckAndForward();
    }

    /** Wait for a storage check under way, check once more, and forward the terminal. */
    method CheckAndForward() returns (r: Option<Error>)
      requires NoTerminal(emitted) && Relays() && Logged() && !forwarding && heartbeat && monitoring
      requires path.OnSerial? && stage == CheckingUnderway
      modifies this`emitted, this`terminal, this`spoken, this`passed, this`aborted, this`timedOut,
        this`storageCheckFailed, this`storageFailure, this`quarantined, this`contextFailed, this`script,
        this`log, this`stage, this`monitoring, this`told
      ensures Relays() && Logged() && Longer() && (old(quarantined) ==> quarantined)
      ensures r.None? <==> stage == Done
      ensures r.Some? ==> NoTerminal(emitted) && stage == Fails(r.value, true, false)
      ensures r.None? ==> LastTerminal(passed).Some? && OneTerminal(emitted) && told == Now() && !told.aborted
                          && emitted[|emitted|-1] == Terminal(LastTerminal(passed).value)
      ensures Notice in emitted <==> Notice in old(emitted)
    {
      hide NoTerminal, OneTerminal, IsTerminal, LastTerminal, Relays, Advanced, Relayed, Chunks, Logged, Noted, Heeded,
           Scripted, Fails, Removes, CleansUp;
      var underway := Wait(CheckUnderway);
      monitoring := false;
      r := Wait(CheckStorage);
      if r.Some? { return; }
      r := ForwardTerminal();
    }

    /** The part of `execute` that may throw; `None` when it already emitted the task's terminal. */
    method SerialAttempt(q: Serial, notice: bool) returns (acquired: bool, resuming: bool, r: Option<Error>)
      requires NoTerminal(emitted) && Relays() && Logged() && !started && forwarding && heartbeat && !monitoring
      requires path == OnSerial(q) && stage == Queued && Notice !in emitted
      modifies this
      ensures slotHeld == old(slotHeld) && (old(quarantined) ==> quarantined) && heartbeat && path == old(path)
      ensures Relays() && Logged() && log != []
      ensures r.Some? ==> NoTerminal(emitted) && stage == Fails(r.value, acquired, resuming)
      ensures r.Some? && !acquired ==> !monitoring
      ensures r.None? ==> OneTerminal(emitted) && told == Now() && (stage == Full || stage == Done)
      ensures stage == Full ==> emitted[|emitted|-1] == Fail(Capacity)
      ensures stage == Done ==>
              LastTerminal(passed).Some? && emitted[|emitted|-1] == Terminal(LastTerminal(passed).value)
                                && !told.aborted
      ensures Notice in emitted <==> started && notice
    {
      hide NoTerminal, OneTerminal, IsTerminal, LastTerminal, Relays, Advanced, Relayed, Chunks, Logged, Noted, Heeded,
           Scripted, Fails, Removes, CleansUp;
      acquired, resuming := false, false;
      r := Wait(Turn);
      if r.None? && aborted { r := Some(Plain); }
      if r.Some? { return; }
      if quarantined { return acquired, resuming, Some(Plain); }
      if q.full {
        Refuse(Capacity);
        return acquired, resuming, None;
      }
      acquired, resuming, r := PrepareWorker(q);
      if r.Some? { return; }
      r := RunAndForward(q, notice);
    }

    /** Stop the whole container, or quarantine the scope. */
    method StopContainer()
      requires NoTerminal(emitted) && Relays() && Logged() && !forwarding && heartbeat && path.OnSerial?
      requires stage.Broken? && stage.todo == [SettlingAgain, CheckAgain, Stopping] && stage.mayRun && log != []
      modifies this`emitted, this`terminal, this`spoken, this`passed, this`aborted, this`timedOut,
        this`storageCheckFailed, this`storageFailure, this`quarantined, this`contextFailed, this`script,
        this`log, this`stage, this`monitoring
      ensures NoTerminal(emitted) && Relays() && Logged() && passed == old(passed)
      ensures Longer() && (old(quarantined) ==> quarantined) && (old(contextFailed) ==> contextFailed)
      ensures Notice in emitted <==> Notice in old(emitted)
      ensures stage.Broken? && stage.error == old(stage).error && stage.todo == [] && !monitoring
      ensures stage.inVain ==> old(stage).inVain || quarantined
    {
      hide NoTerminal, OneTerminal, IsTerminal, LastTerminal, Relays, Advanced, Relayed, Chunks, Logged, Noted, Heeded,
           Scripted, Fails, Removes, CleansUp, Next, After;
      ghost var was := stage;
      NextCleansUp(path);
      SettleAgain();
      monitoring := false;
      var stopping := Wait(Stopping);
      StoppingSteps(was.error, was.inVain, Latest(stopping));
      if stopping.Some? { quarantined := true; }
    }

    /** The worker settles, or not, and a check under way ends. */
    method SettleAgain()
      requires NoTerminal(emitted) && Relays() && Logged() && !forwarding && heartbeat && path.OnSerial?
      requires stage.Broken? && stage.todo == [SettlingAgain, CheckAgain, Stopping] && stage.mayRun && log != []
      modifies this`emitted, this`terminal, this`spoken, this`passed, this`aborted, this`timedOut,
        this`storageCheckFailed, this`storageFailure, this`quarantined, this`contextFailed, this`script,
        this`log, this`stage
      ensures NoTerminal(emitted) && Relays() && Logged() && passed == old(passed)
      ensures Longer() && (old(quarantined) ==> quarantined) && (old(contextFailed) ==> contextFailed)
      ensures Notice in emitted <==> Notice in old(emitted)
      ensures stage == Broken(old(stage).error, [Stopping], old(stage).inVain, true)
    {
      hide NoTerminal, OneTerminal, IsTerminal, LastTerminal, Relays, Advanced, Relayed, Chunks, Logged, Noted, Heeded,
           Scripted, Fails, Removes, CleansUp, Next, After;
      ghost var was := stage;
      NextCleansUp(path);
      var settling := Wait(SettlingAgain);
      StoppingSteps(was.error, was.inVain, Latest(settling));
      var checking := Wait(CheckAgain);
      StoppingSteps(was.error, was.inVain, Latest(checking));
    }

    /** Record a failed resumption, close the gate and stop the container: what is in vain quarantines the scope. */
    method CleanUp(acquired: bool, resuming: bool, ghost e: Error)
      requires NoTerminal(emitted) && Relays() && Logged() && heartbeat && path.OnSerial? && (!acquired ==> !monitoring)
      requires stage == Fails(e, acquired, resuming) && log != []
      modifies this`emitted, this`terminal, this`spoken, this`passed, this`aborted, this`timedOut,
        this`storageCheckFailed, this`storageFailure, this`quarantined, this`contextFailed, this`script,
        this`log, this`stage, this`forwarding,
        this`monitoring
      ensures NoTerminal(emitted) && Relays() && Logged() && !forwarding && !monitoring
      ensures Longer() && (old(quarantined) ==> quarantined) && (old(contextFailed) ==> contextFailed)
      ensures Notice in emitted <==> Notice in old(emitted)
      ensures stage.Broken? && stage.error == e && stage.todo == [] && (stage.inVain ==> quarantined)
    {
      hide NoTerminal, OneTerminal, IsTerminal, LastTerminal, Relays, Advanced, Relayed, Chunks, Logged, Noted, Heeded,
           Scripted, Fails, Removes, CleansUp, Next, After;
      NextCleansUp(path);
      Recording(e, acquired, Latest(None));
      if resuming {
        assert Awaited(stage) == Some(RecordFailed) by { ResumeFirst(e, acquired); }
        var recorded := Wait(RecordFailed);
        Recording(e, acquired, Latest(recorded));
        if recorded.Some? { quarantined := true; }
      }
      CloseGate();
      if acquired { StopContainer(); }
    }

    /** The catch block: the container is stopped, or the scope quarantined, before the failure is emitted. */
    method SerialFailure(acquired: bool, resuming: bool, e: Error)
      requires NoTerminal(emitted) && Relays() && Logged() && heartbeat && path.OnSerial? && (!acquired ==> !monitoring)
      requires stage == Fails(e, acquired, resuming) && log != []
      modifies this`emitted, this`terminal, this`spoken, this`passed, this`aborted, this`timedOut,
        this`storageCheckFailed, this`storageFailure, this`quarantined, this`contextFailed, this`script,
        this`log, this`stage, this`forwarding, this`monitoring, this`told
      ensures OneTerminal(emitted) && Relays() && Logged() && Longer() && !forwarding && told == Now()
              && path == old(path)
      ensures emitted[|emitted|-1] == Fail(SerialCode(e, told))
      ensures stage.Broken? && stage.error == e && stage.todo == [] && (stage.inVain ==> told.quarantined)
      ensures e.HelperUnconfirmed? || e.Orphaned? || e.Unreserved? || e.Incomplete? || e.Missing? ==> told.quarantined
      ensures old(quarantined) ==> told.quarantined
      ensures slotHeld == old(slotHeld) && started == old(started)
      ensures Notice in emitted <==> Notice in old(emitted)
    {
      hide NoTerminal, OneTerminal, IsTerminal, LastTerminal, Relays, Advanced, Relayed, Chunks, Logged, Noted, Heeded,
           Scripted, Fails, Removes, CleansUp, Next, After;
      CleanUp(acquired, resuming, e);
      if InDoubt(e) { quarantined := true; }
      Refuse(SerialCode(e, Now()));
    }

    /** How the serial task ended: with the worker's last terminal that passed, for want of room, or with the code of
        the error that broke it; what was in vain, and errors that leave doubt, quarantine the scope first. */
    ghost predicate SerialEnded()
      reads this
    {
      && OneTerminal(emitted) && Awaited(stage).None?
      && (stage == Done ==> LastTerminal(passed).Some? && emitted[|emitted|-1] == Terminal(LastTerminal(passed).value)
                            && !told.aborted)
      && (stage == Full ==> emitted[|emitted|-1] == Fail(Capacity))
      && (stage.Broken? ==>
            && emitted[|emitted|-1] == Fail(SerialCode(stage.error, told)) && (stage.inVain ==> told.quarantined)
            && (InDoubt(stage.error) ==> told.quarantined))
      && (stage == Done || stage == Full || stage.Broken?)
    }

    /** The attempt, and what follows when it throws. */
    method SerialTask(q: Serial, notice: bool)
      requires NoTerminal(emitted) && Relays() && Logged() && !started && forwarding && !monitoring
      requires path == OnSerial(q) && stage == Queued && Notice !in emitted
      modifies this
      ensures Relays() && Logged() && log != [] && SerialEnded() && told == Now() && path == old(path)
      ensures old(quarantined) ==> told.quarantined
      ensures slotHeld == old(slotHeld)
      ensures Notice in emitted <==> started && notice
    {
      hide NoTerminal, OneTerminal, IsTerminal, LastTerminal, Relays, Advanced, Relayed, Chunks, Logged, Noted, Heeded,
           Scripted, Fails, Removes, CleansUp, Next, After;
      heartbeat := true;
      var acquired, resuming, r := SerialAttempt(q, notice);
      if r.Some? { SerialFailure(acquired, resuming, r.value); }
    }

    /** The last block of `execute`, and what the worker says after it. */
    method SerialEnd(late: seq<WorkerFrame>)
      requires Relays()
      modifies this`settled, this`emitted, this`terminal, this`spoken, this`passed, this`aborted, this`timedOut,
        this`storageCheckFailed, this`storageFailure, this`quarantined, this`contextFailed, this`script,
        this`forwarding, this`monitoring, this`heartbeat
      ensures Relays() && emitted == old(emitted) && passed == old(passed) && (old(quarantined) ==> quarantined)
      ensures !forwarding && !monitoring && !heartbeat && settled
      ensures started ==>
              |late| <= |spoken| && spoken[|spoken| - |late|..] == late && passed <= spoken[..|spoken| - |late|]
    {
      hide NoTerminal, OneTerminal, IsTerminal, LastTerminal, Relays, Advanced, Relayed, Chunks, Logged, Noted, Heeded,
           Scripted, Fails, Removes, CleansUp, Next, After;
      CloseGate();
      monitoring, heartbeat := false, false;
      WaitOnceMore();
      Gate();
      Linger(late);
    }

    /** A task on the serial path. It emits exactly one terminal frame, last, whatever the worker says meanwhile and
        after. Its operations are those of its path and end where that leads: at the worker's terminal, or at a failure,
        emitted only once the container is stopped or the scope quarantined. */
    method Execute(task: Task, queueFull: bool, noScopeLeft: bool, q: Serial, notice: bool, late: seq<WorkerFrame>)
      requires Unused()
      modifies this
      ensures OneTerminal(emitted) && Relays() && Logged() && path == OnSerial(q)
      // Refused before it queues: nothing is awaited, nothing else is emitted.
      ensures !task.valid ==> emitted == [Fail(ScopeRequired)]
      ensures task.valid && (task.stopped || task.aborted) ==> emitted == [Fail(Stopped)]
      ensures task.valid && !task.stopped && !task.aborted && (queueFull || noScopeLeft) ==> emitted == [Fail(Capacity)]
      ensures var refused := !task.valid || task.stopped || task.aborted || queueFull || noScopeLeft;
              && (!refused && old(quarantined) ==> emitted == [Fail(ExecutionSteps.Quarantined)])
              && (refused || old(quarantined) ==> log == [] && !started)
              && (!refused && !old(quarantined) ==> log != [] && SerialEnded())
      // Quarantined or aborted while it queued: the task never has a container or a worker, and fails.
      ensures log != [] && (log[0].quarantined || log[0].aborted) ==>
                !started && Untouched(stage) && emitted[|emitted|-1].Fail?
      // A failure with a container that may be running comes from a quarantined scope.
      ensures log != [] && stage.Broken? && stage.mayRun ==> told.quarantined
      ensures (log != [] && told.quarantined) || old(quarantined) ==> quarantined
      ensures Notice in emitted <==> started && notice
      ensures started ==>
              |late| <= |spoken| && spoken[|spoken| - |late|..] == late && passed <= spoken[..|spoken| - |late|]
      ensures slotHeld == old(slotHeld) && !heartbeat && !monitoring && (log != [] ==> settled)
    {
      hide NoTerminal, OneTerminal, IsTerminal, LastTerminal, Relays, Advanced, Relayed, Chunks, Logged, Noted, Heeded,
           Scripted, Fails, Removes, CleansUp, Next, After;
      NothingYet();
      path := OnSerial(q);
      assert Logged() by { NothingLogged(); }
      var refused := TurnAway(task, queueFull, noScopeLeft, quarantined);
      if refused { return; }
      SerialTask(q, notice);
      Ended();
      SerialEnd(late);
    }

    lemma NothingLogged()
      requires log == [] && stage == Queued && !started
      ensures Logged()
    {}

    /** Where the log leads says what a task that was turned away did, and what became of a container. */
    lemma Ended()
      requires Logged() && log != [] && Awaited(stage).None?
      ensures stage.Broken? && stage.mayRun ==> stage.inVain
      ensures !LetIn(path, log[0]) ==> !started && Untouched(stage)
    {
      AtTheEnd(path, log);
    }

    // ---------------------------------------------------------------- concurrent path

    /** The context's container and a worker for it. */
    method PrepareContext(q: Concurrent) returns (r: Option<Error>)
      requires NoTerminal(emitted) && Relays() && Logged() && !started && heartbeat && !monitoring
      requires path == OnConcurrent(q) && stage == Acquiring && Notice !in emitted
      modifies this`emitted, this`terminal, this`spoken, this`passed, this`aborted, this`timedOut,
        this`storageCheckFailed, this`storageFailure, this`quarantined, this`contextFailed, this`script,
        this`log, this`stage
      ensures Relays() && Logged() && NoTerminal(emitted)
      ensures Longer() && (old(quarantined) ==> quarantined) && (old(contextFailed) ==> contextFailed)
      ensures stage == if r.None? then Running else Removes(r.value)
      ensures Notice in emitted <==> r.None? && !q.haveWorker
    {
      hide NoTerminal, OneTerminal, IsTerminal, LastTerminal, Relays, Advanced, Relayed, Chunks, Logged, Noted, Heeded,
           Scripted, Fails, Removes, CleansUp;
      r := Wait(Acquire);
      if r.Some? { return; }
      if aborted { return Some(Plain); }
      if !q.haveWorker {
        r := Wait(Factory);
        if r.Some? { return; }
        Tell(Notice);
      }
    }

    /** Run the task in its context; its container is gone when this gets to the end. */
    method RunAndRemove(q: Concurrent) returns (r: Option<Error>)
      requires NoTerminal(emitted) && Relays() && Logged() && !started && forwarding && heartbeat && !monitoring
      requires path == OnConcurrent(q) && stage == Running
      modifies this`emitted, this`terminal, this`spoken, this`passed, this`aborted, this`timedOut,
        this`storageCheckFailed, this`storageFailure, this`quarantined, this`contextFailed, this`script,
        this`log, this`stage, this`started, this`forwarding
      ensures Relays() && Logged() && NoTerminal(emitted) && started
      ensures Longer() && (old(quarantined) ==> quarantined) && (old(contextFailed) ==> contextFailed)
      ensures Notice in emitted <==> Notice in old(emitted)
      ensures r.Some? ==> stage == Removes(r.value)
      ensures r.None? ==>
              stage == if !aborted && terminal.Some? then Done else Broken(Plain, [SettlingAgain], false, false)
    {
      hide NoTerminal, OneTerminal, IsTerminal, LastTerminal, Relays, Advanced, Relayed, Chunks, Logged, Noted, Heeded,
           Scripted, Fails, Removes, CleansUp;
      r := Handle();
      if r.Some? { return; }
      CloseGate();
      r := Settle(q.healthy);
      if r.Some? { return; }
      r := Wait(Removing);
    }

    /** The part of `executeConcurrent` that may throw. `acquired`: there may be a container to remove. */
    method ConcurrentAttempt(q: Concurrent) returns (acquired: bool, worker: bool, r: Option<Error>)
      requires NoTerminal(emitted) && Relays() && Logged() && !started && forwarding && heartbeat && !monitoring
      requires path == OnConcurrent(q) && stage == Queued && log == [] && Notice !in emitted && !slotHeld && !allocating
      modifies this
      ensures (old(quarantined) ==> quarantined) && (old(contextFailed) ==> contextFailed) && heartbeat
              && path == old(path)
      ensures Relays() && Logged() && log != [] && !monitoring
      ensures slotHeld <==> log[0].error.None?
      ensures allocating <==> LetIn(path, log[0])
      ensures r.Some? ==> NoTerminal(emitted) && stage.Broken? && stage.error == r.value && !stage.inVain
      ensures r.Some? ==> stage.todo == (if acquired then [SettlingAgain, RemovingAgain]
                                         else if worker then [SettlingAgain] else [])
                          && stage.mayRun == acquired
      ensures r.None? ==> OneTerminal(emitted) && told == Now() && (stage == Full || stage == Done)
      ensures stage == Full ==> emitted[|emitted|-1] == Fail(Capacity)
      ensures stage == Done ==>
              LastTerminal(passed).Some? && emitted[|emitted|-1] == Terminal(LastTerminal(passed).value)
                                && !told.aborted
      ensures Notice in emitted <==> started && !q.haveWorker
    {
      hide NoTerminal, OneTerminal, IsTerminal, LastTerminal, Relays, Advanced, Relayed, Chunks, Logged, Noted, Heeded,
           Scripted, Fails, Removes, CleansUp;
      acquired, worker := false, false;
      r := Wait(Turn);
      if r.Some? { return; }
      slotHeld := true;
      if aborted { return acquired, worker, Some(Plain); }
      if quarantined || contextFailed { return acquired, worker, Some(Plain); }
      if q.full {
        Refuse(Capacity);
        return acquired, worker, None;
      }
      acquired, allocating := true, true;
      acquired, worker, r := AllocateAndRun(q);
    }

    /** The attempt once the task left its queue. */
    method AllocateAndRun(q: Concurrent) returns (acquired: bool, worker: bool, r: Option<Error>)
      requires NoTerminal(emitted) && Relays() && Logged() && !started && forwarding && heartbeat && !monitoring
      requires path == OnConcurrent(q) && stage == Acquiring && Notice !in emitted && log != []
      modifies this`emitted, this`terminal, this`spoken, this`passed, this`aborted, this`timedOut,
        this`storageCheckFailed, this`storageFailure, this`quarantined, this`contextFailed, this`script,
        this`log, this`stage, this`started, this`forwarding, this`told
      ensures Relays() && Logged() && Longer() && (old(quarantined) ==> quarantined)
              && (old(contextFailed) ==> contextFailed)
      ensures r.Some? ==> NoTerminal(emitted) && stage == Broken(r.value,
                            if acquired then [SettlingAgain, RemovingAgain] else [SettlingAgain], false, acquired)
      ensures r.Some? && !acquired ==> worker
      ensures r.None? ==>
              stage == Done && OneTerminal(emitted) && told == Now() && !told.aborted && LastTerminal(passed).Some?
                          && emitted[|emitted|-1] == Terminal(LastTerminal(passed).value)
      ensures Notice in emitted <==> started && !q.haveWorker
    {
      hide NoTerminal, OneTerminal, IsTerminal, LastTerminal, Relays, Advanced, Relayed, Chunks, Logged, Noted, Heeded,
           Scripted, Fails, Removes, CleansUp, Next, After;
      acquired, worker := true, false;
      r := PrepareContext(q);
      RemovesMeans(if r.Some? then r.value else Plain);
      if r.Some? { return; }
      worker := true;
      r := RunAndRemove(q);
      RemovesMeans(if r.Some? then r.value else Plain);
      if r.Some? { return; }
      acquired := false;
      r := ForwardTerminal();
    }

    /** Remove this context's container; if that is not confirmed, the context is failed for good. */
    method RemoveContext(acquired: bool, worker: bool)
      requires NoTerminal(emitted) && Relays() && Logged() && !forwarding && heartbeat && path.OnConcurrent?
      requires stage.Broken? && !stage.inVain && stage.mayRun == acquired
      requires stage.todo == if acquired then [SettlingAgain, RemovingAgain] else if worker then [SettlingAgain] else []
      requires log != []
      modifies this`emitted, this`terminal, this`spoken, this`passed, this`aborted, this`timedOut,
        this`storageCheckFailed, this`storageFailure, this`quarantined, this`contextFailed, this`script,
        this`log, this`stage
      ensures NoTerminal(emitted) && Relays() && Logged() && passed == old(passed)
      ensures Longer() && (old(quarantined) ==> quarantined) && (old(contextFailed) ==> contextFailed)
      ensures Notice in emitted <==> Notice in old(emitted)
      ensures stage.Broken? && stage.error == old(stage).error && stage.todo == [] && (stage.inVain ==> contextFailed)
    {
      hide NoTerminal, OneTerminal, IsTerminal, LastTerminal, Relays, Advanced, Relayed, Chunks, Logged, Noted, Heeded,
           Scripted, Fails, Removes, CleansUp, Next, After;
      if !acquired && !worker { return; }
      ghost var was := stage;
      NextCleansUp(path);
      var settling := Wait(SettlingAgain);
      RemovingSteps(was.error, Latest(settling));
      if acquired {
        var stopping := Wait(RemovingAgain);
        RemovingSteps(was.error, Latest(stopping));
        if stopping.Some? { contextFailed := true; }
      }
    }

    /** Errors after which shared work may go on keep the context's slot; others quarantine the scope only. */
    method Condemn(e: Error)
      modifies this`quarantined, this`contextFailed
      ensures contextFailed == (old(contextFailed) || e == HelperUnconfirmed || e == ScopeCleanupUnconfirmed)
      ensures quarantined == (old(quarantined) || e == HelperUnconfirmed || e == ScopeCleanupUnconfirmed
                              || e == Unreserved || e == Orphaned || e == Incomplete || e == Missing)
    {
      if e.HelperUnconfirmed? || e.ScopeCleanupUnconfirmed? { quarantined, contextFailed := true, true; }
      if e.ScopeCleanupUnconfirmed? || InDoubt(e) { quarantined := true; }
    }

    /** The catch block: only this context's container is touched. */
    method ConcurrentFailure(acquired: bool, worker: bool, e: Error)
      requires NoTerminal(emitted) && Relays() && Logged() && heartbeat && path.OnConcurrent? && log != []
      requires stage.Broken? && stage.error == e && !stage.inVain && stage.mayRun == acquired
      requires stage.todo == if acquired then [SettlingAgain, RemovingAgain] else if worker then [SettlingAgain] else []
      modifies this`emitted, this`terminal, this`spoken, this`passed, this`aborted, this`timedOut,
        this`storageCheckFailed, this`storageFailure, this`quarantined, this`contextFailed, this`script,
        this`log, this`stage, this`forwarding, this`told
      ensures OneTerminal(emitted) && Relays() && Logged() && !forwarding && told == Now() && path == old(path)
      ensures emitted[|emitted|-1] == Fail(ConcurrentCode(e, told, allocating))
      ensures stage.Broken? && stage.error == e && stage.todo == [] && (stage.inVain ==> contextFailed)
      ensures log != [] && log[0] == old(log)[0]
      ensures (old(contextFailed) ==> contextFailed) && (old(quarantined) ==> quarantined)
      ensures e.HelperUnconfirmed? || e.ScopeCleanupUnconfirmed? ==> quarantined && contextFailed
      ensures e.HelperUnconfirmed? || e.Orphaned? || e.Unreserved? || e.Incomplete? || e.Missing? ==> quarantined
      ensures slotHeld == old(slotHeld) && allocating == old(allocating) && started == old(started)
      ensures Notice in emitted <==> Notice in old(emitted)
    {
      hide NoTerminal, OneTerminal, IsTerminal, LastTerminal, Relays, Advanced, Relayed, Chunks, Logged, Noted, Heeded,
           Scripted, Fails, Removes, CleansUp, Next, After;
      hide ConcurrentCode, Now;
      CloseGate();
      RemoveContext(acquired, worker);
      Condemn(e);
      Refuse(ConcurrentCode(e, Now(), allocating));
    }

    /** How the concurrent task ended: with the worker's last terminal that passed, for want of room, or with the code
        of the error that broke it; a removal in vain fails the context. */
    ghost predicate ConcurrentEnded()
      reads this
    {
      && OneTerminal(emitted) && Awaited(stage).None? && log != []
      && (stage == Done ==> LastTerminal(passed).Some? && emitted[|emitted|-1] == Terminal(LastTerminal(passed).value)
                            && !told.aborted)
      && (stage == Full ==> emitted[|emitted|-1] == Fail(Capacity))
      && (stage.Broken? ==>
            && emitted[|emitted|-1] == Fail(ConcurrentCode(stage.error, told, LetIn(path, log[0])))
            && (stage.inVain ==> contextFailed)
            && (stage.error.HelperUnconfirmed? || stage.error.ScopeCleanupUnconfirmed? ==> quarantined && contextFailed)
            && (InDoubt(stage.error) ==> quarantined))
      && (stage == Done || stage == Full || stage.Broken?)
    }

    /** The attempt, and what follows when it throws. */
    method ConcurrentTask(q: Concurrent)
      requires NoTerminal(emitted) && Relays() && Logged() && !started && forwarding && !monitoring
      requires path == OnConcurrent(q) && stage == Queued && log == [] && Notice !in emitted && !slotHeld && !allocating
      modifies this
      ensures Relays() && Logged() && ConcurrentEnded() && path == old(path)
      ensures (old(quarantined) ==> quarantined) && (old(contextFailed) ==> contextFailed)
      ensures slotHeld <==> log[0].error.None?
      ensures Notice in emitted <==> started && !q.haveWorker
    {
      hide NoTerminal, OneTerminal, IsTerminal, LastTerminal, Relays, Advanced, Relayed, Chunks, Logged, Noted, Heeded,
           Scripted, Fails, Removes, CleansUp, Next, After;
      heartbeat := true;
      var acquired, worker, r := ConcurrentAttempt(q);
      if r.Some? { ConcurrentFailure(acquired, worker, r.value); }
    }

    /** The last block of `executeConcurrent`, and what the worker says after it: a failed context keeps its slot. */
    method ConcurrentEnd(late: seq<WorkerFrame>)
      requires Relays()
      modifies this`emitted, this`terminal, this`spoken, this`passed, this`forwarding, this`heartbeat, this`slotHeld
      ensures Relays() && emitted == old(emitted) && passed == old(passed) && !forwarding && !heartbeat
      ensures slotHeld == (old(slotHeld) && contextFailed)
      ensures started ==>
              |late| <= |spoken| && spoken[|spoken| - |late|..] == late && passed <= spoken[..|spoken| - |late|]
    {
      hide NoTerminal, OneTerminal, IsTerminal, LastTerminal, Relays, Advanced, Relayed, Chunks, Logged, Noted, Heeded,
           Scripted, Fails, Removes, CleansUp, Next, After;
      CloseGate();
      heartbeat := false;
      if !contextFailed { slotHeld := false; }
      Gate();
      Linger(late);
    }

    /** A task that was not turned away, to its end. */
    method ConcurrentRun(q: Concurrent, late: seq<WorkerFrame>)
      requires NoTerminal(emitted) && Relays() && Logged() && !started && forwarding && !monitoring
      requires path == OnConcurrent(q) && stage == Queued && log == [] && Notice !in emitted && !slotHeld && !allocating
      modifies this
      ensures Relays() && Logged() && ConcurrentEnded() && path == old(path) && OneTerminal(emitted) && log != []
      ensures log[0].quarantined || log[0].contextFailed || log[0].aborted ==>
                !started && Untouched(stage) && emitted[|emitted|-1].Fail?
      ensures slotHeld <==> log[0].error.None? && contextFailed
      ensures stage.Broken? && stage.mayRun ==> contextFailed && slotHeld
      ensures (old(quarantined) ==> quarantined) && (old(contextFailed) ==> contextFailed)
      ensures Notice in emitted <==> started && !q.haveWorker
      ensures started ==>
              |late| <= |spoken| && spoken[|spoken| - |late|..] == late && passed <= spoken[..|spoken| - |late|]
      ensures !heartbeat
    {
      hide NoTerminal, OneTerminal, IsTerminal, LastTerminal, Relays, Advanced, Relayed, Chunks, Logged, Noted, Heeded,
           Scripted, Fails, Removes, CleansUp, Next, After;
      ConcurrentTask(q);
      Ended();
      ConcurrentEnd(late);
    }

    /** A task on the concurrent path. It emits exactly one terminal frame, last, whatever the worker says meanwhile
        and after. Its operations are those of its path and end where that leads. The slot is given back exactly when
        the context is not failed, and then no container of the task can be running. */
    method ExecuteConcurrent(task: Task, noScopeLeft: bool, q: Concurrent, late: seq<WorkerFrame>)
      requires Unused()
      modifies this
      ensures OneTerminal(emitted) && Relays() && Logged() && path == OnConcurrent(q)
      // Refused before it queues: nothing is awaited, nothing else is emitted.
      ensures !task.valid ==> emitted == [Fail(ScopeRequired)]
      ensures task.valid && (task.stopped || task.aborted) ==> emitted == [Fail(Stopped)]
      ensures task.valid && !task.stopped && !task.aborted && noScopeLeft ==> emitted == [Fail(Capacity)]
      ensures var refused := !task.valid || task.stopped || task.aborted || noScopeLeft;
              var unusable := old(quarantined) || old(contextFailed);
              && (!refused && unusable ==> emitted == [Fail(ExecutionSteps.Quarantined)])
              && (refused || unusable ==> log == [] && !started && !slotHeld)
              && (!refused && !unusable ==> ConcurrentEnded())
      // Aborted, quarantined or failed while it queued: the task never has a container or a worker, and fails.
      ensures log != [] && (log[0].quarantined || log[0].contextFailed || log[0].aborted) ==>
                !started && Untouched(stage) && emitted[|emitted|-1].Fail?
      // The slot stays held exactly for a failed context, and a container that may be running keeps it.
      ensures log != [] ==> (slotHeld <==> log[0].error.None? && contextFailed)
      ensures log != [] && stage.Broken? && stage.mayRun ==> contextFailed && slotHeld
      ensures (old(quarantined) ==> quarantined) && (old(contextFailed) ==> contextFailed)
      ensures Notice in emitted <==> started && !q.haveWorker
      ensures started ==>
              |late| <= |spoken| && spoken[|spoken| - |late|..] == late && passed <= spoken[..|spoken| - |late|]
      ensures !heartbeat
    {
      hide NoTerminal, OneTerminal, IsTerminal, LastTerminal, Relays, Advanced, Relayed, Chunks, Logged, Noted, Heeded,
           Scripted, Fails, Removes, CleansUp, Next, After, ConcurrentEnded, Untouched;
      NothingYet();
      path := OnConcurrent(q);
      assert Logged() by { NothingLogged(); }
      var refused := TurnAway(task, false, noScopeLeft, quarantined || contextFailed);
      if refused { return; }
      ConcurrentRun(q, late);
    }
  }
}
