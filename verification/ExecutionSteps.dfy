/** One task of the scoped backend over values: which operations its serial and its concurrent path await, in which
    order, and where each way of ending leads; which failure code it ends with; and what becomes of everything that
    happens while it waits. */
module ExecutionSteps {
  import opened Options

  datatype Code = ScopeRequired | Stopped | Capacity | Quarantined | SetupPending | OrphanedResources
    | ReservationUnconfirmed | AllocationIncomplete | StorageMissing | StorageLimit | Canceled | Failed | TimedOut
    | QueueTimedOut

  datatype Error = Plain | StorageLimitError | EnvironmentPending | HelperUnconfirmed | ScopeCleanupUnconfirmed
    | Orphaned | Unreserved | Incomplete | Missing | QueueFull | ContextCapacity

  datatype Operation = Turn | Acquire | OldSettles | Factory | RecordReset | Handling | Settling | CheckUnderway
    | CheckStorage | Removing | RecordFailed | SettlingAgain | CheckAgain | Stopping | RemovingAgain

  /** How an operation ended, the task's and the entry's state at that moment, and whether the worker has given a
      terminal that counts. */
  datatype Report = Report(error: Option<Error>, aborted: bool, quarantined: bool, contextFailed: bool, terminal: bool)

  /** What a serial task finds: room for its conversation, whether a failing acquisition changed anything, whether the
      container was restarted, whether there is a worker, whether the scope was recovered, and whether the worker is
      healthy afterwards. */
  datatype Serial = Serial(full: bool, mutated: bool, restarted: bool, haveWorker: bool, resume: bool, healthy: bool)
  datatype Concurrent = Concurrent(full: bool, haveWorker: bool, healthy: bool)

  /** Where a task stands: waiting for an operation, at its end, or broken by an error, with the cleanup operations
      still to do, whether one of them was in vain, and whether a container of the task may be running. */
  datatype Stage = Queued | Acquiring | Renewing | Making(resuming: bool) | Resetting | Running | SettlingDown
    | CheckingUnderway | Checking | Leaving | Done | Full
    | Broken(error: Error, todo: seq<Operation>, inVain: bool, mayRun: bool)

  // ---------------------------------------------------------------- the serial path

  function Fails(e: Error, acquired: bool, resuming: bool): (st: Stage)
    ensures st.Broken? && st.error == e && st.mayRun == acquired && !st.inVain
  {
    Broken(e, (if resuming then [RecordFailed] else [])
              + (if acquired then [SettlingAgain, CheckAgain, Stopping] else []),
           false, acquired)
  }

  /** A cleanup operation ended. The worker's settling and a check under way may fail; a reset that cannot be recorded
      and a container that cannot be stopped or removed leave doubt. */
  function CleansUp(st: Stage, r: Report): Stage
    requires st.Broken? && st.todo != []
  {
    var op := st.todo[0];
    var failed := r.error.Some? && (op.RecordFailed? || op.Stopping? || op.RemovingAgain?);
    Broken(st.error, st.todo[1..], st.inVain || failed,
           st.mayRun && !(r.error.None? && (op.Stopping? || op.RemovingAgain?)))
  }

  function Awaited(st: Stage): Option<Operation> {
    match st
    case Queued => Some(Turn)
    case Acquiring => Some(Acquire)
    case Renewing => Some(OldSettles)
    case Making(_) => Some(Factory)
    case Resetting => Some(RecordReset)
    case Running => Some(Handling)
    case SettlingDown => Some(Settling)
    case CheckingUnderway => Some(CheckUnderway)
    case Checking => Some(CheckStorage)
    case Leaving => Some(Removing)
    case Broken(_, todo, _, _) => if todo == [] then None else Some(todo[0])
    case _ => None
  }

  /** A worker for the container as it is now. */
  function WithWorker(resuming: bool): Stage {
    if resuming then Resetting else Running
  }

  function SerialNext(q: Serial, st: Stage, r: Report): Stage
    requires Awaited(st).Some?
  {
    match st
    case Queued =>
      if r.error.Some? then Fails(r.error.value, false, false)
      else if r.aborted || r.quarantined then Fails(Plain, false, false)
      else if q.full then Full else Acquiring
    case Acquiring =>
      if r.error.Some? then Fails(r.error.value, q.mutated, q.resume)
      else if r.aborted then Fails(Plain, true, q.resume)
      else if q.restarted && q.haveWorker then Renewing
      else if !q.haveWorker then Making(q.resume) else WithWorker(q.resume)
    case Renewing => if r.error.Some? then Fails(r.error.value, true, q.resume) else Making(true)
    case Making(resuming) =>
      if r.error.Some? then Fails(r.error.value, true, resuming)
      else if r.aborted then Fails(Plain, true, resuming) else WithWorker(resuming)
    case Resetting => if r.error.Some? then Fails(r.error.value, true, true) else Running
    case Running =>
      if r.error.Some? then Fails(r.error.value, true, false)
      else if r.aborted then Fails(Plain, true, false) else SettlingDown
    case SettlingDown =>
      if r.error.Some? then Fails(r.error.value, true, false)
      else if !q.healthy then Fails(Plain, true, false) else CheckingUnderway
    case CheckingUnderway => Checking
    case Checking =>
      if r.error.Some? then Fails(r.error.value, true, false)
      else if r.aborted || !r.terminal then Fails(Plain, true, false) else Done
    case Leaving => st
    case Broken(_, _, _, _) => CleansUp(st, r)
  }

  function SerialAfter(q: Serial, log: seq<Report>): Stage {
    if log == [] then Queued
    else
      var st := SerialAfter(q, log[..|log|-1]);
      if Awaited(st).Some? then SerialNext(q, st, log[|log|-1]) else st
  }

  // ---------------------------------------------------------------- the concurrent path

  function Removes(e: Error): (st: Stage)
    ensures st.Broken? && st.error == e && st.mayRun && !st.inVain
  {
    Broken(e, [SettlingAgain, RemovingAgain], false, true)
  }

  function ConcurrentNext(q: Concurrent, st: Stage, r: Report): Stage
    requires Awaited(st).Some?
  {
    match st
    case Queued =>
      if r.error.Some? then Broken(r.error.value, [], false, false)
      else if r.aborted || r.quarantined || r.contextFailed then Broken(Plain, [], false, false)
      else if q.full then Full else Acquiring
    case Acquiring =>
      if r.error.Some? then Removes(r.error.value)
      else if r.aborted then Removes(Plain)
      else if q.haveWorker then Running else Making(false)
    case Making(_) => if r.error.Some? then Removes(r.error.value) else Running
    case Running =>
      if r.error.Some? then Removes(r.error.value) else if r.aborted then Removes(Plain) else SettlingDown
    case SettlingDown =>
      if r.error.Some? then Removes(r.error.value) else if !q.healthy then Removes(Plain) else Leaving
    case Leaving =>
      if r.error.Some? then Removes(r.error.value)
      else if r.aborted || !r.terminal then Broken(Plain, [SettlingAgain], false, false) else Done
    case Broken(_, _, _, _) => CleansUp(st, r)
    case _ => st
  }

  function ConcurrentAfter(q: Concurrent, log: seq<Report>): Stage {
    if log == [] then Queued
    else
      var st := ConcurrentAfter(q, log[..|log|-1]);
      if Awaited(st).Some? then ConcurrentNext(q, st, log[|log|-1]) else st
  }

  // ---------------------------------------------------------------- what the stages mean

  /** The stages of a task that goes through, from the queue to its end. */
  function SerialPath(q: Serial): seq<Stage> {
    [Queued, Acquiring] + (if q.restarted && q.haveWorker then [Renewing] else [])
    + (if q.restarted || !q.haveWorker then [Making(q.resume || q.haveWorker)] else [])
    + (if q.resume || (q.restarted && q.haveWorker) then [Resetting] else [])
    + [Running, SettlingDown, CheckingUnderway, Checking, Done]
  }

  function ConcurrentPath(q: Concurrent): seq<Stage> {
    [Queued, Acquiring] + (if q.haveWorker then [] else [Making(false)]) + [Running, SettlingDown, Leaving, Done]
  }

  /** The task may go on from a stage: the operation did not fail, unless it was the check under way; the task is not
      aborted where that is looked at; it got its turn in a sound scope with room for its conversation; the worker
      settled healthily; and at the end there is a terminal of the worker. */
  predicate GoesOn(st: Stage, r: Report, full: bool, healthy: bool, concurrent: bool) {
    && (r.error.None? || st == CheckingUnderway)
    && (st.Queued? || st.Acquiring? || st.Running? || st.Checking? || st.Leaving? || (st.Making? && !concurrent) ==>
          !r.aborted)
    && (st.Queued? ==> !r.quarantined && !full && (concurrent ==> !r.contextFailed))
    && (st.SettlingDown? ==> healthy)
    && (st.Checking? || st.Leaving? ==> r.terminal)
  }

  /** What the cleanup of a failed serial task consists of, by the stage it failed at: a reset that was due and is not
      recorded is recorded as failed; a container that was acquired, or that a failing acquisition changed, is stopped
      after its worker settled. */
  predicate SerialBreaks(q: Serial, st: Stage, r: Report, b: Stage) {
    var acquired := st != Queued && (st == Acquiring && r.error.Some? ==> q.mutated);
    var resuming := match st
                    case Acquiring => q.resume
                    case Renewing => q.resume
                    case Making(_) => q.resume || (q.restarted && q.haveWorker)
                    case Resetting => true
                    case _ => false;
    b == Broken(if r.error.Some? then r.error.value else Plain,
                (if resuming then [RecordFailed] else [])
                + (if acquired then [SettlingAgain, CheckAgain, Stopping] else []),
                false, acquired)
  }

  /** The path, written out for what the task finds. */
  lemma PathShapes(q: Serial)
    ensures SerialPath(q) ==
            if q.restarted && q.haveWorker then
              [Queued, Acquiring, Renewing, Making(true), Resetting, Running, SettlingDown, CheckingUnderway, Checking,
                Done]
            else if !q.haveWorker && q.resume then
              [Queued, Acquiring, Making(true), Resetting, Running, SettlingDown, CheckingUnderway, Checking, Done]
            else if !q.haveWorker then
              [Queued, Acquiring, Making(false), Running, SettlingDown, CheckingUnderway, Checking, Done]
            else if q.resume then
              [Queued, Acquiring, Resetting, Running, SettlingDown, CheckingUnderway, Checking, Done]
            else [Queued, Acquiring, Running, SettlingDown, CheckingUnderway, Checking, Done]
  {}

  /** From a stage the task goes on to the next one, or breaks, or finds no room. */
  ghost predicate Leads(q: Serial, st: Stage, r: Report, next: Stage) {
    && Awaited(st).Some?
    && if GoesOn(st, r, q.full, q.healthy, false) then SerialNext(q, st, r) == next
       else if st.Queued? && q.full && GoesOn(Queued, r, false, q.healthy, false) then SerialNext(q, st, r) == Full
       else SerialBreaks(q, st, r, SerialNext(q, st, r))
  }

  lemma AtTurn(q: Serial, r: Report)
    ensures Leads(q, Queued, r, Acquiring)
  {}

  lemma AtAcquire(q: Serial, r: Report)
    ensures Leads(q, Acquiring, r, if q.restarted && q.haveWorker then Renewing
                                   else if !q.haveWorker then Making(q.resume) else WithWorker(q.resume))
  {}

  lemma WorkerStages(q: Serial, r: Report)
    ensures q.restarted && q.haveWorker ==> Leads(q, Renewing, r, Making(true)) && Leads(q, Making(true), r, Resetting)
    ensures !q.haveWorker ==> Leads(q, Making(q.resume), r, WithWorker(q.resume))
    ensures Leads(q, Resetting, r, Running)
  {}

  lemma AtHandle(q: Serial, r: Report)
    ensures Leads(q, Running, r, SettlingDown)
  {}

  lemma AtSettle(q: Serial, r: Report)
    ensures Leads(q, SettlingDown, r, CheckingUnderway) && Leads(q, CheckingUnderway, r, Checking)
  {}

  lemma AtCheck(q: Serial, r: Report)
    ensures Leads(q, Checking, r, Done)
  {}

  /** One stage of the path. */
  lemma SerialStage(q: Serial, n: nat, r: Report)
    requires n < |SerialPath(q)| - 1
    ensures var path := SerialPath(q); Leads(q, path[n], r, path[n+1]) && (n == 0 <==> path[n] == Queued)
  {
    hide SerialPath, Leads;
    PathShapes(q);
    AtTurn(q, r);
    AtAcquire(q, r);
    WorkerStages(q, r);
    AtHandle(q, r);
    AtSettle(q, r);
    AtCheck(q, r);
  }

  /** A task that was let go on from every stage so far is at the next one. */
  lemma {:induction false} SerialGoesThrough(q: Serial, log: seq<Report>)
    requires |log| < |SerialPath(q)|
    requires forall i :: 0 <= i < |log| ==> GoesOn(SerialPath(q)[i], log[i], q.full, q.healthy, false)
    ensures SerialAfter(q, log) == SerialPath(q)[|log|]
  {
    hide SerialPath, GoesOn, SerialNext, SerialBreaks;
    PathShapes(q);
    if log != [] {
      var n := |log| - 1;
      SerialGoesThrough(q, log[..n]);
      SerialStage(q, n, log[n]);
    }
  }

  /** A task that is stopped at a stage of its path breaks there, unless all it lacks is room for its conversation. */
  lemma SerialBreaksAt(q: Serial, log: seq<Report>, n: nat)
    requires n < |SerialPath(q)| - 1 && |log| == n + 1
    requires forall i :: 0 <= i < n ==> GoesOn(SerialPath(q)[i], log[i], q.full, q.healthy, false)
    requires !GoesOn(SerialPath(q)[n], log[n], q.full, q.healthy, false)
    ensures if n == 0 && q.full && GoesOn(Queued, log[0], false, q.healthy, false) then SerialAfter(q, log) == Full
            else SerialBreaks(q, SerialPath(q)[n], log[n], SerialAfter(q, log))
  {
    hide SerialPath, GoesOn, SerialNext, SerialBreaks;
    SerialGoesThrough(q, log[..n]);
    SerialStage(q, n, log[n]);
  }

  lemma {:induction false} ConcurrentGoesThrough(q: Concurrent, log: seq<Report>)
    requires |log| < |ConcurrentPath(q)|
    requires forall i :: 0 <= i < |log| ==> GoesOn(ConcurrentPath(q)[i], log[i], q.full, q.healthy, true)
    ensures ConcurrentAfter(q, log) == ConcurrentPath(q)[|log|]
  {
    if log != [] {
      var n := |log| - 1;
      ConcurrentGoesThrough(q, log[..n]);
      assert GoesOn(ConcurrentPath(q)[n], log[n], q.full, q.healthy, true);
    }
  }

  /** Whatever stopped a concurrent task after its turn, its worker settles and its container is removed, unless that
      was confirmed already. */
  predicate ConcurrentBreaks(st: Stage, r: Report, b: Stage) {
    var removed := st == Leaving && r.error.None?;
    b == Broken(if r.error.Some? then r.error.value else Plain,
                if st == Queued then [] else if removed then [SettlingAgain] else [SettlingAgain, RemovingAgain],
                false, st != Queued && !removed)
  }

  lemma ConcurrentBreaksAt(q: Concurrent, log: seq<Report>, n: nat)
    requires n < |ConcurrentPath(q)| - 1 && |log| == n + 1
    requires forall i :: 0 <= i < n ==> GoesOn(ConcurrentPath(q)[i], log[i], q.full, q.healthy, true)
    requires !GoesOn(ConcurrentPath(q)[n], log[n], q.full, q.healthy, true)
    ensures if n == 0 && q.full && GoesOn(Queued, log[0], false, q.healthy, true) then ConcurrentAfter(q, log) == Full
            else ConcurrentBreaks(ConcurrentPath(q)[n], log[n], ConcurrentAfter(q, log))
  {
    ConcurrentGoesThrough(q, log[..n]);
  }

  /** The task never touches a container and awaits nothing more. */
  predicate Untouched(st: Stage) {
    st == Full || (st.Broken? && st.todo == [] && !st.mayRun && !st.inVain)
  }

  /** A task whose scope was quarantined while it queued, or that was aborted there, never gets any further. */
  lemma {:induction false} SerialTurnedAway(q: Serial, log: seq<Report>)
    requires log != [] && (log[0].error.Some? || log[0].aborted || log[0].quarantined || q.full)
    ensures Untouched(SerialAfter(q, log))
  {
    if |log| > 1 { SerialTurnedAway(q, log[..|log|-1]); } else { assert log[..0] == []; }
  }

  lemma {:induction false} ConcurrentTurnedAway(q: Concurrent, log: seq<Report>)
    requires log != []
    requires log[0].error.Some? || log[0].aborted || log[0].quarantined || log[0].contextFailed || q.full
    ensures Untouched(ConcurrentAfter(q, log))
  {
    if |log| > 1 { ConcurrentTurnedAway(q, log[..|log|-1]); } else { assert log[..0] == []; }
  }

  /** A broken task's container is still to be stopped or removed, or it is gone, or that was in vain. */
  predicate Answered(st: Stage) {
    st.Broken? && st.mayRun ==> st.inVain || Stopping in st.todo || RemovingAgain in st.todo
  }

  lemma {:induction false} SerialAnswered(q: Serial, log: seq<Report>)
    ensures Answered(SerialAfter(q, log))
  {
    if log != [] { SerialAnswered(q, log[..|log|-1]); }
  }

  lemma {:induction false} ConcurrentAnswered(q: Concurrent, log: seq<Report>)
    ensures Answered(ConcurrentAfter(q, log))
  {
    if log != [] { ConcurrentAnswered(q, log[..|log|-1]); }
  }

  /** A task at its end with the worker's terminal went through its whole path, and only such a task is there. */
  lemma {:induction false} SerialDoneExactly(q: Serial, log: seq<Report>)
    requires |log| == |SerialPath(q)| - 1
    ensures SerialAfter(q, log) == Done <==>
              forall i :: 0 <= i < |log| ==> GoesOn(SerialPath(q)[i], log[i], q.full, q.healthy, false)
  {
    var path := SerialPath(q);
    if forall i :: 0 <= i < |log| ==> GoesOn(path[i], log[i], q.full, q.healthy, false) {
      SerialGoesThrough(q, log);
    } else {
      var n := FirstStop(path, log, q.full, q.healthy, false);
      SerialBreaksAt(q, log[..n+1], n);
      SerialStaysBroken(q, log, n + 1);
    }
  }

  lemma {:induction false} ConcurrentDoneExactly(q: Concurrent, log: seq<Report>)
    requires |log| == |ConcurrentPath(q)| - 1
    ensures ConcurrentAfter(q, log) == Done <==>
              forall i :: 0 <= i < |log| ==> GoesOn(ConcurrentPath(q)[i], log[i], q.full, q.healthy, true)
  {
    var path := ConcurrentPath(q);
    if forall i :: 0 <= i < |log| ==> GoesOn(path[i], log[i], q.full, q.healthy, true) {
      ConcurrentGoesThrough(q, log);
    } else {
      var n := FirstStop(path, log, q.full, q.healthy, true);
      ConcurrentBreaksAt(q, log[..n+1], n);
      ConcurrentStaysBroken(q, log, n + 1);
    }
  }

  lemma {:induction false} FirstStop(path: seq<Stage>, log: seq<Report>, full: bool, healthy: bool, concurrent: bool)
    returns (n: nat)
    requires |log| < |path| && exists i :: 0 <= i < |log| && !GoesOn(path[i], log[i], full, healthy, concurrent)
    ensures n < |log| && !GoesOn(path[n], log[n], full, healthy, concurrent)
    ensures forall i :: 0 <= i < n ==> GoesOn(path[i], log[i], full, healthy, concurrent)
  {
    var k := |log| - 1;
    if i :| 0 <= i < k && !GoesOn(path[i], log[i], full, healthy, concurrent) {
      assert log[..k][i] == log[i];
      n := FirstStop(path, log[..k], full, healthy, concurrent);
      forall i | 0 <= i < n ensures GoesOn(path[i], log[i], full, healthy, concurrent) { assert log[..k][i] == log[i]; }
    } else {
      n := k;
    }
  }

  lemma {:induction false} SerialStaysBroken(q: Serial, log: seq<Report>, n: nat)
    requires n <= |log| && (SerialAfter(q, log[..n]) == Full || SerialAfter(q, log[..n]).Broken?)
    ensures SerialAfter(q, log) == Full || SerialAfter(q, log).Broken?
    decreases |log|
  {
    if n < |log| {
      assert log[..|log|-1][..n] == log[..n];
      SerialStaysBroken(q, log[..|log|-1], n);
    } else {
      assert log[..n] == log;
    }
  }

  lemma {:induction false} ConcurrentStaysBroken(q: Concurrent, log: seq<Report>, n: nat)
    requires n <= |log| && (ConcurrentAfter(q, log[..n]) == Full || ConcurrentAfter(q, log[..n]).Broken?)
    ensures ConcurrentAfter(q, log) == Full || ConcurrentAfter(q, log).Broken?
    decreases |log|
  {
    if n < |log| {
      assert log[..|log|-1][..n] == log[..n];
      ConcurrentStaysBroken(q, log[..|log|-1], n);
    } else {
      assert log[..n] == log;
    }
  }

  /** The cleanup operations one by one. */
  lemma Recording(e: Error, acquired: bool, r: Report)
    ensures CleansUp(Fails(e, acquired, true), r) ==
            Broken(e, if acquired then [SettlingAgain, CheckAgain, Stopping] else [], r.error.Some?, acquired)
    ensures Fails(e, acquired, false) ==
            Broken(e, if acquired then [SettlingAgain, CheckAgain, Stopping] else [], false, acquired)
  {}

  lemma StoppingSteps(e: Error, v: bool, r: Report)
    ensures CleansUp(Broken(e, [SettlingAgain, CheckAgain, Stopping], v, true), r) ==
            Broken(e, [CheckAgain, Stopping], v, true)
    ensures CleansUp(Broken(e, [CheckAgain, Stopping], v, true), r) == Broken(e, [Stopping], v, true)
    ensures CleansUp(Broken(e, [Stopping], v, true), r) == Broken(e, [], v || r.error.Some?, r.error.Some?)
  {}

  lemma RemovingSteps(e: Error, r: Report)
    ensures CleansUp(Broken(e, [SettlingAgain, RemovingAgain], false, true), r) ==
            Broken(e, [RemovingAgain], false, true)
    ensures CleansUp(Broken(e, [SettlingAgain], false, false), r) == Broken(e, [], false, false)
    ensures CleansUp(Broken(e, [RemovingAgain], false, true), r) == Broken(e, [], r.error.Some?, r.error.Some?)
  {}

  // ---------------------------------------------------------------- failure codes

  datatype Flags = Flags(aborted: bool, timedOut: bool, storageFailure: bool, storageCheckFailed: bool,
                         quarantined: bool, contextFailed: bool)

  /** The code of a serial failure. Some errors decide by themselves; then quarantine comes before storage, storage
      before a failed check, and that before an abort. */
  function SerialCode(e: Error, f: Flags): (c: Code)
    ensures c == SetupPending <==> e == EnvironmentPending
    ensures c == OrphanedResources <==> e == Orphaned
    ensures c == ReservationUnconfirmed <==> e == Unreserved
    ensures c == AllocationIncomplete <==> e == Incomplete
    ensures c == StorageMissing <==> e == Missing
    ensures c == Quarantined <==>
              e == HelperUnconfirmed
              || (f.quarantined && e != EnvironmentPending && e != Orphaned && e != Unreserved && e != Incomplete
                  && e != Missing)
    ensures c == StorageLimit ==> e == StorageLimitError || f.storageFailure
    ensures c == Canceled ==> f.aborted && !f.quarantined && !f.storageCheckFailed && !f.storageFailure
    ensures e == Plain && !f.quarantined ==>
              c == if f.storageFailure then StorageLimit
                   else if f.aborted && !f.storageCheckFailed then Canceled else Failed
    ensures e == StorageLimitError && !f.quarantined ==> c == StorageLimit
    ensures !c.ScopeRequired? && !c.Stopped? && !c.Capacity? && !c.TimedOut? && !c.QueueTimedOut?
  {
    if e == EnvironmentPending then SetupPending
    else if e == HelperUnconfirmed then Quarantined
    else if e == Orphaned then OrphanedResources
    else if e == Unreserved then ReservationUnconfirmed
    else if e == Incomplete then AllocationIncomplete
    else if e == Missing then StorageMissing
    else if f.quarantined then Quarantined
    else if f.storageFailure || e == StorageLimitError then StorageLimit
    else if f.storageCheckFailed then Failed
    else if f.aborted then Canceled
    else Failed
  }

  /** The code of a concurrent failure: quarantine first, then the error's own code, then the time limit, told apart
      by whether the task had left its queue, then an abort. */
  function ConcurrentCode(e: Error, f: Flags, allocating: bool): (c: Code)
    ensures c == Quarantined <==> f.quarantined || f.contextFailed
    ensures c == Capacity <==> !f.quarantined && !f.contextFailed && (e.QueueFull? || e.ContextCapacity?)
    ensures c == SetupPending <==> !f.quarantined && !f.contextFailed && e == EnvironmentPending
    ensures c == TimedOut ==> f.timedOut && allocating
    ensures c == QueueTimedOut ==> f.timedOut && !allocating
    ensures c == Canceled ==> f.aborted && !f.timedOut
    ensures !f.quarantined && !f.contextFailed && !e.QueueFull? && !e.ContextCapacity? && !e.EnvironmentPending? ==>
              (c.TimedOut? || c.QueueTimedOut? <==> f.timedOut) && (c == Failed <==> !f.timedOut && !f.aborted)
    ensures c.Quarantined? || c.Capacity? || c.SetupPending? || c.TimedOut? || c.QueueTimedOut? || c.Canceled?
            || c.Failed?
  {
    if f.quarantined || f.contextFailed then Quarantined
    else if e == QueueFull || e == ContextCapacity then Capacity
    else if e == EnvironmentPending then SetupPending
    else if f.timedOut then (if allocating then TimedOut else QueueTimedOut)
    else if f.aborted then Canceled
    else Failed
  }
}
