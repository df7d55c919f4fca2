/** The storage helper's client as it is written: an `active` mark, a journal row around the Docker commands, and
    a cleanup that runs whatever happened. Every step it takes is a step of the journal's state machine, so
    what holds of all runs there holds at every point here. Callers serialize the operations of a scope. */
module CallerStorage {
  import opened Options
  import opened HelperJournal

  const SERIAL := Config(true)
  const ME: Thread := 0

  /** What Docker does while a command is awaited, and whether the command then reports success. */
  datatype Answer = Answer(landings: seq<Event>, ok: bool)

  /** The Docker commands of an operation. */
  datatype Command = Creation | Starting | Inspection | Removal | Confirmation

  /** How an awaited command ended: whether it reported success, and whether by then its helper existed and its request
      was still on its way. */
  datatype Entry = Entry(command: Command, name: Name, ok: bool, present: bool, pending: bool)

  /** The helper's start was requested, and its command reported success. */
  ghost predicate Started(log: seq<Entry>, name: Name) {
    exists e :: e in log && e.command == Starting && e.name == name && e.ok
  }

  class CallerStorage {
    var active: bool
    var row: Option<Name>
    var containers: map<Name, bool>
    var creating: set<Name>
    var starting: set<Name>
    var removing: set<Name>
    var used: set<Name>
    var script: seq<Answer>
    /** Where the operation in progress stands. */
    ghost var ops: map<Thread, Activity>
    /** The commands the latest operation awaited; only `Await` adds to it. */
    ghost var log: seq<Entry>

    ghost function Model(): State
      reads this
    {
      State(row, active, ops, containers, creating, starting, removing, used)
    }

    ghost predicate Valid()
      reads this
    {
      Reachable(SERIAL, Model())
    }

    constructor ()
      ensures Valid() && ops == map[] && row == None && used == {}
    {
      active, row, containers, creating, starting, removing, used := false, None, map[], {}, {}, {}, {};
      script, ops, log := [], map[], [];
      new;
      Initially(SERIAL);
    }

    /** A request of this kind for the helper was sent and has not taken effect. */
    ghost predicate Pending(command: Command, name: Name)
      reads this`creating, this`starting, this`removing
    {
      match command
      case Creation => name in creating
      case Starting => name in starting
      case _ => name in removing
    }

    /** The command may be awaited: its request was sent. */
    ghost predicate Sent(command: Command, name: Name)
      reads this`ops
    {
      && ME in ops && ops[ME].name == name
      && match command
         case Creation => ops[ME].pc == CreateSent
         case Starting => ops[ME].pc == StartSent
         case Inspection => ops[ME].pc == Inspecting
         case Removal => ops[ME].pc == Removing
         case Confirmation => ops[ME].pc == Confirming
    }

    /** Await a command: requests land, helpers exit, and the command reports. */
    method Await(ghost command: Command, ghost name: Name) returns (ok: bool)
      requires Valid() && Sent(command, name)
      modifies this`containers, this`creating, this`starting, this`removing, this`script, this`log
      ensures Valid()
      ensures creating <= old(creating) && starting <= old(starting) && removing <= old(removing)
      ensures log == old(log) + [Entry(command, name, ok, name in containers, Pending(command, name))]
      ensures Answered(ok)
    {
      hide Reachable, Lands;
      var a := Answer([], false);
      if script != [] { a, script := script[0], script[1..]; }
      ghost var rest := script;
      for i := 0 to |a.landings|
        invariant Valid() && creating <= old(creating) && starting <= old(starting) && removing <= old(removing)
        invariant Model() == LandAll(SERIAL, old(Model()), a.landings[..i]) && script == rest && log == old(log)
      {
        assert a.landings[..i+1][..i] == a.landings[..i];
        Land(a.landings[i]);
      }
      assert a.landings[..|a.landings|] == a.landings;
      ok := a.ok;
      log := log + [Entry(command, name, ok, name in containers, Pending(command, name))];
    }

    /** What the script says happened while the command was awaited, and nothing else. */
    twostate predicate Answered(ok: bool)
      reads this
    {
      var a := if old(script) == [] then Answer([], false) else old(script)[0];
      && ok == a.ok && Model() == LandAll(SERIAL, old(Model()), a.landings)
      && script == if old(script) == [] then [] else old(script)[1..]
    }

    method Land(e: Event)
      requires Valid()
      modifies this`containers, this`creating, this`starting, this`removing
      ensures Valid() && Model() == Lands(SERIAL, old(Model()), e)
      ensures creating <= old(creating) && starting <= old(starting) && removing <= old(removing)
    {
      hide Reachable;
      if e.CreateLands? && e.n in creating {
        Reach(SERIAL, Model(), e);
        creating, containers := creating - {e.n}, containers[e.n := false];
      } else if e.StartLands? && e.n in starting {
        Reach(SERIAL, Model(), e);
        starting := starting - {e.n};
        if e.n in containers { containers := containers[e.n := true]; }
      } else if e.RemoveLands? && e.n in removing {
        Reach(SERIAL, Model(), e);
        removing, containers := removing - {e.n}, containers - {e.n};
      } else if e.Exits? && e.n in containers {
        Reach(SERIAL, Model(), e);
        containers := containers[e.n := false];
      }
    }

    /** A step that only moves the operation on. */
    ghost method MoveOn(e: Event, pc: Pc)
      requires Valid() && Possible(SERIAL, Model(), e) && ME in ops
               && After(SERIAL, Model(), e) == Goto(Model(), ME, pc)
      modifies this`ops
      ensures Valid() && ops == old(ops)[ME := old(ops)[ME].(pc := pc)]
    {
      hide Reachable, Possible;
      Reach(SERIAL, Model(), e);
      ops := ops[ME := ops[ME].(pc := pc)];
    }

    ghost method CreateReturned()
      requires Valid() && At(Model(), ME, CreateSent) && ops[ME].name !in creating
      modifies this`ops
      ensures Valid() && ops == old(ops)[ME := old(ops)[ME].(pc := Created)]
    {
      MoveOn(CreateReturns(ME), Created);
    }

    ghost method Settled()
      requires Valid() && ME in ops && ops[ME].own && ops[ME].pc in {CreateSent, StartSent}
      modifies this`ops
      ensures Valid() && ops == old(ops)[ME := old(ops)[ME].(pc := Inspecting)]
    {
      MoveOn(Settle(ME), Inspecting);
    }

    ghost method RemoveReturned()
      requires Valid() && At(Model(), ME, Removing) && ops[ME].name !in removing
      modifies this`ops
      ensures Valid() && ops == old(ops)[ME := old(ops)[ME].(pc := Confirming)]
    {
      MoveOn(RemoveReturns(ME), Confirming);
    }

    ghost method Confirmed()
      requires Valid() && At(Model(), ME, Confirming) && ops[ME].name !in containers
      modifies this`ops
      ensures Valid() && ops == old(ops)[ME := old(ops)[ME].(pc := Clearing)]
    {
      MoveOn(ConfirmGone(ME), Clearing);
    }

    method RequestCreate(name: Name)
      requires Valid() && At(Model(), ME, Journaled) && ops[ME].name == name
      modifies this`creating, this`ops
      ensures Valid() && ops == old(ops)[ME := old(ops)[ME].(pc := CreateSent)]
    {
      hide Reachable;
      Reach(SERIAL, Model(), SendCreate(ME));
      creating := creating + {name};
      ops := ops[ME := ops[ME].(pc := CreateSent)];
    }

    method RequestStart(name: Name)
      requires Valid() && At(Model(), ME, Created) && ops[ME].name == name
      modifies this`starting, this`ops
      ensures Valid() && ops == old(ops)[ME := old(ops)[ME].(pc := StartSent)]
    {
      hide Reachable;
      Reach(SERIAL, Model(), SendStart(ME));
      starting := starting + {name};
      ops := ops[ME := ops[ME].(pc := StartSent)];
    }

    method RequestRemove(name: Name)
      requires Valid() && At(Model(), ME, Inspecting) && ops[ME].name == name && name in containers
      modifies this`removing, this`ops
      ensures Valid() && ops == old(ops)[ME := old(ops)[ME].(pc := Removing)]
    {
      hide Reachable;
      Reach(SERIAL, Model(), FindPresent(ME));
      removing := removing + {name};
      ops := ops[ME := ops[ME].(pc := Removing)];
    }

    /** What a cleanup awaits: an inspection; a removal exactly when that finds the helper; a confirmation exactly when
        the removal took effect. The helper is gone exactly when the inspection or the confirmation finds nothing. */
    ghost predicate CleanedUp(es: seq<Entry>, helper: Name, gone: bool)
    {
      && 1 <= |es| <= 3 && (forall i :: 0 <= i < |es| ==> es[i].name == helper)
      && es[0].command == Inspection && (|es| > 1 <==> es[0].ok && es[0].present)
      && (|es| > 1 ==> es[1].command == Removal && (|es| > 2 <==> es[1].ok && !es[1].pending))
      && (|es| > 2 ==> es[2].command == Confirmation)
      && (gone <==> (|es| == 1 && es[0].ok && !es[0].present) || (|es| == 3 && es[2].ok && !es[2].present))
    }

    /** Clear the row: exactly when the helper it names is confirmed gone. */
    method Cleanup(own: bool) returns (ok: bool, ghost es: seq<Entry>)
      requires Valid() && At(Model(), ME, Inspecting) && ops[ME].own == own
      modifies this
      ensures Valid() && ops == map[] && used == old(used)
      ensures active == if own then false else old(active)
      ensures old(row).Some? && row == if ok then None else old(row)
      ensures log == old(log) + es && CleanedUp(es, old(row).value, ok)
    {
      hide Reachable, Answered;
      OneOp(Model());
      var helper := row.value;
      var gone := Await(Inspection, helper);
      es := [log[|log|-1]];
      if gone && helper !in containers {
        MoveOn(FindMissing(ME), Clearing);
      } else if gone {
        ghost var more;
        gone, more := RemoveHelper(own, helper);
        es := es + more;
      }
      if !gone { Abandon(own); return false, es; }
      Reach(SERIAL, Model(), Clear(ME));
      row := None;
      End(own);
      ok := true;
    }

    /** Remove by immutable identity, then confirm. */
    method RemoveHelper(own: bool, helper: Name) returns (gone: bool, ghost es: seq<Entry>)
      requires Valid() && ops == map[ME := Activity(helper, own, Inspecting)] && helper in containers
      modifies this`containers, this`creating, this`starting, this`removing, this`script, this`ops, this`log
      ensures Valid()
      ensures ops.Keys == {ME} && ops[ME].own == own && ops[ME].pc in {Removing, Confirming, Clearing}
      ensures gone ==> ops == map[ME := Activity(helper, own, Clearing)]
      ensures log == old(log) + es && 1 <= |es| <= 2 && forall i :: 0 <= i < |es| ==> es[i].name == helper
      ensures es[0].command == Removal && (|es| == 2 <==> es[0].ok && !es[0].pending)
      ensures |es| == 2 ==> es[1].command == Confirmation
      ensures gone <==> |es| == 2 && es[1].ok && !es[1].present
    {
      hide Reachable, Possible, After, Answered;
      RequestRemove(helper);
      var removed := Await(Removal, helper);
      es := [log[|log|-1]];
      if !removed || helper in removing { return false, es; }
      RemoveReturned();
      var confirmed := Await(Confirmation, helper);
      es := es + [log[|log|-1]];
      if !confirmed || helper in containers { return false, es; }
      Confirmed();
      gone := true;
    }

    /** The operation is over; its own mark goes with it. */
    method End(own: bool)
      requires ME in ops && ops[ME].own == own && (forall t :: t in ops ==> t == ME)
      modifies this`ops, this`active
      ensures ops == map[] && active == if own then false else old(active)
    {
      if own { active := false; }
      ops := ops - {ME};
    }

    /** Termination is unconfirmed: the row stays. */
    method Abandon(own: bool)
      requires Valid() && ME in ops && ops[ME].own == own && ops[ME].pc in {Inspecting, Removing, Confirming, Clearing}
               && (forall t :: t in ops ==> t == ME)
      modifies this`ops, this`active
      ensures Valid() && ops == map[] && active == if own then false else old(active)
    {
      hide Reachable;
      Reach(SERIAL, Model(), GiveUp(ME));
      End(own);
    }

    lemma OneOp(s: State)
      requires Reachable(SERIAL, s) && ME in s.ops
      ensures s.ops == map[ME := s.ops[ME]] && s.row == Some(s.ops[ME].name) && (s.ops[ME].own ==> s.active)
    {
      var es :| Runs(SERIAL, Start, es, s);
      RunKeepsInv(SERIAL, Start, es, s);
    }

    lemma IdleUnmarked(s: State)
      requires Reachable(SERIAL, s)
      ensures s.ops == map[] ==> !s.active
      ensures s.active ==> s.row.Some?
    {
      var es :| Runs(SERIAL, Start, es, s);
      RunKeepsInv(SERIAL, Start, es, s);
    }

    /** `manage` and `prepareContext`: journal, create, start, and always clean up. The name is fresh. Success means
        that the helper's start reported success, and that nothing of it is left. */
    method Manage(name: Name, answers: seq<Answer>) returns (ok: bool)
      requires Valid() && (ops == map[] || active) && name !in used
      modifies this
      ensures Valid() && (old(active) ==> !ok && Model() == old(Model())) && (!old(active) ==> ops == map[] && !active)
      ensures old(row).Some? ==> !ok && Model() == old(Model()) && log == []
      ensures old(row).None? ==> row == None || row == Some(name)
      // It succeeds exactly when the start was requested and reported success, and the cleanup cleared the row.
      ensures ok <==> old(row).None? && Started(log, name) && row == None
      ensures ok ==> forall n :: !Running(Model(), n)
      // The start is requested exactly when the creation reported success and took effect, and a cleanup always
      // follows.
      ensures old(row).None? ==>
                && |log| >= 2 && log[0].command == Creation && log[0].name == name
                && (log[1].command == Starting <==> log[0].ok && !log[0].pending)
                && (var k := if log[1].command == Starting then 2 else 1;
                    k < |log| && CleanedUp(log[k..], name, row == None))
    {
      hide Reachable;
      IdleUnmarked(Model());
      script, log := answers, [];
      if row.Some? || active { return false; }
      Journal(name);
      ok := RunHelper(name);
      ghost var ran := log;
      var cleaned, es := Cleanup(true);
      assert log[|ran|..] == es && log[0] == ran[0] && (|ran| == 2 ==> log[1] == ran[1]);
      ok := ok && cleaned;
      JournalingExactly(SERIAL);
    }

    /** Mark the scope and record the helper's name, before anything is created. */
    method Journal(name: Name)
      requires Valid() && ops == map[] && !active && row == None && name !in used
      modifies this`active, this`row, this`used, this`ops
      ensures Valid() && ops == map[ME := Activity(name, true, Journaled)] && row == Some(name) && active
    {
      hide Reachable;
      Reach(SERIAL, Model(), Begin(ME, name));
      active, row, used := true, Some(name), used + {name};
      ops := map[ME := Activity(name, true, Journaled)];
    }

    /** Create, then start by the id that creation returned; every failure leads to the cleanup. */
    method RunHelper(name: Name) returns (ok: bool)
      requires Valid() && ops == map[ME := Activity(name, true, Journaled)] && row == Some(name) && active && log == []
      modifies this`containers, this`creating, this`starting, this`removing, this`script, this`ops, this`log
      ensures Valid() && ops == map[ME := Activity(name, true, Inspecting)]
      ensures 1 <= |log| <= 2 && log[0].command == Creation && log[0].name == name
      ensures |log| == 2 <==> log[0].ok && !log[0].pending
      ensures |log| == 2 ==> log[1].command == Starting && log[1].name == name
      ensures ok <==> |log| == 2 && log[1].ok
    {
      hide Reachable, Possible, After, Answered;
      RequestCreate(name);
      ok := Await(Creation, name);
      if ok && name !in creating {
        ok := StartHelper(name);
      } else {
        ok := false;
      }
      Settled();
    }

    method StartHelper(name: Name) returns (ok: bool)
      requires Valid() && ops == map[ME := Activity(name, true, CreateSent)] && name !in creating
      modifies this`containers, this`creating, this`starting, this`removing, this`script, this`ops, this`log
      ensures Valid() && ops == map[ME := Activity(name, true, StartSent)]
      ensures |log| == |old(log)| + 1 && log[..|old(log)|] == old(log)
      ensures log[|old(log)|].command == Starting && log[|old(log)|].name == name && log[|old(log)|].ok == ok
    {
      hide Reachable, Possible, After, Answered;
      CreateReturned();
      RequestStart(name);
      ok := Await(Starting, name);
    }

    /** `reconcile`: finish what an earlier operation, or an earlier process, left behind. */
    method ReconcileScope(answers: seq<Answer>) returns (ok: bool)
      requires Valid() && (ops == map[] || active)
      modifies this
      ensures Valid() && (old(active) ==> !ok && Model() == old(Model())) && (!old(active) ==> ops == map[] && !active)
      ensures !old(active) && old(row).None? ==> ok && Model() == old(Model()) && log == []
      ensures !old(active) && old(row).Some? ==>
                row == (if ok then None else old(row)) && log != [] && CleanedUp(log, old(row).value, ok)
      ensures ok ==> row == None && forall n :: !Running(Model(), n)
    {
      hide Reachable;
      IdleUnmarked(Model());
      script, log := answers, [];
      if active { return false; }
      if row.None? {
        ok := true;
      } else {
        Reach(SERIAL, Model(), Reconcile(ME));
        ops := map[ME := Activity(row.value, false, Inspecting)];
        ghost var es;
        ok, es := Cleanup(false);
        assert log == es;
      }
      JournalingExactly(SERIAL);
    }

    /** The process dies; the row, the containers and the requests on their way remain. */
    method Die()
      requires Valid()
      modifies this`ops, this`active
      ensures Valid() && ops == map[] && !active
    {
      hide Reachable;
      Reach(SERIAL, Model(), Crash);
      active, ops := false, map[];
    }
  }
}
