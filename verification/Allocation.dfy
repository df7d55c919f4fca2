/** Allocating one caller scope: store rows record the intent before each Docker mutation, and any step may be
    the last one before a crash. Resources carry identities, so that a replacement is told from the original. */
module Allocation {
  import opened Options

  type ResourceId = nat
  type Principal = string
  datatype Suffix = Workspace | Sessions | Storage

  /** How a step ends: it works, it throws before or after taking effect, or the process dies there. */
  datatype Step = Works | ThrowsBefore | ThrowsAfter | DiesBefore | DiesAfter
  datatype Ending = Acquired | Finished | Threw | Died

  /** The scope's rows in the store; a row of an older version may not name its principal. */
  datatype Rows = Rows(scope: bool, pending: bool, complete: bool, image: bool, principal: Option<Principal>)
  datatype Docker = Docker(container: Option<ResourceId>, running: bool, network: Option<ResourceId>,
                           volumes: map<Suffix, ResourceId>)

  const NO_ROWS := Rows(false, false, false, false, None)

  /** An existing row is only ever changed by naming the principal it did not name yet. */
  function Bound(r: Rows, principal: Option<Principal>): Rows {
    if r.principal.None? then r.(principal := principal) else r
  }

  predicate Took(s: Step): (t: bool)
    ensures t <==> s != ThrowsBefore && s != DiesBefore
  {
    s.Works? || s.ThrowsAfter? || s.DiesAfter?
  }

  predicate Dead(s: Step): (d: bool)
    ensures d <==> s != Works && s != ThrowsBefore && s != ThrowsAfter
  {
    s.DiesBefore? || s.DiesAfter?
  }

  function EndOf(s: Step): (e: Ending)
    ensures (e == Finished <==> s == Works) && (e == Died <==> s == DiesBefore || s == DiesAfter) && e != Acquired
  {
    if s == Works then Finished else if Dead(s) then Died else Threw
  }

  /** What a call does, step by step. */
  datatype Task =
    | InsertRow | LookAround | RecordId | Confirm | TakeBack | Inspect | Attach
    | LookFor(s: Suffix) | NewVolume(s: Suffix) | NewNetwork | NewContainer | Start | Reinspect | Firewall
    | CheckStorage
    | Complete | StopRetained | RemoveContainer | RemoveNetwork | RemoveVolume(s: Suffix) | DeleteImage | ForgetRow

  /** The volumes that a scope has: one for both uses on a fixed image, otherwise one for each. */
  function Suffixes(fixedImages: bool): (ss: seq<Suffix>)
    ensures Storage in ss <==> fixedImages
    ensures (Workspace in ss <==> !fixedImages) && (Sessions in ss <==> !fixedImages)
    ensures forall i, j :: 0 <= i < j < |ss| ==> ss[i] != ss[j]
  {
    if fixedImages then [Storage] else [Workspace, Sessions]
  }

  /** The steps that find, or find and create, a scope's volumes. */
  function VolumeSteps(ss: seq<Suffix>, create: bool): seq<Task> {
    if ss == [] then []
    else VolumeSteps(ss[..|ss|-1], create)
         + (if create then [LookFor(ss[|ss|-1]), NewVolume(ss[|ss|-1])] else [LookFor(ss[|ss|-1])])
  }

  /** What an acquisition that goes through does, in this order. */
  function Acquisition(fixedImages: bool, isNew: bool, d: Docker): seq<Task> {
    [InsertRow]
    + (if isNew then [LookAround] + (if fixedImages then [RecordId] else []) + [Confirm] else [Inspect])
    + (if fixedImages then [Attach] else [])
    + BuildSteps(fixedImages, isNew, d)
  }

  /** From there on: the missing container, its start, and the checks. */
  function BuildSteps(fixedImages: bool, isNew: bool, d: Docker): seq<Task> {
    (if d.container.Some? then []
     else VolumeSteps(Suffixes(fixedImages), isNew) + (if d.network.None? then [NewNetwork] else []) + [NewContainer])
    + (if d.container.Some? && d.running then [] else [Start]) + [Reinspect, Firewall, CheckStorage, Complete]
  }

  /** The volumes that must be absent before a scope is reserved. */
  function Looked(fixedImages: bool): (which: set<Suffix>)
    ensures Workspace in which && Sessions in which && (Storage in which <==> fixedImages)
  {
    {Workspace, Sessions} + (if fixedImages then {Storage} else {})
  }

  ghost function Resources(d: Docker, which: set<Suffix>): set<ResourceId> {
    (if d.container.Some? then {d.container.value} else {})
    + (if d.network.Some? then {d.network.value} else {})
    + (set s | s in d.volumes && s in which :: d.volumes[s])
  }

  predicate Empty(d: Docker, which: set<Suffix>) {
    d.container.None? && d.network.None? && forall s :: s in which ==> s !in d.volumes
  }

  ghost predicate RowsOk(r: Rows) {
    r.pending || r.complete || r.image || r.principal.Some? ==> r.scope
  }

  ghost predicate Numbered(d: Docker, next: ResourceId) {
    && (d.container.Some? ==> d.container.value < next) && (d.network.Some? ==> d.network.value < next)
    && forall s :: s in d.volumes ==> d.volumes[s] < next
  }

  /** `ours` are the resources this code created. They imply a scope row; under a confirmed row nothing else
      stands in their place, and under an unconfirmed one there are none of them. */
  ghost predicate ScopeOk(r: Rows, d: Docker, ours: set<ResourceId>, next: ResourceId, fixedImages: bool) {
    && RowsOk(r)
    && Numbered(d, next) && (forall x :: x in ours ==> x < next)
    && (Resources(d, Looked(fixedImages)) * ours != {} ==> r.scope)
    && (r.scope && r.pending ==> Resources(d, Looked(fixedImages)) * ours == {})
    && (r.scope && !r.pending ==> Resources(d, Looked(fixedImages)) <= ours)
    && (forall s :: s in d.volumes && d.volumes[s] in ours ==> s in Suffixes(fixedImages))
  }

  lemma FewerResources(d: Docker, e: Docker, which: set<Suffix>)
    requires e.container == d.container || e.container.None?
    requires e.network == d.network || e.network.None?
    requires forall s :: s in e.volumes ==> s in d.volumes && e.volumes[s] == d.volumes[s]
    ensures Resources(e, which) <= Resources(d, which)
  {}

  class CallerScope {
    const fixedImages: bool
    /** The principal whose digest is the scope's id. */
    const identity: Principal
    var rows: Rows
    var docker: Docker
    var plan: seq<Step>
    ghost var ours: set<ResourceId>
    var next: ResourceId
    /** The steps of the current call, how the latest one ended, whether all worked, and whether the process died. */
    ghost var did: seq<Task>
    ghost var last: Step
    ghost var clean: bool
    ghost var died: bool

    ghost predicate Valid()
      reads this`rows, this`docker, this`ours, this`next
    {
      ScopeOk(rows, docker, ours, next, fixedImages) && (rows.principal.Some? ==> rows.principal.value == identity)
    }

    /** No row, and whatever resources earlier state directories left behind. */
    constructor (fixedImages: bool, identity: Principal, orphans: Docker, next: ResourceId)
      requires Numbered(orphans, next)
      ensures Valid() && rows == NO_ROWS && docker == orphans && ours == {}
      ensures this.fixedImages == fixedImages && this.identity == identity
    {
      this.fixedImages, this.identity := fixedImages, identity;
      rows, docker, plan, ours, this.next := NO_ROWS, orphans, [], {}, next;
      did, clean, died := [], true, false;
    }

    method Begin(steps: seq<Step>)
      modifies this`plan, this`did, this`clean, this`died
      ensures plan == steps && did == [] && clean && !died
    {
      plan, did, clean, died := steps, [], true, false;
    }

    /** The next step of a process that is alive. */
    method Next(ghost task: Task) returns (s: Step)
      requires !died
      modifies this`plan, this`did, this`clean, this`died, this`last
      ensures s == last == (if old(plan) == [] then DiesBefore else old(plan)[0])
      ensures plan == (if old(plan) == [] then [] else old(plan)[1..]) && did == old(did) + [task] && Stepped()
    {
      s := DiesBefore;
      if plan != [] { s, plan := plan[0], plan[1..]; }
      did, last, clean, died := did + [task], s, clean && s == Works, Dead(s);
    }

    twostate predicate Stepped()
      reads this`last, this`clean, this`died
    {
      clean == (old(clean) && last == Works) && died == Dead(last)
    }

    /** Everything that was there is still there, and the same. */
    twostate predicate KeptResources()
      reads this`docker
    {
      && (old(docker).container.Some? ==> docker.container == old(docker).container)
      && (old(docker).network.Some? ==> docker.network == old(docker).network)
      && forall s :: s in old(docker).volumes ==> s in docker.volumes && docker.volumes[s] == old(docker).volumes[s]
    }

    // ---------------------------------------------------------------- store steps

    /** One transaction: insert an unconfirmed row, or check the existing one and bind its principal. Nothing is
        written for another principal's scope or under another backend kind. */
    method Reserve(principal: Option<Principal>, sameKind: bool) returns (isNew: bool, e: Ending)
      requires Valid() && !died
      modifies this`plan, this`did, this`clean, this`died, this`last, this`rows
      ensures Valid() && isNew == !old(rows).scope
      ensures var refused := (principal.Some? && principal.value != identity) || (!isNew && !sameKind);
              if refused then e == Threw && rows == old(rows) && did == old(did) && clean == old(clean) && !died
              else && did == old(did) + [InsertRow] && e == EndOf(last) && Stepped()
                   && rows == if !Took(last) then old(rows)
                              else if isNew then Rows(true, true, false, false, principal)
                              else Bound(old(rows), principal)
    {
      isNew := !rows.scope;
      if principal.Some? && principal.value != identity { return isNew, Threw; }
      if !isNew && !sameKind { return isNew, Threw; }
      var s := Next(InsertRow);
      e := EndOf(s);
      if Took(s) { rows := if isNew then Rows(true, true, false, false, principal) else Bound(rows, principal); }
    }

    method RecordImage() returns (e: Ending)
      requires Valid() && rows.scope && !died
      modifies this`plan, this`did, this`clean, this`died, this`last, this`rows
      ensures Valid() && did == old(did) + [RecordId] && e == EndOf(last) && Stepped()
      ensures rows == if Took(last) then old(rows).(image := true) else old(rows)
    {
      var s := Next(RecordId);
      e := EndOf(s);
      if Took(s) { rows := rows.(image := true); }
    }

    method ConfirmReservation() returns (e: Ending)
      requires Valid() && rows.scope && Empty(docker, Looked(fixedImages)) && !died
      modifies this`plan, this`did, this`clean, this`died, this`last, this`rows
      ensures Valid() && did == old(did) + [Confirm] && e == EndOf(last) && Stepped()
      ensures rows == if Took(last) then old(rows).(pending := false) else old(rows)
    {
      var s := Next(Confirm);
      e := EndOf(s);
      if Took(s) { rows := rows.(pending := false); }
    }

    method MarkComplete() returns (e: Ending)
      requires Valid() && rows.scope && !died
      modifies this`plan, this`did, this`clean, this`died, this`last, this`rows
      ensures Valid() && did == old(did) + [Complete] && e == EndOf(last) && Stepped()
      ensures rows == if Took(last) then old(rows).(complete := true) else old(rows)
    {
      var s := Next(Complete);
      e := EndOf(s);
      if Took(s) { rows := rows.(complete := true); }
    }

    /** Only when nothing of ours is left. */
    method Forget(ghost task: Task) returns (e: Ending)
      requires Valid() && Resources(docker, Looked(fixedImages)) * ours == {} && !died
      modifies this`plan, this`did, this`clean, this`died, this`last, this`rows
      ensures Valid() && did == old(did) + [task] && e == EndOf(last) && Stepped()
      ensures rows == if Took(last) then NO_ROWS else old(rows)
    {
      var s := Next(task);
      e := EndOf(s);
      if Took(s) { rows := NO_ROWS; }
    }

    // ---------------------------------------------------------------- Docker steps

    /** A volume is only ever created under a confirmed row of a scope that this call found empty. */
    method CreateVolume(s: Suffix) returns (e: Ending)
      requires Valid() && rows.scope && !rows.pending && s !in docker.volumes && s in Suffixes(fixedImages) && !died
      modifies this`plan, this`did, this`clean, this`died, this`last, this`docker, this`ours, this`next
      ensures Valid() && did == old(did) + [NewVolume(s)] && e == EndOf(last) && Stepped()
      ensures docker == if Took(last) then old(docker).(volumes := old(docker).volumes[s := old(next)]) else old(docker)
    {
      var step := Next(NewVolume(s));
      e := EndOf(step);
      if Took(step) {
        docker := docker.(volumes := docker.volumes[s := next]);
        ours := ours + {next};
        next := next + 1;
      }
    }

    method CreateNetwork() returns (e: Ending)
      requires Valid() && rows.scope && !rows.pending && docker.network.None? && !died
      modifies this`plan, this`did, this`clean, this`died, this`last, this`docker, this`ours, this`next
      ensures Valid() && did == old(did) + [NewNetwork] && e == EndOf(last) && Stepped()
      ensures docker == if Took(last) then old(docker).(network := Some(old(next))) else old(docker)
    {
      var step := Next(NewNetwork);
      e := EndOf(step);
      if Took(step) {
        docker := docker.(network := Some(next));
        ours := ours + {next};
        next := next + 1;
      }
    }

    /** Created stopped, with all its volumes and its network. */
    method CreateContainer() returns (e: Ending)
      requires Valid() && rows.scope && !rows.pending && docker.container.None? && docker.network.Some? && !died
      requires forall s :: s in Suffixes(fixedImages) ==> s in docker.volumes
      modifies this`plan, this`did, this`clean, this`died, this`last, this`docker, this`ours, this`next
      ensures Valid() && did == old(did) + [NewContainer] && e == EndOf(last) && Stepped()
      ensures docker == if Took(last) then old(docker).(container := Some(old(next)), running := false) else old(docker)
    {
      var step := Next(NewContainer);
      e := EndOf(step);
      if Took(step) {
        docker := docker.(container := Some(next), running := false);
        ours := ours + {next};
        next := next + 1;
      }
    }

    method SetRunning(ghost task: Task, on: bool) returns (e: Ending)
      requires Valid() && (on ==> docker.container.Some?) && !died
      modifies this`plan, this`did, this`clean, this`died, this`last, this`docker
      ensures Valid() && did == old(did) + [task] && e == EndOf(last) && Stepped()
      ensures docker == if Took(last) then old(docker).(running := on) else old(docker)
    {
      var step := Next(task);
      e := EndOf(step);
      if Took(step) { docker := docker.(running := on); }
    }

    /** A step that reads, or changes nothing that is modelled: it may fail. */
    method Read(ghost task: Task) returns (e: Ending)
      requires !died
      modifies this`plan, this`did, this`clean, this`died, this`last
      ensures did == old(did) + [task] && e == EndOf(last) && Stepped()
    {
      var s := Next(task);
      e := EndOf(s);
    }

    // ---------------------------------------------------------------- acquire

    /** Look for every resource before the first mutation; on any failure take the reservation back. If that
        fails too, or the process dies, the row stays unconfirmed. */
    method Preflight() returns (e: Ending)
      requires Valid() && rows.scope && rows.pending && clean && !died
      modifies this`plan, this`did, this`clean, this`died, this`last, this`rows
      ensures Valid() && (e == Finished <==> Empty(docker, Looked(fixedImages)) && clean) && e != Acquired
      ensures e == Finished ==>
                && rows == old(rows).(pending := false, image := old(rows).image || fixedImages)
                && did == old(did) + [LookAround] + (if fixedImages then [RecordId] else []) + [Confirm]
      ensures e == Died <==> died
      // A failure that is not the process's end tries to take the row back, and the row is gone exactly if that took.
      ensures e == Threw ==> did != [] && did[|did|-1] == TakeBack && (rows == NO_ROWS || !Took(last))
      ensures !Empty(docker, Looked(fixedImages)) ==> rows.pending || rows == NO_ROWS
      ensures rows == NO_ROWS
              || (rows.scope && rows.principal == old(rows).principal && rows.complete == old(rows).complete)
      ensures e == Threw && Took(last) ==> rows == NO_ROWS
      ensures Attach in did ==> Attach in old(did)
    {
      hide ScopeOk;
      e := Read(LookAround);
      if e == Died { return; }
      if e == Finished && !Empty(docker, Looked(fixedImages)) { e := Threw; }
      if e == Finished && fixedImages {
        e := RecordImage();
        if e == Died { return; }
      }
      if e == Finished {
        e := ConfirmReservation();
        if e == Died { return; }
      }
      if e != Finished {
        NoneOfOurs();
        var f := Forget(TakeBack);
        return if f == Died then Died else Threw;
      }
    }

    lemma NoneOfOurs()
      requires Valid() && (rows.pending || Empty(docker, Looked(fixedImages)))
      ensures Resources(docker, Looked(fixedImages)) * ours == {}
    {
      if Empty(docker, Looked(fixedImages)) { assert Resources(docker, Looked(fixedImages)) == {}; }
    }

    /** All of the scope's volumes exist. */
    predicate VolumesExist()
      reads this`docker
    {
      forall s :: s in Suffixes(fixedImages) ==> s in docker.volumes
    }

    /** One volume: found, created for a scope this call reserved, or refused. */
    method EnsureVolume(s: Suffix, isNew: bool) returns (e: Ending)
      requires Valid() && rows.scope && !rows.pending && clean && !died && s in Suffixes(fixedImages)
      modifies this`plan, this`did, this`clean, this`died, this`last, this`docker, this`ours, this`next
      ensures Valid() && (e == Died <==> died) && e != Acquired
      ensures docker == old(docker) || (isNew && s !in old(docker).volumes
                                        && docker == old(docker).(volumes := old(docker).volumes[s := old(next)]))
      ensures e == Finished <==> clean && (isNew || s in docker.volumes)
      ensures e == Finished ==> s in docker.volumes
      ensures e == Finished ==>
                did == old(did) + if s in old(docker).volumes then [LookFor(s)] else [LookFor(s), NewVolume(s)]
    {
      hide ScopeOk;
      e := Read(LookFor(s));
      if e != Finished { return; }
      if s !in docker.volumes {
        if !isNew { return Threw; }
        e := CreateVolume(s);
      }
    }

    /** The missing volumes: created for a scope this call reserved, refused for any other. */
    method EnsureVolumes(isNew: bool) returns (e: Ending)
      requires Valid() && rows.scope && !rows.pending && clean && !died
      modifies this`plan, this`did, this`clean, this`died, this`last, this`docker, this`ours, this`next
      ensures Valid() && KeptResources() && (e == Died <==> died) && e != Acquired
      ensures docker.(volumes := old(docker).volumes) == old(docker)
      ensures !isNew ==> docker == old(docker)
      ensures e == Finished <==> clean && (isNew || VolumesExist())
      ensures e == Finished ==> VolumesExist()
      ensures e == Finished && (isNew ==> forall s :: s in Suffixes(fixedImages) ==> s !in old(docker).volumes) ==>
                did == old(did) + VolumeSteps(Suffixes(fixedImages), isNew)
    {
      hide ScopeOk;
      var todo := Suffixes(fixedImages);
      ghost var none := forall s :: s in todo ==> s !in docker.volumes;
      for i := 0 to |todo|
        invariant Valid() && KeptResources() && clean && !died && docker.(volumes := old(docker).volumes) == old(docker)
        invariant !isNew ==> docker == old(docker)
        invariant forall k :: 0 <= k < i ==> todo[k] in docker.volumes
        invariant none ==> forall k :: i <= k < |todo| ==> todo[k] !in docker.volumes
        invariant (isNew ==> none) ==> did == old(did) + VolumeSteps(todo[..i], isNew)
      {
        assert todo[..i+1][..i] == todo[..i];
        e := EnsureVolume(todo[i], isNew);
        if e != Finished { return; }
      }
      assert todo[..|todo|] == todo;
      e := Finished;
    }

    /** The rest of an acquisition without a container: volumes, completeness, network, container. */
    method BuildContainer(isNew: bool) returns (e: Ending)
      requires Valid() && rows.scope && !rows.pending && docker.container.None? && clean && !died
      modifies this`plan, this`did, this`clean, this`died, this`last, this`docker, this`ours, this`next
      ensures Valid() && KeptResources() && (e == Died <==> died) && e != Acquired
      ensures !isNew ==> docker.volumes == old(docker).volumes
      ensures docker.container.Some? ==> VolumesExist() && (!isNew ==> rows.complete) && !docker.running
      ensures docker.container.None? ==> docker.running == old(docker).running
      ensures e == Finished <==> clean && (isNew || (old(VolumesExist()) && rows.complete))
      ensures e == Finished ==> docker.container.Some? && docker.network.Some? && VolumesExist()
      ensures e == Finished && (isNew ==> forall s :: s in Suffixes(fixedImages) ==> s !in old(docker).volumes) ==>
                did == old(did) + VolumeSteps(Suffixes(fixedImages), isNew)
                       + (if old(docker).network.None? then [NewNetwork] else []) + [NewContainer]
    {
      hide ScopeOk;
      e := EnsureVolumes(isNew);
      if e != Finished { return; }
      if !isNew && !rows.complete { return Threw; }
      if docker.network.None? {
        e := CreateNetwork();
        if e != Finished { return; }
      }
      e := CreateContainer();
    }

    /** A scope that an acquisition may go on with: a new one over nothing, or a confirmed one of the same kind with all
        its volumes, and complete unless its container still exists. */
    ghost predicate Acquirable(sameKind: bool)
      reads this`rows, this`docker
    {
      if !rows.scope then Empty(docker, Looked(fixedImages))
      else sameKind && !rows.pending && VolumesExist() && (docker.container.None? ==> rows.complete)
    }

    /** One acquisition, on any state, cut off or failing at any step. `validated` is what validation says of the
        container before it is started, `stillValid` after that. */
    method AcquireContainer(preparing: bool, principal: Principal, sameKind: bool, validated: bool, stillValid: bool,
                            steps: seq<Step>)
      returns (e: Ending)
      requires Valid()
      modifies this`plan, this`did, this`clean, this`died, this`last, this`rows, this`docker, this`ours, this`next
      ensures Valid() && KeptResources()
      // It succeeds exactly when the scope can be acquired, its container is valid and every step works.
      ensures e == Acquired <==> !preparing && principal == identity && old(Acquirable(sameKind))
                                 && validated && stillValid && clean
      ensures e == Acquired ==>
                && rows.scope && !rows.pending && rows.complete && rows.principal == Some(identity)
                && docker.container.Some? && docker.running && VolumesExist()
                && Resources(docker, Looked(fixedImages)) <= ours
                && did == Acquisition(fixedImages, !old(rows).scope, old(docker))
      // While the environment is being prepared, and for another principal's scope, nothing is done.
      ensures preparing || principal != identity ==>
              e == Threw && docker == old(docker) && rows == old(rows) && did == []
      // A volume is created only by the call that inserted the row and saw no resources.
      ensures docker.volumes != old(docker).volumes ==> !old(rows).scope && Empty(old(docker), Looked(fixedImages))
      // A retained scope gets a container only if it was complete and all its volumes exist.
      ensures docker.container != old(docker).container ==>
                (!old(rows).scope && Empty(old(docker), Looked(fixedImages)))
                || (old(rows).scope && old(rows).complete && !old(rows).pending && old(VolumesExist()))
      // A container that is not valid is never started, and one that does not stay valid never makes a scope complete.
      ensures !validated ==> docker.running == old(docker).running || !docker.running
      ensures !validated && old(docker).container.Some? ==> docker == old(docker) && Attach !in did
      ensures !validated || !stillValid ==> (rows.scope ==> rows.complete == (old(rows).scope && old(rows).complete))
      ensures docker.running && !old(docker).running ==> VolumesExist()
      // Orphans are never adopted: an unreserved or unconfirmed scope with resources is neither changed nor started.
      ensures !Empty(old(docker), Looked(fixedImages)) && (!old(rows).scope || old(rows).pending) ==>
                e != Acquired && docker == old(docker) && (rows.pending || !rows.scope)
      ensures old(rows).scope && old(rows).pending ==> docker == old(docker) && rows.pending
    {
      hide ScopeOk, Resources;
      Begin(steps);
      if preparing { return Threw; }
      var isNew;
      isNew, e := Admit(principal, sameKind);
      if e != Finished { return; }
      e := BringUp(isNew, validated, stillValid);
      ConfirmedIsOurs();
    }

    /** Reserve the scope and look at what is there. */
    method Admit(principal: Principal, sameKind: bool) returns (isNew: bool, e: Ending)
      requires Valid() && clean && !died && did == []
      modifies this`plan, this`did, this`clean, this`died, this`last, this`rows
      ensures Valid() && isNew == !old(rows).scope && e != Acquired
      ensures e == Finished <==> && principal == identity && clean
                                 && (if isNew then Empty(docker, Looked(fixedImages))
                                     else sameKind && !old(rows).pending)
      ensures principal != identity ==> rows == old(rows) && did == [] && e == Threw
      ensures e == Finished ==>
                && !died && rows.scope && !rows.pending && rows.principal == Some(identity)
                && did == [InsertRow]
                          + (if isNew then [LookAround] + (if fixedImages then [RecordId] else []) + [Confirm]
                             else [Inspect])
      ensures !Empty(docker, Looked(fixedImages)) && (!old(rows).scope || old(rows).pending) ==>
                rows.pending || !rows.scope
      ensures old(rows).scope && old(rows).pending ==> rows.pending
      ensures rows.scope ==> rows.complete == (old(rows).scope && old(rows).complete)
      ensures Attach !in did
    {
      hide ScopeOk, Resources;
      isNew, e := Reserve(Some(principal), sameKind);
      if e != Finished { return; }
      if !isNew && rows.pending { return isNew, Threw; }
      if isNew { e := Preflight(); } else { e := Read(Inspect); }
    }

    /** From a confirmed reservation on: the fixed image, the container, its validation and start, and the checks on the
        running container. An image is not attached for a container that is not valid. */
    method BringUp(isNew: bool, validated: bool, stillValid: bool) returns (e: Ending)
      requires Valid() && rows.scope && !rows.pending && clean && !died
      requires isNew ==> Empty(docker, Looked(fixedImages)) && !rows.complete
      modifies this`plan, this`did, this`clean, this`died, this`last, this`rows, this`docker, this`ours, this`next
      ensures Valid() && KeptResources() && e != Finished
      ensures e == Acquired <==> old(Buildable(isNew)) && validated && stillValid && clean
      ensures e == Acquired ==> docker.container.Some? && docker.running && VolumesExist()
      ensures e == Acquired ==>
                did == old(did) + (if fixedImages then [Attach] else []) + BuildSteps(fixedImages, isNew, old(docker))
      ensures rows == old(rows) || (validated && stillValid && rows == old(rows).(complete := true))
      ensures e == Acquired ==> rows == old(rows).(complete := true)
      ensures !isNew ==> docker.volumes == old(docker).volumes
      ensures docker.container != old(docker).container ==> isNew || (old(rows).complete && old(VolumesExist()))
      ensures !validated ==> docker.running == old(docker).running || !docker.running
      ensures !validated && old(docker).container.Some? ==> docker == old(docker) && did == old(did)
      ensures docker.running && !old(docker).running ==> VolumesExist()
    {
      hide ScopeOk, Resources, VolumesExist, BuildSteps;
      if fixedImages {
        if docker.container.Some? && !validated { return Threw; }
        // Attaching or creating the fixed image; its own crash safety is the storage catalog's.
        e := Read(Attach);
        if e != Finished { return; }
      }
      e := BuildAndStart(isNew, validated, stillValid);
    }

    /** A new scope, or one with all its volumes, and complete unless its container still exists. */
    ghost predicate Buildable(isNew: bool)
      reads this`rows, this`docker
    {
      isNew || (VolumesExist() && (docker.container.None? ==> rows.complete))
    }

    /** The container, if there is none, validated, over volumes that exist, and started. */
    method BuildAndStart(isNew: bool, validated: bool, stillValid: bool) returns (e: Ending)
      requires Valid() && rows.scope && !rows.pending && clean && !died
      requires isNew ==> Empty(docker, Looked(fixedImages)) && !rows.complete
      modifies this`plan, this`did, this`clean, this`died, this`last, this`rows, this`docker, this`ours, this`next
      ensures Valid() && KeptResources() && e != Finished
      ensures e == Acquired <==> old(Buildable(isNew)) && validated && stillValid && clean
      ensures e == Acquired ==> docker.container.Some? && docker.running && VolumesExist()
      ensures e == Acquired ==> did == old(did) + BuildSteps(fixedImages, isNew, old(docker))
      ensures rows == old(rows) || (validated && stillValid && rows == old(rows).(complete := true))
      ensures e == Acquired ==> rows == old(rows).(complete := true)
      ensures !isNew ==> docker.volumes == old(docker).volumes
      ensures docker.container != old(docker).container ==> isNew || (old(rows).complete && old(VolumesExist()))
      ensures !validated ==> docker.running == old(docker).running || !docker.running
      ensures !validated && old(docker).container.Some? ==> docker == old(docker) && did == old(did)
      ensures docker.running && !old(docker).running ==> VolumesExist()
    {
      hide ScopeOk, Resources, VolumeSteps;
      if docker.container.None? {
        e := BuildContainer(isNew);
        if e != Finished { return; }
      }
      if !validated { return Threw; }
      if exists s :: s in Suffixes(fixedImages) && s !in docker.volumes { return Threw; }
      e := StartAndCheck(stillValid);
    }

    /** Start a validated container, validate it again, install its firewall, check its storage, and only then mark the
        allocation complete. */
    method StartAndCheck(stillValid: bool) returns (e: Ending)
      requires Valid() && rows.scope && !rows.pending && docker.container.Some? && clean && !died
      modifies this`plan, this`did, this`clean, this`died, this`last, this`rows, this`docker
      ensures Valid() && docker.(running := old(docker).running) == old(docker)
              && (old(docker).running ==> docker.running)
      ensures e == Acquired <==> stillValid && clean
      ensures e == Acquired ==> docker.running
      ensures e != Finished
      ensures rows == old(rows) || (stillValid && rows == old(rows).(complete := true))
      ensures e == Acquired ==>
                && rows == old(rows).(complete := true)
                && did == old(did) + (if old(docker).running then [] else [Start])
                          + [Reinspect, Firewall, CheckStorage, Complete]
    {
      hide ScopeOk, Resources;
      if !docker.running {
        e := SetRunning(Start, true);
        if e != Finished { return; }
      }
      e := Read(Reinspect);
      if e != Finished { return; }
      if !stillValid { return Threw; }
      e := Read(Firewall);
      if e != Finished { return; }
      e := Read(CheckStorage);
      if e != Finished { return; }
      e := MarkComplete();
      if e == Finished { e := Acquired; }
    }

    lemma ConfirmedIsOurs()
      requires Valid()
      ensures rows.scope && !rows.pending ==> Resources(docker, Looked(fixedImages)) <= ours
    {}

    // ---------------------------------------------------------------- restart and removal

    /** What a restart does with the scope: an unconfirmed reservation is left alone, an unrecorded container
        stops the start, a retained container is validated, recorded as complete and stopped. */
    method Initialize(sameKind: bool, validated: bool, steps: seq<Step>) returns (e: Ending)
      requires Valid()
      modifies this`plan, this`did, this`clean, this`died, this`last, this`rows, this`docker
      ensures Valid() && docker.(running := false) == old(docker).(running := false)
              && (docker.running ==> old(docker).running)
      ensures rows.(complete := old(rows).complete) == old(rows)
      ensures e == Finished <==>
                if !old(rows).scope then old(docker).container.None?
                else sameKind && clean && (old(docker).container.Some? && !old(rows).pending ==> validated)
      ensures !old(rows).scope || old(rows).pending || old(docker).container.None? ==>
              docker == old(docker) && rows == old(rows)
      // A container of another kind, or one that is not valid, is neither stopped nor recorded.
      ensures old(rows).scope && (!sameKind || !validated) ==> docker == old(docker) && rows == old(rows)
      ensures e == Finished && rows.scope && !rows.pending && docker.container.Some? ==>
                && rows == old(rows).(complete := true) && !docker.running
                && did == [InsertRow, Inspect, Complete, StopRetained]
      ensures rows.complete && !old(rows).complete ==>
                docker.container.Some? && Resources(docker, Looked(fixedImages)) <= ours
    {
      hide ScopeOk, Resources;
      Begin(steps);
      if !rows.scope { return if docker.container.Some? then Threw else Finished; }
      var isNew;
      isNew, e := Reserve(None, sameKind);
      if e != Finished { return; }
      if rows.pending { return Finished; }
      e := Read(Inspect);
      if e != Finished || docker.container.None? { return; }
      if !validated { return Threw; }
      ConfirmedIsOurs();
      e := MarkComplete();
      if e != Finished { return; }
      e := SetRunning(StopRetained, false);
      ConfirmedIsOurs();
    }

    /** One Docker removal: the given state is reached, or not. */
    method Discard(ghost task: Task, smaller: Docker) returns (e: Ending)
      requires Valid() && !died
      requires smaller.container == docker.container || smaller.container.None?
      requires smaller.network == docker.network || smaller.network.None?
      requires forall s :: s in smaller.volumes ==> s in docker.volumes && smaller.volumes[s] == docker.volumes[s]
      modifies this`plan, this`did, this`clean, this`died, this`last, this`docker
      ensures Valid() && did == old(did) + [task] && e == EndOf(last) && Stepped()
      ensures docker == if Took(last) then smaller else old(docker)
    {
      FewerResources(docker, smaller, Looked(fixedImages));
      var step := Next(task);
      e := EndOf(step);
      if Took(step) { docker := smaller; }
    }

    /** Container, then network. */
    method Dismantle() returns (e: Ending)
      requires Valid() && clean && !died && !docker.running
      modifies this`plan, this`did, this`clean, this`died, this`last, this`docker
      ensures Valid() && (e == Died <==> died) && (e == Finished <==> clean) && e != Acquired
      ensures docker.volumes == old(docker).volumes && !docker.running
      ensures e == Finished ==> docker == old(docker).(container := None, network := None)
      ensures docker.network != old(docker).network ==> docker.container.None?
      ensures docker.container == old(docker).container || docker.container.None?
      ensures e == Finished ==> did == old(did) + (if old(docker).container.Some? then [RemoveContainer] else [])
                                       + (if old(docker).network.Some? then [RemoveNetwork] else [])
    {
      hide ScopeOk;
      if docker.container.Some? {
        e := Discard(RemoveContainer, docker.(container := None, running := false));
        if e != Finished { return; }
      }
      if docker.network.Some? {
        e := Discard(RemoveNetwork, docker.(network := None));
        if e != Finished { return; }
      }
      e := Finished;
    }

    /** The volumes of the scope, one by one. */
    method DeleteVolumes() returns (e: Ending)
      requires Valid() && clean && !died
      modifies this`plan, this`did, this`clean, this`died, this`last, this`docker
      ensures Valid() && (e == Died <==> died) && (e == Finished <==> clean) && e != Acquired
      ensures docker.(volumes := old(docker).volumes) == old(docker)
      ensures e == Finished ==> docker.volumes == old(docker).volumes - (set s | s in Suffixes(fixedImages))
      ensures DeleteImage in did <==> DeleteImage in old(did)
    {
      hide ScopeOk;
      var todo := Suffixes(fixedImages);
      for i := 0 to |todo|
        invariant Valid() && clean && !died && docker.(volumes := old(docker).volumes) == old(docker)
        invariant docker.volumes == old(docker).volumes - (set s | s in todo[..i])
        invariant DeleteImage in did <==> DeleteImage in old(did)
      {
        assert todo[..i+1] == todo[..i] + [todo[i]];
        if todo[i] in docker.volumes {
          e := Discard(RemoveVolume(todo[i]), docker.(volumes := docker.volumes - {todo[i]}));
          if e != Finished { return; }
        }
      }
      assert todo[..|todo|] == todo;
      e := Finished;
    }

    /** An unconfirmed reservation is forgotten only when there is nothing to adopt or delete. */
    method ForgetUnconfirmed() returns (e: Ending)
      requires Valid() && clean && !died
      modifies this`plan, this`did, this`clean, this`died, this`last, this`rows
      ensures Valid() && (e == Finished <==> Empty(docker, Looked(fixedImages)) && clean) && e != Acquired
      ensures rows == old(rows) || (rows == NO_ROWS && Empty(docker, Looked(fixedImages)))
      ensures e == Finished ==> rows == NO_ROWS && Resources(docker, Looked(fixedImages)) * ours == {}
    {
      hide ScopeOk, Resources;
      e := Read(LookAround);
      if e != Finished { return; }
      if !Empty(docker, Looked(fixedImages)) { return Threw; }
      NoneOfOurs();
      e := Forget(ForgetRow);
    }

    lemma NothingOfOursLeft()
      requires Valid() && docker.container.None? && docker.network.None?
      requires forall s :: s in Suffixes(fixedImages) ==> s !in docker.volumes
      ensures Resources(docker, Looked(fixedImages)) * ours == {}
    {}

    /** An unconfirmed reservation for which no image was recorded: no helper can have started. */
    predicate Unstarted()
      reads this`rows
    {
      fixedImages && !rows.image && rows.pending
    }

    /** A scope that can be removed: stopped, and either unstarted, with nothing there and its data to be deleted, or
        valid, with volumes that nobody else mounts and with a row for a container that is to be made again. */
    ghost predicate Removable(deleteData: bool, validated: bool, mountedElsewhere: bool)
      reads this`rows, this`docker
    {
      && !docker.running
      && if Unstarted() then deleteData && Empty(docker, Looked(fixedImages))
         else && validated && (docker.container.Some? && !deleteData ==> rows.scope)
              && !(mountedElsewhere && exists s :: s in Suffixes(fixedImages) && s in docker.volumes)
    }

    /** Offline removal. The row goes last, after everything the code created. */
    method Remove(deleteData: bool, validated: bool, mountedElsewhere: bool, steps: seq<Step>) returns (e: Ending)
      requires Valid()
      modifies this`plan, this`did, this`clean, this`died, this`last, this`rows, this`docker
      ensures Valid() && e != Acquired
      ensures e == Finished <==> old(Removable(deleteData, validated, mountedElsewhere)) && clean
      // What cannot be removed is left as it is.
      ensures !old(Removable(deleteData, validated, mountedElsewhere)) ==> docker == old(docker) && rows == old(rows)
      ensures rows.scope == old(rows).scope || (rows == NO_ROWS && deleteData)
      ensures !deleteData ==>
              docker.volumes == old(docker).volumes && rows.(complete := old(rows).complete) == old(rows)
      ensures e == Finished && deleteData ==> rows == NO_ROWS && Resources(docker, Looked(fixedImages)) * ours == {}
      ensures e == Finished ==> docker.container.None? && docker.network.None?
      ensures e == Finished && deleteData && !old(Unstarted()) ==>
                && docker.volumes == old(docker).volumes - (set s | s in Suffixes(fixedImages))
                && (DeleteImage in did <==> fixedImages)
      ensures e == Finished && !deleteData && old(docker).container.Some? ==> rows.complete
      ensures !deleteData && docker.container != old(docker).container ==> rows.complete
    {
      hide ScopeOk, Resources;
      Begin(steps);
      if docker.running { return Threw; }
      if fixedImages && !rows.image && rows.pending {
        if !deleteData { return Threw; }
        e := ForgetUnconfirmed();
        return;
      }
      e := Read(Inspect);
      if e != Finished { return; }
      if !validated { return Threw; }
      if mountedElsewhere && exists s :: s in Suffixes(fixedImages) && s in docker.volumes { return Threw; }
      if docker.container.Some? && !deleteData && !rows.scope { return Threw; }
      e := TakeDown(deleteData);
    }

    /** A container that is to be made again proves a complete allocation; then everything goes, or all but the data. */
    method TakeDown(deleteData: bool) returns (e: Ending)
      requires Valid() && clean && !died && !docker.running && DeleteImage !in did
      requires docker.container.Some? && !deleteData ==> rows.scope
      modifies this`plan, this`did, this`clean, this`died, this`last, this`rows, this`docker
      ensures Valid() && e != Acquired && (e == Finished <==> clean)
      ensures rows.(complete := old(rows).complete) == old(rows) || (rows == NO_ROWS && deleteData)
      ensures !deleteData ==>
              docker.volumes == old(docker).volumes && rows.(complete := old(rows).complete) == old(rows)
      ensures e == Finished ==> docker.container.None? && docker.network.None?
      ensures e == Finished && deleteData ==>
                && rows == NO_ROWS && Resources(docker, Looked(fixedImages)) * ours == {}
                && docker.volumes == old(docker).volumes - (set s | s in Suffixes(fixedImages))
                && (DeleteImage in did <==> fixedImages)
      ensures !deleteData && docker.container != old(docker).container ==> rows.complete
      ensures e == Finished && !deleteData && old(docker).container.Some? ==> rows.complete
    {
      hide ScopeOk, Resources;
      if docker.container.Some? && !deleteData {
        e := MarkComplete();
        if e != Finished { return; }
      }
      e := Dismantle();
      if e != Finished || !deleteData { return; }
      e := DeleteData();
    }

    /** The volumes, the fixed image, and at last the rows. */
    method DeleteData() returns (e: Ending)
      requires Valid() && clean && !died && docker.container.None? && docker.network.None?
      modifies this`plan, this`did, this`clean, this`died, this`last, this`rows, this`docker
      ensures Valid() && (e == Finished <==> clean) && e != Acquired
      ensures docker.(volumes := old(docker).volumes) == old(docker)
      ensures rows == old(rows) || rows == NO_ROWS
      ensures e == Finished ==>
                && rows == NO_ROWS && Resources(docker, Looked(fixedImages)) * ours == {}
                && docker.volumes == old(docker).volumes - (set s | s in Suffixes(fixedImages))
                && (DeleteImage in did <==> fixedImages || DeleteImage in old(did))
    {
      hide ScopeOk, Resources;
      e := DeleteVolumes();
      if e != Finished { return; }
      if fixedImages {
        e := Read(DeleteImage);
        if e != Finished { return; }
      }
      NothingOfOursLeft();
      e := Forget(ForgetRow);
    }

    /** Resources may be lost between calls; the rows do not notice. */
    method Lose(smaller: Docker)
      requires Valid()
      requires smaller.container == docker.container || smaller.container.None?
      requires smaller.network == docker.network || smaller.network.None?
      requires forall s :: s in smaller.volumes ==> s in docker.volumes && smaller.volumes[s] == docker.volumes[s]
      modifies this`docker
      ensures Valid() && docker == smaller
    {
      FewerResources(docker, smaller, Looked(fixedImages));
      docker := smaller;
    }
  }
}
