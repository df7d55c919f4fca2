/** The pool's storage manager: a budgeted catalog of image files, in which any step may be the last one of a
    call. A step can also fail after it took effect; what is on disk is what the next call starts from. */
module StorageCatalog {
  import opened Faults
  import opened Options

  type Key = string
  type Uuid = string

  datatype Action = Create | Probe | Attach | Check | Delete
  datatype Request = Request(action: Action, key: Key, uuid: Uuid, size: nat, budget: nat, reserve: nat)
  datatype Policy = Policy(budget: nat, reserve: nat)
  datatype RowState = Allocating | Ready
  datatype Row = Row(uuid: Uuid, size: nat, state: RowState)
  /** What is in an image file: nothing yet, an interrupted format, or a file system. */
  datatype Format = Blank | Partial | Formatted(uuid: Uuid)
  datatype Image = Image(size: nat, onDisk: nat, format: Format)

  /** The steps of a call that change something or ask the machine. */
  datatype Task = Record | Charge | Open | Reserve | Format | Mount | Approve | Detach | Scrap | Erase | Present

  datatype Result = Failed | Done | Device(uuid: Uuid, bytes: nat)

  /** What the rest of the machine answers. */
  datatype Machine = Machine(symlink: bool, free: nat, blocks: nat, detached: bool, probeReadsBack: bool,
                             aliasSettles: bool)

  const MIB := 1048576

  predicate ValidRequest(r: Request) {
    64 * MIB <= r.size <= 65536 * MIB && r.budget >= r.size
  }

  // ---------------------------------------------------------------- the sum of recorded sizes

  ghost function Used(rows: map<Key, Row>): nat {
    if rows == map[] then 0 else var k :| k in rows; rows[k].size + Used(rows - {k})
  }

  lemma {:induction false} UsedWithout(rows: map<Key, Row>, k: Key)
    requires k in rows
    ensures Used(rows) == rows[k].size + Used(rows - {k})
    decreases |rows|
  {
    assert rows != map[];
    var x :| x in rows && Used(rows) == rows[x].size + Used(rows - {x});
    if x != k {
      UsedWithout(rows - {x}, k);
      UsedWithout(rows - {k}, x);
      assert rows - {x} - {k} == rows - {k} - {x};
    }
  }

  lemma UsedWith(rows: map<Key, Row>, k: Key, r: Row)
    requires k !in rows
    ensures Used(rows[k := r]) == Used(rows) + r.size
  {
    UsedWithout(rows[k := r], k);
    assert rows[k := r] - {k} == rows;
  }

  lemma UsedSameSize(rows: map<Key, Row>, k: Key, r: Row)
    requires k in rows && r.size == rows[k].size
    ensures Used(rows[k := r]) == Used(rows)
  {
    UsedWithout(rows[k := r], k);
    UsedWithout(rows, k);
    assert rows[k := r] - {k} == rows - {k};
  }

  // ---------------------------------------------------------------- what every call keeps

  ghost predicate CatalogOk(policy: Option<Policy>, rows: map<Key, Row>) {
    && (rows != map[] ==> policy.Some? && Used(rows) <= policy.value.budget)
    && (forall k, l :: k in rows && l in rows && k != l ==> rows[k].uuid != rows[l].uuid)
  }

  /** Every image of a finished allocation is whole: calls keep it so, somebody else may resize or format one. */
  ghost predicate Intact(rows: map<Key, Row>, images: map<Key, Image>) {
    forall k :: k in images && k in rows && rows[k].state == Ready ==> Attachable(rows[k], images[k])
  }

  /** No image file without a row: calls never leave one, somebody else may. */
  ghost predicate Recorded(rows: map<Key, Row>, images: map<Key, Image>) {
    images.Keys <= rows.Keys
  }

  /** A fully allocated file holding the file system its row names. */
  predicate Attachable(r: Row, i: Image) {
    i.size == r.size && i.onDisk >= r.size && i.format == Formatted(r.uuid)
  }

  /** A file whose last step was cut off: allocated as far as that step was to take it, and never formatted. */
  function Interrupted(i: Image): (j: Image)
    ensures !j.format.Formatted? && (j.format == Partial <==> i.format != Blank)
    ensures j.size == i.size && j.onDisk == i.onDisk
  {
    i.(format := if i.format == Blank then Blank else Partial)
  }

  class StorageManager {
    var policy: Option<Policy>
    var rows: map<Key, Row>
    var images: map<Key, Image>
    /** How the steps of the current call will end; a call that runs out of them is cut off. */
    var plan: seq<Step>
    /** The files the current call created exclusively, the steps it took, and whether all of them worked. */
    ghost var created: set<Key>
    ghost var did: seq<Task>
    ghost var clean: bool

    ghost predicate Valid()
      reads this`policy, this`rows
    {
      CatalogOk(policy, rows)
    }

    constructor ()
      ensures Valid() && policy == None && rows == map[] && images == map[]
    {
      policy, rows, images, plan, created, did, clean := None, map[], map[], [], {}, [], true;
    }

    method Next(task: Task) returns (s: Step)
      modifies this`plan, this`did, this`clean
      ensures s == Ends(old(plan)) && plan == Rest(old(plan))
      ensures did == old(did) + [task] && clean == (old(clean) && s == Works)
    {
      did, clean := did + [task], clean && Ends(plan) == Works;
      if plan == [] { return FailsBefore; }
      s := plan[0];
      plan := plan[1..];
    }

    // ---------------------------------------------------------------- single steps

    method SetPolicy(p: Policy) returns (ok: bool)
      requires Valid() && clean && policy.None?
      modifies this`plan, this`did, this`clean, this`policy
      ensures Valid() && did == old(did) + [Record] && clean == (Ends(old(plan)) == Works) && ok == clean
      ensures policy == if Ends(old(plan)) == FailsBefore then old(policy) else Some(p)
    {
      var s := Next(Record);
      if s != FailsBefore { policy := Some(p); }
      ok := s == Works;
    }

    /** `uuid TEXT UNIQUE` */
    predicate Taken(uuid: Uuid)
      reads this`rows
    {
      exists k :: k in rows && rows[k].uuid == uuid
    }

    /** The charge against the budget, committed before anything is allocated. */
    method ChargeIntent(key: Key, uuid: Uuid, size: nat) returns (ok: bool)
      requires clean && Valid() && key !in rows && key !in images && policy.Some?
               && Used(rows) + size <= policy.value.budget
      modifies this`plan, this`did, this`clean, this`rows
      ensures Valid() && did == old(did) + [Charge] && clean == (Ends(old(plan)) == Works)
              && ok == (clean && !old(Taken(uuid)))
      ensures rows == if old(Taken(uuid)) || Ends(old(plan)) == FailsBefore then old(rows)
                      else old(rows)[key := Row(uuid, size, Allocating)]
    {
      var s := Next(Charge);
      if Taken(uuid) || s == FailsBefore { return false; }
      UsedWith(rows, key, Row(uuid, size, Allocating));
      rows := rows[key := Row(uuid, size, Allocating)];
      ok := s == Works;
    }

    /** `open` with the exclusive flag. */
    method CreateImage(key: Key) returns (ok: bool)
      requires clean && Valid() && key in rows && rows[key].state == Allocating
      modifies this`plan, this`did, this`clean, this`images, this`created
      ensures Valid() && did == old(did) + [Open] && clean == (Ends(old(plan)) == Works)
              && ok == (clean && key !in old(images))
      ensures images == if key in old(images) || Ends(old(plan)) == FailsBefore then old(images)
                        else old(images)[key := Image(0, 0, Blank)]
      ensures created == if key in old(images) || Ends(old(plan)) == FailsBefore then old(created)
                         else old(created) + {key}
    {
      var s := Next(Open);
      if key in images || s == FailsBefore { return false; }
      images := images[key := Image(0, 0, Blank)];
      created := created + {key};
      ok := s == Works;
    }

    /** `fallocate`, then `mkfs`: only ever on a file this call created. An interrupted format is not one. */
    method Fill(task: Task, key: Key, image: Image) returns (ok: bool)
      requires clean && Valid() && key in rows && rows[key].state == Allocating && key in images && key in created
      modifies this`plan, this`did, this`clean, this`images
      ensures Valid() && did == old(did) + [task] && clean == (Ends(old(plan)) == Works) && ok == clean
      ensures match Ends(old(plan))
              case Works => images == old(images)[key := image]
              case FailsBefore => images == old(images)
              case FailsAfter => images == old(images)[key := Interrupted(image)]
    {
      var s := Next(task);
      if s == Works { images := images[key := image]; }
      else if s == FailsAfter {
        images := images[key := Interrupted(image)];
      }
      ok := s == Works;
    }

    method MarkReady(key: Key) returns (ok: bool)
      requires clean && Valid() && key in rows && key in images && Attachable(rows[key], images[key])
      modifies this`plan, this`did, this`clean, this`rows
      ensures Valid() && did == old(did) + [Approve] && clean == (Ends(old(plan)) == Works) && ok == clean
      ensures rows == if Ends(old(plan)) == FailsBefore then old(rows)
                      else old(rows)[key := old(rows)[key].(state := Ready)]
    {
      var s := Next(Approve);
      if s != FailsBefore {
        UsedSameSize(rows, key, rows[key].(state := Ready));
        rows := rows[key := rows[key].(state := Ready)];
      }
      ok := s == Works;
    }

    method Unlink(key: Key) returns (ok: bool)
      requires clean && Valid()
      modifies this`plan, this`did, this`clean, this`images
      ensures Valid() && did == old(did) + [Scrap] && clean == (Ends(old(plan)) == Works) && ok == clean
      ensures images == if Ends(old(plan)) == FailsBefore then old(images) else old(images) - {key}
    {
      var s := Next(Scrap);
      if s != FailsBefore { images := images - {key}; }
      ok := s == Works;
    }

    method DeleteRow(key: Key) returns (ok: bool)
      requires clean && Valid() && key in rows && key !in images
      modifies this`plan, this`did, this`clean, this`rows
      ensures Valid() && did == old(did) + [Erase] && clean == (Ends(old(plan)) == Works) && ok == clean
      ensures rows == if Ends(old(plan)) == FailsBefore then old(rows) else old(rows) - {key}
    {
      var s := Next(Erase);
      if s != FailsBefore {
        UsedWithout(rows, key);
        rows := rows - {key};
      }
      ok := s == Works;
    }

    // ---------------------------------------------------------------- a call

    /** The free budget, the free space above the reserve and the identity that a new image needs. */
    ghost predicate Admissible(r: Request, m: Machine)
      reads this`rows, this`images
    {
      && r.key !in images && Used(rows) + r.size <= r.budget && m.free >= r.size + r.reserve
      && forall k :: k in rows ==> rows[k].uuid != r.uuid
    }

    /** A probe also reads a file back. */
    predicate Proven(r: Request, m: Machine) {
      r.action != Probe || m.probeReadsBack
    }

    /** The request's own image, whole and recorded. */
    predicate Whole(r: Request)
      reads this`rows, this`images
    {
      && r.key in rows && rows[r.key] == Row(r.uuid, r.size, Ready) && r.key in images
      && images[r.key].size == r.size && images[r.key].onDisk >= r.size && images[r.key].format == Formatted(r.uuid)
    }

    /** Intent, exclusive file, space, file system, verification, in this order. */
    method Allocate(r: Request, m: Machine) returns (ok: bool)
      requires Valid() && ValidRequest(r) && policy == Some(Policy(r.budget, r.reserve)) && r.key !in rows
               && created == {} && clean
      modifies this`plan, this`did, this`clean, this`rows, this`images, this`created
      ensures Valid()
      ensures rows - {r.key} == old(rows) && images - {r.key} == old(images) - {r.key}
      ensures old(rows).Keys <= rows.Keys && old(images).Keys <= images.Keys
      ensures images.Keys - old(images).Keys <= rows.Keys
      ensures r.key in rows ==> rows[r.key].uuid == r.uuid && rows[r.key].size == r.size
      // Nothing is charged beyond the budget, into the reserve, or under another's identity.
      ensures !old(Admissible(r, m)) ==> rows == old(rows) && images == old(images)
      // Ready only with a whole image; an image that is not whole stays unready for good.
      ensures r.key in rows && rows[r.key].state == Ready ==> Whole(r) && Proven(r, m)
      ensures ok <==> old(Admissible(r, m)) && clean && Proven(r, m) && m.blocks >= r.size
      ensures ok ==> Whole(r) && did == old(did) + [Charge, Open, Reserve, Format, Mount, Approve]
    {
      hide CatalogOk, Attachable;
      if r.key in images { return false; }
      var total := SumSizes();
      if total + r.size > r.budget { return false; }
      if m.free < r.size + r.reserve { return false; }
      ok := ChargeIntent(r.key, r.uuid, r.size);
      if !ok { return; }
      ok := BuildImage(r, m);
    }

    /** Everything after the charge. */
    method BuildImage(r: Request, m: Machine) returns (ok: bool)
      requires Valid() && r.key in rows && rows[r.key] == Row(r.uuid, r.size, Allocating) && r.key !in images && clean
      modifies this`plan, this`did, this`clean, this`rows, this`images, this`created
      ensures Valid() && rows - {r.key} == old(rows) - {r.key} && images - {r.key} == old(images)
      ensures r.key in rows && rows[r.key] == Row(r.uuid, r.size, rows[r.key].state)
      ensures rows[r.key].state == Ready ==> Whole(r) && Proven(r, m)
      ensures ok <==> clean && Proven(r, m) && m.blocks >= r.size
      ensures ok ==> Whole(r) && did == old(did) + [Open, Reserve, Format, Mount, Approve]
    {
      hide CatalogOk;
      ok := CreateImage(r.key);
      if !ok { return; }
      ok := Fill(Reserve, r.key, Image(r.size, m.blocks, Blank));
      if !ok { return; }
      ok := Fill(Format, r.key, Image(r.size, m.blocks, Formatted(r.uuid)));
      if !ok { return; }
      // Mounting, creating the directories and, for a probe, reading a file back.
      var s := Next(Mount);
      if s != Works || (r.action == Probe && !m.probeReadsBack) { return false; }
      if images[r.key].onDisk < r.size { return false; }
      ok := MarkReady(r.key);
    }

    /** `SELECT sum(size)` */
    method SumSizes() returns (n: nat)
      ensures n == Used(rows)
    {
      n := 0;
      var rest := rows;
      while rest != map[]
        invariant n + Used(rest) == Used(rows)
        decreases |rest|
      {
        var k :| k in rest;
        UsedWithout(rest, k);
        n := n + rest[k].size;
        rest := rest - {k};
      }
    }

    /** Detach, then remove the file, then the row. */
    method Remove(r: Request, m: Machine) returns (ok: bool)
      requires Valid() && r.key in rows && clean
      modifies this`plan, this`did, this`clean, this`rows, this`images
      ensures Valid()
      ensures rows - {r.key} == old(rows) - {r.key} && images - {r.key} == old(images) - {r.key}
      ensures r.key in rows ==> rows[r.key] == old(rows)[r.key]
      ensures r.key in images ==> r.key in old(images) && images[r.key] == old(images)[r.key] && r.key in rows
      ensures images.Keys <= old(images).Keys && old(rows).Keys - {r.key} <= rows.Keys
      ensures ok ==> r.key !in rows && r.key !in images
      ensures ok <==> clean && (r.key in old(images) ==> m.detached)
      ensures ok ==> did == old(did) + if r.key in old(images) then [Detach, Scrap, Erase] else [Erase]
      ensures !m.detached && r.key in old(images) ==> rows == old(rows) && images == old(images)
    {
      if r.key in images {
        var s := Next(Detach);
        if s != Works || !m.detached { return false; }
        ok := Unlink(r.key);
        if !ok { return; }
      }
      ok := DeleteRow(r.key);
    }

    lemma NoPolicyNoRows()
      requires Valid()
      ensures policy.None? ==> rows == map[]
    {}

    /** The pool's policy is the request's, or there is none yet. */
    predicate Agrees(r: Request)
      reads this`policy
    {
      policy.None? || policy.value == Policy(r.budget, r.reserve)
    }

    /** A device can be handed out: the retained image is whole and is this one, or a new one may be made. */
    ghost predicate Attaches(r: Request, m: Machine)
      reads this`rows, this`images
    {
      if r.key in rows then (r.action.Create? || r.action.Probe? || r.action.Attach?) && Whole(r)
      else (r.action.Create? || r.action.Probe?) && Admissible(r, m) && Proven(r, m) && m.blocks >= r.size
    }

    /** One call of the manager, on any catalog, for any request and any way its steps may end. */
    method RunStorageManager(r: Request, m: Machine, steps: seq<Step>) returns (result: Result)
      requires Valid()
      modifies this
      ensures Valid()
      // Arguments out of range and a link in the image's place are refused.
      ensures !(67108864 <= r.size <= 68719476736 && r.size <= r.budget) || m.symlink ==>
                result == Failed && policy == old(policy) && rows == old(rows) && images == old(images)
      // The pool's policy is set once; a call that disagrees changes nothing.
      ensures old(policy).Some? ==> policy == old(policy)
      ensures policy == old(policy) || policy == Some(Policy(r.budget, r.reserve))
      ensures !old(Agrees(r)) ==> rows == old(rows) && images == old(images)
      // Other scopes are not touched.
      ensures rows - {r.key} == old(rows) - {r.key} && images - {r.key} == old(images) - {r.key}
      // An existing image is never formatted or resized, a recorded row never changes: both can only be deleted, and
      // only by their own identity and capacity.
      ensures r.key in old(images) && r.key in images ==> images[r.key] == old(images)[r.key]
      ensures r.key in old(rows) && r.key in rows ==> rows[r.key] == old(rows)[r.key]
      ensures r.key in old(rows) && r.key in images ==> r.key in old(images)
      ensures old(Recorded(rows, images)) ==> Recorded(rows, images)
      ensures old(Intact(rows, images)) ==> Intact(rows, images)
      ensures r.action != Delete ==> old(rows).Keys <= rows.Keys && old(images).Keys <= images.Keys
      ensures r.key in old(rows) && (r.key !in rows || (r.key in old(images) && r.key !in images)) ==>
                r.action == Delete && old(rows)[r.key].uuid == r.uuid && old(rows)[r.key].size == r.size
                  && old(Agrees(r))
      // Nothing is charged beyond the budget, into the reserve, or under another's identity.
      ensures r.key in rows && r.key !in old(rows) ==> (r.action.Create? || r.action.Probe?) && old(Admissible(r, m))
      // A device is handed out exactly when the request is in order and every step works, and only for a finished
      // allocation of exactly this identity and capacity.
      ensures result.Device? <==>
                && 67108864 <= r.size <= 68719476736 && r.size <= r.budget && !m.symlink && m.aliasSettles
                && old(Agrees(r)) && old(Attaches(r, m)) && clean
      ensures result.Device? ==> result == Device(r.uuid, r.size) && Whole(r)
      ensures result.Device? ==>
                did == (if old(policy).None? then [Record] else [])
                       + (if r.key in old(rows) then []
                          else [Charge, Open, Reserve, Format, Mount, Approve]) + [Present]
      // A check succeeds exactly on a whole image of this identity, a deletion exactly when nothing is left.
      ensures r.action == Check ==> (result == Done <==>
                && 67108864 <= r.size <= 68719476736 && r.size <= r.budget && !m.symlink
                && old(Agrees(r)) && old(Whole(r)))
      ensures r.action == Delete ==> (result == Done <==>
                && 67108864 <= r.size <= 68719476736 && r.size <= r.budget && !m.symlink
                && (if r.key !in old(rows) then r.key !in old(images) else
                    (&& old(Agrees(r)) && old(rows)[r.key].uuid == r.uuid && old(rows)[r.key].size == r.size
                        && (r.key in old(images) ==> m.detached) && clean)))
      ensures result == Done && r.action == Delete && r.key in old(rows) ==>
                did == if r.key in old(images) then [Detach, Scrap, Erase] else [Erase]
      ensures result == Done ==> r.action.Check? || r.action.Delete?
      ensures result == Done && r.action == Delete ==> r.key !in rows && r.key !in images
    {
      NoPolicyNoRows();
      hide CatalogOk, Used, Intact, Whole, Admissible, Proven, Recorded;
      plan, created, did, clean := steps, {}, [], true;
      if !ValidRequest(r) { return Failed; }
      if m.symlink { return Failed; }
      if r.action == Delete && r.key !in rows {
        if r.key in images { return Failed; }
        return Done;
      }
      var ok := AgreePolicy(r);
      result := Failed;
      if ok { result := Perform(r, m); }
    }

    lemma StaysIntact(r: Request, was: map<Key, Row>, had: map<Key, Image>)
      requires Intact(was, had) && rows - {r.key} == was - {r.key} && images - {r.key} == had - {r.key}
      requires r.key in was && r.key in rows ==> rows[r.key] == was[r.key]
      requires r.key in was && r.key in images ==> r.key in had && images[r.key] == had[r.key]
      requires r.key in rows && r.key !in was && rows[r.key].state == Ready ==> Whole(r)
      ensures Intact(rows, images)
    {
      forall k | k in images && k in rows && rows[k].state == Ready ensures Attachable(rows[k], images[k]) {
        if k != r.key {
          assert k in rows - {r.key} && k in images - {r.key};
          assert rows[k] == was[k] && images[k] == had[k];
        }
      }
    }

    /** A call under the pool's own policy. */
    method Perform(r: Request, m: Machine) returns (result: Result)
      requires Valid() && ValidRequest(r) && policy == Some(Policy(r.budget, r.reserve)) && created == {} && clean
      requires r.action == Delete ==> r.key in rows
      modifies this`plan, this`did, this`clean, this`rows, this`images, this`created
      ensures Valid() && rows - {r.key} == old(rows) - {r.key} && images - {r.key} == old(images) - {r.key}
      ensures r.key in old(images) && r.key in images ==> images[r.key] == old(images)[r.key]
      ensures r.key in old(rows) && r.key in rows ==> rows[r.key] == old(rows)[r.key]
      ensures r.key in old(rows) && r.key in images ==> r.key in old(images)
      ensures old(Recorded(rows, images)) ==> Recorded(rows, images)
      ensures old(Intact(rows, images)) ==> Intact(rows, images)
      ensures r.action != Delete ==> old(rows).Keys <= rows.Keys && old(images).Keys <= images.Keys
      ensures r.key in old(rows) && (r.key !in rows || (r.key in old(images) && r.key !in images)) ==>
                r.action == Delete && old(rows)[r.key].uuid == r.uuid && old(rows)[r.key].size == r.size
      ensures r.key in rows && r.key !in old(rows) ==> (r.action.Create? || r.action.Probe?) && old(Admissible(r, m))
      ensures (r.action.Create? || r.action.Probe? || r.action.Attach?) ==>
                result == if old(Attaches(r, m)) && m.aliasSettles && clean then Device(r.uuid, r.size) else Failed
      ensures result.Device? ==> Whole(r)
      ensures result.Device? ==>
                did == old(did)
                       + (if r.key in old(rows) then []
                          else [Charge, Open, Reserve, Format, Mount, Approve]) + [Present]
      ensures r.action == Check ==> result == (if old(Whole(r)) then Done else Failed) && clean && did == old(did)
      ensures r.action == Delete ==>
                (result == Done <==>
                  && old(rows)[r.key].uuid == r.uuid && old(rows)[r.key].size == r.size
                  && (r.key in old(images) ==> m.detached) && clean)
                && !result.Device?
      ensures r.action == Delete && result == Done ==>
                && did == old(did) + (if r.key in old(images) then [Detach, Scrap, Erase] else [Erase])
                && r.key !in rows && r.key !in images
    {
      hide CatalogOk, Used, Intact;
      if r.key in rows {
        if rows[r.key].uuid != r.uuid || rows[r.key].size != r.size { return Failed; }
      } else if r.action == Create || r.action == Probe {
        var ok := Allocate(r, m);
        if old(Intact(rows, images)) { StaysIntact(r, old(rows), old(images)); }
        if !ok { return Failed; }
      } else {
        return Failed;
      }
      if r.action == Delete {
        var ok := Remove(r, m);
        if old(Intact(rows, images)) { StaysIntact(r, old(rows), old(images)); }
        return if ok then Done else Failed;
      }
      result := Serve(r, m);
    }

    /** Record the pool's policy, or compare the request's with it. */
    method AgreePolicy(r: Request) returns (ok: bool)
      requires Valid() && clean
      modifies this`plan, this`did, this`clean, this`policy
      ensures Valid() && ok == (old(Agrees(r)) && clean) && (!old(Agrees(r)) ==> policy == old(policy))
      ensures ok ==> policy == Some(Policy(r.budget, r.reserve))
      ensures old(policy).Some? ==> policy == old(policy) && clean
      ensures policy == old(policy) || policy == Some(Policy(r.budget, r.reserve))
      ensures did == old(did) + if old(policy).None? then [Record] else []
    {
      if policy.None? {
        ok := SetPolicy(Policy(r.budget, r.reserve));
      } else {
        ok := policy.value == Policy(r.budget, r.reserve);
      }
    }

    /** Check the recorded image, and hand its device out unless only the check was asked for. */
    method Serve(r: Request, m: Machine) returns (result: Result)
      requires Valid() && r.key in rows && rows[r.key].uuid == r.uuid && rows[r.key].size == r.size && clean
      modifies this`plan, this`did, this`clean
      ensures r.action == Check ==> result == (if Whole(r) then Done else Failed) && did == old(did) && clean
      ensures r.action != Check ==>
                result == if Whole(r) && clean && m.aliasSettles then Device(r.uuid, r.size) else Failed
      ensures r.action != Check && Whole(r) ==> did == old(did) + [Present]
    {
      if rows[r.key].state != Ready || r.key !in images { return Failed; }
      if images[r.key].size != r.size || images[r.key].onDisk < r.size || images[r.key].format != Formatted(r.uuid) {
        return Failed;
      }
      if r.action == Check { return Done; }
      var s := Next(Present);
      if s != Works || !m.aliasSettles { return Failed; }
      return Device(r.uuid, r.size);
    }
  }
}
