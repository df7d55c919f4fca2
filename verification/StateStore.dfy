/** Opening the caller runtime's state: the move from JSON records to SQLite, which may be cut off at any
    step, and the records that come and go afterwards. */
module StateStore {
  import opened Faults
  import opened Options

  type Id = string
  datatype Record = Record(kind: string, principal: Option<string>, valid: bool)

  /** `json` marks a migration under way. */
  datatype Manifest = Manifest(version: nat, json: bool)
  /** `user_version` is 0 until the import commits, in one transaction with the imported rows. */
  datatype Database = Database(userVersion: nat, scopes: map<Id, Record>)

  datatype Opening = Opened | CutOff | InvalidRecord | Rejected

  /** The steps of a call that change what is on disk. */
  datatype Task = Mark | CreateFile | ImportRows | AddTables | Unmark | Insert | DeleteRows | DeleteBackup

  /** At least `n` steps, all of which work. */
  predicate Smooth(plan: seq<Step>, n: nat) {
    |plan| >= n && forall i :: 0 <= i < |plan| ==> plan[i] == Works
  }

  predicate AllValid(records: map<Id, Record>) {
    forall id :: id in records ==> records[id].valid
  }

  /** JSON clients wrote versions below 4; a marked migration was cut off. */
  predicate Migrating(manifest: Option<Manifest>) {
    manifest.None? || manifest.value.version < 4 || manifest.value.json
  }

  predicate Imported(db: Option<Database>) {
    db.Some? && db.value.userVersion == 4
  }

  /** What no sequence of openings leaves behind: state without a manifest, a manifest of an unknown version, a
      database that is missing or that a JSON client cannot have had. */
  ghost predicate Inconsistent(manifest: Option<Manifest>, db: Option<Database>, json: map<Id, Record>) {
    match manifest
    case None => db.Some? || json != map[]
    case Some(m) =>
      if m.version == 2 || m.version == 3 then db.Some?
      else !(4 <= m.version <= 8) || (!m.json && db.None?)
  }

  /** A database that is imported, or empty while its import is still due. */
  ghost predicate SchemaKnown(manifest: Option<Manifest>, db: Option<Database>) {
    db.Some? && db.value.userVersion != 4 ==> db.value.userVersion == 0 && Migrating(manifest)
  }

  /** The records that opening ends up with: those imported before, or the JSON client's. */
  function Source(db: Option<Database>, json: map<Id, Record>): map<Id, Record> {
    if Imported(db) then db.value.scopes else json
  }

  function Upgraded(manifest: Option<Manifest>): nat {
    if manifest.Some? && manifest.value.version > 4 then manifest.value.version else 4
  }

  /** Every state that opening can leave behind, from an empty directory or from the records `legacy` of a JSON
      client: untouched, marked, with an empty database, imported, or done. */
  ghost predicate Recoverable(manifest: Option<Manifest>, db: Option<Database>, json: map<Id, Record>,
                              legacy: map<Id, Record>)
  {
    && (manifest.None? ==> db.None? && json == map[])
    && (manifest.Some? ==> 2 <= manifest.value.version <= 8)
    && (manifest.Some? && manifest.value.version < 4 ==> db.None? && !manifest.value.json)
    && (manifest.Some? && manifest.value.version >= 4 && !manifest.value.json ==> db.Some? && db.value.userVersion == 4)
    && (db.Some? ==> db.value.userVersion == 0 || db.value.userVersion == 4)
    && (db.Some? ==> AllValid(db.value.scopes))
    && (db.Some? && db.value.userVersion == 0 ==> db.value.scopes == map[])
    && (db.None? || db.value.userVersion == 0 ==> json == legacy)
    && (db.Some? && db.value.userVersion == 4 && manifest.value.json ==> db.value.scopes == legacy)
  }

  class CallerRuntimeStore {
    var manifest: Option<Manifest>
    var database: Option<Database>
    var json: map<Id, Record>
    /** How the steps of the current call will end; a call that runs out of them is cut off. */
    var plan: seq<Step>
    /** The steps the current call took, whether all of them worked, and how many calls there were. */
    ghost var did: seq<Task>
    ghost var clean: bool
    ghost var calls: nat
    /** The JSON client's records, as they were found. */
    ghost const legacy: map<Id, Record>

    ghost predicate Valid()
      reads this`manifest, this`database, this`json
    {
      Recoverable(manifest, database, json, legacy)
    }

    /** A new directory. */
    constructor Fresh()
      ensures Valid() && manifest == None && database == None && json == map[] && legacy == map[]
    {
      manifest, database, json, plan, legacy := None, None, map[], [], map[];
      did, clean, calls := [], true, 0;
    }

    /** A directory left by a JSON client. */
    constructor Legacy(version: nat, records: map<Id, Record>)
      requires version == 2 || version == 3
      ensures Valid() && manifest == Some(Manifest(version, false)) && database == None && legacy == json == records
    {
      manifest, database, json, plan, legacy := Some(Manifest(version, false)), None, records, [], records;
      did, clean, calls := [], true, 0;
    }

    method Begin(steps: seq<Step>)
      modifies this`plan, this`did, this`clean, this`calls
      ensures plan == steps && did == [] && clean && calls == old(calls) + 1
    {
      plan, did, clean, calls := steps, [], true, calls + 1;
    }

    method Next(task: Task) returns (s: Step)
      modifies this`plan, this`did, this`clean
      ensures s == Ends(old(plan)) && plan == Rest(old(plan))
      ensures did == old(did) + [task] && clean == (old(clean) && s == Works)
    {
      did, clean := did + [task], clean && Ends(plan) == Works;
      if plan == [] { return FailsBefore; }
      s := plan[0];
      plan := plan[1..];
    }

    /** A temporary file renamed over the manifest. */
    method WriteManifest(task: Task, m: Manifest) returns (ok: bool)
      requires clean
      modifies this`plan, this`did, this`clean, this`manifest
      ensures ok == clean == (Ends(old(plan)) == Works) && plan == Rest(old(plan)) && did == old(did) + [task]
      ensures manifest == if Ends(old(plan)) == FailsBefore then old(manifest) else Some(m)
    {
      var s := Next(task);
      if s != FailsBefore { manifest := Some(m); }
      ok := s == Works;
    }

    method CreateDatabase() returns (ok: bool)
      requires database.None? && clean
      modifies this`plan, this`did, this`clean, this`database
      ensures ok == clean == (Ends(old(plan)) == Works) && plan == Rest(old(plan)) && did == old(did) + [CreateFile]
      ensures database == if Ends(old(plan)) == FailsBefore then None else Some(Database(0, map[]))
    {
      var s := Next(CreateFile);
      if s != FailsBefore { database := Some(Database(0, map[])); }
      ok := s == Works;
    }

    /** The import: every record is validated before anything is inserted, and the version commits with them. */
    method Import() returns (r: Opening)
      requires database.Some? && clean
      modifies this`plan, this`did, this`clean, this`database
      ensures r == if !AllValid(json) then InvalidRecord else if clean then Opened else CutOff
      ensures !AllValid(json) ==> plan == old(plan) && did == old(did) && clean && database == old(database)
      ensures AllValid(json) ==>
                && clean == (Ends(old(plan)) == Works) && plan == Rest(old(plan)) && did == old(did) + [ImportRows]
                && database == if Ends(old(plan)) == FailsBefore then old(database) else Some(Database(4, json))
    {
      var todo, records := json.Keys, map[];
      while todo != {}
        invariant todo <= json.Keys && records == json - todo && AllValid(records)
        decreases |todo|
      {
        var id :| id in todo;
        if !json[id].valid { return InvalidRecord; }
        records := records[id := json[id]];
        todo := todo - {id};
      }
      assert records == json;
      var s := Next(ImportRows);
      if s != FailsBefore { database := Some(Database(4, records)); }
      return if s == Works then Opened else CutOff;
    }

    /** `SELECT * FROM scopes`, each row validated again. */
    method RowsValid() returns (valid: bool)
      requires database.Some?
      ensures valid == AllValid(database.value.scopes)
    {
      var scopes := database.value.scopes;
      var todo := scopes.Keys;
      while todo != {}
        invariant todo <= scopes.Keys && forall id :: id in scopes && id !in todo ==> scopes[id].valid
        decreases |todo|
      {
        var id :| id in todo;
        if !scopes[id].valid { return false; }
        todo := todo - {id};
      }
      valid := true;
    }

    /** `openStorage`, on any directory. How it ends is decided by what is there, by its records, and by whether its
        steps work; what it leaves behind is something it can be repeated on. */
    method OpenStorage(steps: seq<Step>) returns (r: Opening)
      modifies this`plan, this`did, this`clean, this`calls, this`manifest, this`database
      ensures old(Valid()) ==> Valid() && r != Rejected
      ensures r == if old(Inconsistent(manifest, database, json)) then Rejected
                   else if !clean then CutOff
                   else if !old(SchemaKnown(manifest, database)) then Rejected
                   else if !AllValid(Source(old(database), json)) then InvalidRecord else Opened
      ensures old(Inconsistent(manifest, database, json)) ==> manifest == old(manifest) && database == old(database)
      // When it succeeds: the version is at least 4 and never lower than before, the mark is gone, and the records are
      // those imported before or, imported once, the JSON client's.
      ensures r == Opened ==>
                && manifest == Some(Manifest(Upgraded(old(manifest)), false))
                && database == Some(Database(4, Source(old(database), json)))
                && did == (if Migrating(old(manifest)) then [Mark] else [])
                          + (if old(database).None? then [CreateFile] else [])
                          + (if Imported(old(database)) then [] else [ImportRows]) + [AddTables]
                          + (if Migrating(old(manifest)) then [Unmark] else [])
      // Whatever happens: an imported database is never touched, records appear all at once and only when all of them
      // are valid, and the marker is on disk before the database is.
      ensures Imported(old(database)) ==> database == old(database)
      ensures database == old(database) || (old(database).None? && database == Some(Database(0, map[])))
              || (AllValid(json) && database == Some(Database(4, json)))
      ensures manifest == old(manifest) || manifest == Some(Manifest(Upgraded(old(manifest)), true))
              || (manifest == Some(Manifest(Upgraded(old(manifest)), false)) && Imported(database))
      ensures database != old(database) ==> manifest.Some? && manifest.value.version >= 4
      ensures Smooth(steps, 5) ==> clean
      ensures calls == old(calls) + 1
    {
      Begin(steps);
      var migrating := manifest.None? || manifest.value.version < 4 || manifest.value.json;
      if manifest.Some? && !(2 <= manifest.value.version <= 8) { return Rejected; }
      if (manifest.None? && (database.Some? || json != map[]))
         || (manifest.Some? && manifest.value.version >= 4 && !migrating && database.None?)
         || (manifest.Some? && manifest.value.version < 4 && database.Some?)
      {
        return Rejected;
      }
      var version := if manifest.Some? && manifest.value.version > 4 then manifest.value.version else 4;
      r := Upgrade(version, migrating);
    }

    /** From the marker to the final manifest. */
    method Upgrade(version: nat, migrating: bool) returns (r: Opening)
      requires clean
      modifies this`plan, this`did, this`clean, this`manifest, this`database
      ensures var before := old(database);
              (before.None? ==> migrating) ==>
              r == if !clean then CutOff
                   else if !(before.None? || before.value.userVersion == 4
                             || (migrating && before.value.userVersion == 0))
                   then Rejected
                   else if !AllValid(Source(before, json)) then InvalidRecord else Opened
      ensures r == Opened ==>
                && manifest == (if migrating then Some(Manifest(version, false)) else old(manifest))
                && database == Some(Database(4, Source(old(database), json)))
                && did == old(did) + (if migrating then [Mark] else [])
                          + (if old(database).None? then [CreateFile] else [])
                          + (if Imported(old(database)) then [] else [ImportRows]) + [AddTables]
                          + (if migrating then [Unmark] else [])
      ensures Imported(old(database)) ==> database == old(database)
      ensures database == old(database) || (old(database).None? && database == Some(Database(0, map[])))
              || (migrating && AllValid(json) && database == Some(Database(4, json)))
      ensures manifest == old(manifest) || (migrating && manifest == Some(Manifest(version, true)))
              || (migrating && manifest == Some(Manifest(version, false)) && Imported(database))
      ensures migrating && database != old(database) ==>
                manifest == Some(Manifest(version, true)) || manifest == Some(Manifest(version, false))
      ensures Smooth(old(plan), 5) ==> clean
    {
      if migrating {
        var ok := WriteManifest(Mark, Manifest(version, true));
        if !ok { return CutOff; }
      }
      if database.None? {
        var ok := CreateDatabase();
        if !ok { return CutOff; }
      }
      r := Fill(migrating);
      if r != Opened { return; }
      if migrating {
        var ok := WriteManifest(Unmark, Manifest(version, false));
        if !ok { return CutOff; }
      }
    }

    /** The database behind the manifest: the schema's version, the import, and the additive tables. */
    method Fill(migrating: bool) returns (r: Opening)
      requires database.Some? && clean
      modifies this`plan, this`did, this`clean, this`database
      ensures var known := old(database).value.userVersion == 4 || (migrating && old(database).value.userVersion == 0);
              r == if !clean then CutOff else if !known then Rejected
                   else if !AllValid(Source(old(database), json)) then InvalidRecord else Opened
      ensures r == Opened ==> database == Some(Database(4, Source(old(database), json)))
      ensures r == Opened ==>
                did == old(did) + (if Imported(old(database)) then [] else [ImportRows]) + [AddTables]
      ensures Smooth(old(plan), 2) ==> clean && Smooth(plan, |old(plan)| - 2)
      ensures Imported(old(database)) ==> database == old(database)
      ensures database == old(database)
              || (migrating && old(database).value.userVersion == 0 && AllValid(json)
                 && database == Some(Database(4, json)))
    {
      if database.value.userVersion != 4 && !(migrating && database.value.userVersion == 0) { return Rejected; }
      if database.value.userVersion == 0 {
        r := Import();
        if r != Opened { return; }
      }
      var valid := RowsValid();
      if !valid { return InvalidRecord; }
      // The additive tables: each statement commits by itself and is repeated harmlessly.
      var s := Next(AddTables);
      return if s == Works then Opened else CutOff;
    }

    ghost predicate IsOpen()
      reads this`manifest, this`database
    {
      manifest.Some? && !manifest.value.json && manifest.value.version >= 4 && database.Some?
        && database.value.userVersion == 4
    }

    /** A new row is validated before it is written; an existing one stays. */
    method Reserve(id: Id, r: Record, steps: seq<Step>) returns (ok: bool)
      requires Valid() && IsOpen()
      modifies this`plan, this`did, this`clean, this`calls, this`database
      ensures Valid() && IsOpen() && calls == old(calls) + 1
      ensures ok <==> r.valid && clean
      ensures database.value.scopes ==
              if !r.valid || id in old(database).value.scopes || Ends(steps) == FailsBefore
              then old(database).value.scopes
              else old(database).value.scopes[id := r]
      ensures did == if !r.valid || id in old(database).value.scopes then [] else [Insert]
    {
      Begin(steps);
      if !r.valid { return false; }
      if id in database.value.scopes { return true; }
      var s := Next(Insert);
      if s != FailsBefore { database := Some(database.value.(scopes := database.value.scopes[id := r])); }
      ok := s == Works;
    }

    /** `forget`, once no storage helper is recorded: the row goes first, in one transaction; then the leftover JSON
        backup, unless cut off. */
    method Forget(id: Id, helperRecorded: bool, steps: seq<Step>) returns (ok: bool)
      requires Valid() && IsOpen()
      modifies this`plan, this`did, this`clean, this`calls, this`database, this`json
      ensures Valid() && IsOpen() && calls == old(calls) + 1
      ensures ok <==> !helperRecorded && clean
      ensures ok ==> did == [DeleteRows, DeleteBackup]
      ensures ok ==> database.value.scopes == old(database).value.scopes - {id} && json == old(json) - {id}
      ensures helperRecorded ==> database == old(database) && json == old(json)
      ensures !helperRecorded ==>
                database.value.scopes == if Ends(steps) == FailsBefore then old(database).value.scopes
                                         else old(database).value.scopes - {id}
      // The backup goes only after the row.
      ensures json == old(json) || (json == old(json) - {id} && id !in database.value.scopes)
    {
      Begin(steps);
      if helperRecorded { return false; }
      var s := Next(DeleteRows);
      if s != FailsBefore { database := Some(database.value.(scopes := database.value.scopes - {id})); }
      if s != Works { return false; }
      s := Next(DeleteBackup);
      if s != FailsBefore { json := json - {id}; }
      ok := s == Works;
    }

    /** A forgotten scope stays forgotten, whatever happens to its JSON backup and however often the state is
        opened afterwards. */
    method ForgetThenReopen(id: Id, helperRecorded: bool, first: seq<Step>, openings: seq<seq<Step>>)
      requires Valid() && IsOpen()
      modifies this`plan, this`did, this`clean, this`calls, this`manifest, this`database, this`json
      ensures Valid() && calls == old(calls) + 1 + |openings|
      ensures database.Some? && database.value.scopes == if helperRecorded || Ends(first) == FailsBefore
                                                         then old(database).value.scopes
                                                         else old(database).value.scopes - {id}
    {
      var done := Forget(id, helperRecorded, first);
      label Forgotten:
      for i := 0 to |openings|
        invariant Valid() && database == old@Forgotten(database) && database.Some? && database.value.userVersion == 4
        invariant calls == old@Forgotten(calls) + i
      {
        var r := OpenStorage(openings[i]);
      }
    }

    /** Any number of interrupted openings, then one that runs to its end: it succeeds exactly when every legacy
        record is valid, and then holds each of them once and nothing else. */
    method OpenUntilDone(interrupted: seq<seq<Step>>) returns (r: Opening)
      requires Valid() && (database.None? || database.value.userVersion == 0 || manifest.value.json)
      modifies this`plan, this`did, this`clean, this`calls, this`manifest, this`database
      ensures Valid() && calls == old(calls) + |interrupted| + 1
      ensures r == if AllValid(legacy) then Opened else InvalidRecord
      ensures r == Opened ==> IsOpen() && database.value.scopes == legacy
    {
      for i := 0 to |interrupted|
        invariant Valid() && (Imported(database) ==> database.value.scopes == legacy) && calls == old(calls) + i
      {
        var cut := OpenStorage(interrupted[i]);
      }
      r := OpenWithoutFaults();
    }

    method OpenWithoutFaults() returns (r: Opening)
      requires Valid() && (Imported(database) ==> database.value.scopes == legacy)
      modifies this`plan, this`did, this`clean, this`calls, this`manifest, this`database
      ensures Valid() && calls == old(calls) + 1
      ensures r == if AllValid(legacy) then Opened else InvalidRecord
      ensures r == Opened ==> IsOpen() && database.value.scopes == legacy
    {
      var smooth := [Works, Works, Works, Works, Works];
      assert Smooth(smooth, 5);
      r := OpenStorage(smooth);
    }
  }
}
