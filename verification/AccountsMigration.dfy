/** The startup migration and the rollback as they run, write by write, over the persisted phase
    file, config, stores and lane homes.  Each write is one step of the step system. */
module AccountsMigration {
  import opened Knowledge
  import opened MigrationModel
  import opened RowIds
  import opened MigrationRuns
  import opened MigrationConvergence
  import opened MigrationStartup

  predicate WritesOnly(ops: seq<Op>) {
    forall i :: 0 <= i < |ops| ==> ops[i].DoWrite?
  }

  /** `t` comes out of `s` by persistent writes alone: no crash, no interruption. */
  ghost predicate Leads(s: State, t: State) {
    exists ops :: WritesOnly(ops) && t == Run(s, ops)
  }

  lemma LeadsOn(s: State, t: State, u: State)
    requires Leads(s, t) && Leads(t, u)
    ensures Leads(s, u)
  {
    var a :| WritesOnly(a) && t == Run(s, a);
    var b :| WritesOnly(b) && u == Run(t, b);
    RunConcat(s, a, b);
    assert WritesOnly(a + b);
  }

  lemma LeadsNowhere(s: State)
    ensures Leads(s, s)
  {
    assert Run(s, []) == s && WritesOnly([]);
  }

  lemma LeadsByOne(s: State, t: State, which: Unit)
    requires Leads(s, t)
    ensures Leads(s, Step(t, DoWrite(which)))
  {
    var ops := [DoWrite(which)];
    assert ops[1..] == [];
    assert Run(t, ops) == Run(Step(t, ops[0]), ops[1..]);
    assert WritesOnly(ops);
    LeadsOn(s, t, Step(t, DoWrite(which)));
  }

  // ---------------------------------------------------------------- the store mutations

  method MigratedSessions(sessions: map<SessionKey, Option<Id>>, h: Id, row: Id, p: Id) returns (moved: map<SessionKey, Option<Id>>)
    ensures forall k :: At(moved, k) == SessionMoved(sessions, k, h, row, p)
  {
    moved := sessions;
    var todo := sessions.Keys;
    while todo != {}
      invariant todo <= sessions.Keys
      invariant forall k :: At(moved, k) == if k in todo then At(sessions, k) else SessionMoved(sessions, k, h, row, p)
      decreases |todo|
    {
      var k :| k in todo;
      if k.harness == h && k.partition == p && sessions[k] == None { moved := moved[k := Some(row)]; }
      todo := todo - {k};
    }
  }

  method RolledBackSessions(sessions: map<SessionKey, Option<Id>>, h: Id, row: Id, p: Id) returns (rolled: map<SessionKey, Option<Id>>)
    ensures forall k :: At(rolled, k) == SessionReturned(sessions, k, h, row, p)
  {
    rolled := sessions;
    var todo := sessions.Keys;
    while todo != {}
      invariant todo <= sessions.Keys
      invariant forall k :: At(rolled, k) == if k in todo then At(sessions, k) else SessionReturned(sessions, k, h, row, p)
      decreases |todo|
    {
      var k :| k in todo;
      if k.harness == h && k.partition == p && sessions[k] == Some(row) { rolled := rolled[k := None]; }
      todo := todo - {k};
    }
  }

  /** Every default lane of the partition gains a row lane, or moves the one it has forward. */
  method MigratedLanes(lanes: map<LaneKey, Checkpoint>, h: Id, row: Id, p: Id, now: nat) returns (migrated: map<LaneKey, Checkpoint>)
    ensures forall k :: At(migrated, k) == LaneMoved(lanes, k, h, row, p, now)
  {
    migrated := lanes;
    var todo := lanes.Keys;
    while todo != {}
      invariant todo <= lanes.Keys
      invariant forall k :: At(migrated, k) == if k.(profile := None) in todo then At(lanes, k) else LaneMoved(lanes, k, h, row, p, now)
      decreases |todo|
    {
      var k :| k in todo;
      if Within(k, h, p, None) {
        var target := k.(profile := Some(row));
        if target !in lanes || (lanes[target].turn != lanes[k].turn && lanes[target].at < lanes[k].at) {
          migrated := migrated[target := Checkpoint(lanes[k].turn, now)];
        }
      }
      todo := todo - {k};
    }
  }

  /** Every row lane of the partition re-seeds its default lane. */
  method RolledBackLanes(lanes: map<LaneKey, Checkpoint>, h: Id, row: Id, p: Id, now: nat) returns (rolled: map<LaneKey, Checkpoint>)
    ensures forall k :: At(rolled, k) == LaneReturned(lanes, k, h, row, p, now)
  {
    rolled := lanes;
    var todo := lanes.Keys;
    while todo != {}
      invariant todo <= lanes.Keys
      invariant forall k :: At(rolled, k) == if k.(profile := Some(row)) in todo then At(lanes, k) else LaneReturned(lanes, k, h, row, p, now)
      decreases |todo|
    {
      var k :| k in todo;
      if Within(k, h, p, Some(row)) { rolled := rolled[k.(profile := None) := Checkpoint(lanes[k].turn, now)]; }
      todo := todo - {k};
    }
  }

  /** The forward transaction of one partition. */
  method MigratedStores(sessions: map<SessionKey, Option<Id>>, lanes: map<LaneKey, Checkpoint>, ghost homes: map<HomeKey, Id>,
                        h: Id, row: Id, p: Id, now: nat)
    returns (moved: map<SessionKey, Option<Id>>, migrated: map<LaneKey, Checkpoint>)
    ensures Continuity(moved, migrated, homes) == MovePartition(Continuity(sessions, lanes, homes), h, row, p, now)
  {
    moved := MigratedSessions(sessions, h, row, p);
    migrated := MigratedLanes(lanes, h, row, p, now);
    ghost var c := MovePartition(Continuity(sessions, lanes, homes), h, row, p, now);
    SameMaps(moved, c.sessions);
    SameMaps(migrated, c.lanes);
  }

  /** The reverse transaction of one partition. */
  method RolledBackStores(sessions: map<SessionKey, Option<Id>>, lanes: map<LaneKey, Checkpoint>, ghost homes: map<HomeKey, Id>,
                          h: Id, row: Id, p: Id, now: nat)
    returns (rolled: map<SessionKey, Option<Id>>, reseeded: map<LaneKey, Checkpoint>)
    ensures Continuity(rolled, reseeded, homes) == ReturnPartition(Continuity(sessions, lanes, homes), h, row, p, now)
  {
    rolled := RolledBackSessions(sessions, h, row, p);
    reseeded := RolledBackLanes(lanes, h, row, p, now);
    ghost var c := ReturnPartition(Continuity(sessions, lanes, homes), h, row, p, now);
    SameMaps(rolled, c.sessions);
    SameMaps(reseeded, c.lanes);
  }

  class AccountsMigration {
    var records: map<Id, Record>
    var registry: seq<Row>
    var native: map<Id, bool>
    var sessions: map<SessionKey, Option<Id>>
    var lanes: map<LaneKey, Checkpoint>
    var homes: map<HomeKey, Id>
    var quota: set<Subject>
    var clock: nat
    /** The logins detectable in the default stores. */
    var logins: map<Id, Login>

    /** Where the step system stands. */
    ghost var run: State

    constructor (w: World, found: map<Id, Login>, now: nat)
      ensures Valid() && run.process == Idle && run.w == w && logins == found
    {
      records, registry, native := w.records, w.accounts.registry, w.accounts.native;
      sessions, lanes, homes := w.continuity.sessions, w.continuity.lanes, w.continuity.homes;
      quota, clock, logins := w.quota, now, found;
      run := State(w, Idle, found, now, Twin(w.accounts, w.continuity));
    }

    ghost function Value(): World
      reads this
    {
      World(records, Accounts(registry, native), Continuity(sessions, lanes, homes), quota)
    }

    ghost predicate Valid()
      reads this
    {
      run.w == Value() && run.clock == clock && run.logins == logins
    }

    /** A pass is at `h`, with this work left in the current phase of its record. */
    ghost predicate Working(h: Id, forward: bool, work: Option<set<Unit>>)
      reads this
    {
      && Valid() && run.process.Pass? && run.process.queue != [] && run.process.queue[0] == h
      && run.process.forward == forward && run.process.work == work
      && (work.Some? ==> h in records)
    }

    ghost method Log(which: Unit)
      modifies this`run
      ensures run == Step(old(run), DoWrite(which))
    {
      run := Step(run, DoWrite(which));
    }

    /** Phase registry_written's config write. */
    method RegisterMigratedRow(h: Id)
      requires Working(h, true, Some({Config}))
      modifies this
      ensures Working(h, true, Some({})) && run == Step(old(run), DoWrite(Config))
      ensures run.process.queue == old(run).process.queue
      ensures logins == old(logins)
    {
      var record := records[h];
      var login := if h in logins then Some(logins[h]) else None;
      var existing := false;
      for i := 0 to |registry|
        invariant existing <==> exists j :: 0 <= j < i && Adopted(registry[j], h, record)
      {
        if Adopted(registry[i], h, record) { existing := true; }
      }
      if !existing {
        var on := if h in native then native[h] else true;
        var name := if login.Some? && login.value.displayName.Some? then login.value.displayName.value else h + " default login";
        registry := registry + [Row(record.rowId, h, name, Some(record.locator), on)];
      }
      clock := clock + 1;
      assert {Config} - {Config} == {};
      Log(Config);
    }

    /** One partition's forward transaction. */
    method MigratePartition(h: Id, row: Id, p: Id, ghost work: set<Unit>)
      requires Working(h, true, Some(work)) && Sessions(p) in work && row == records[h].rowId
      modifies this
      ensures Working(h, true, Some(work - {Sessions(p)})) && run == Step(old(run), DoWrite(Sessions(p)))
      ensures run.process.queue == old(run).process.queue
      ensures logins == old(logins) && records == old(records) && quota == old(quota)
    {
      sessions, lanes := MigratedStores(sessions, lanes, homes, h, row, p, clock);
      clock := clock + 1;
      Log(Sessions(p));
    }

    method RollBackPartition(h: Id, row: Id, p: Id, ghost work: set<Unit>)
      requires Working(h, false, Some(work)) && Sessions(p) in work && row == records[h].rowId
      modifies this
      ensures Working(h, false, Some(work - {Sessions(p)})) && run == Step(old(run), DoWrite(Sessions(p)))
      ensures run.process.queue == old(run).process.queue
      ensures logins == old(logins) && records == old(records) && quota == old(quota)
    {
      sessions, lanes := RolledBackStores(sessions, lanes, homes, h, row, p, clock);
      clock := clock + 1;
      Log(Sessions(p));
    }

    /** Renames one lane home towards the row, or back. */
    method RenameHome(h: Id, row: Id, slot: Id, forward: bool, ghost work: set<Unit>)
      requires Working(h, forward, Some(work)) && Home(slot) in work && row == records[h].rowId
      modifies this
      ensures Working(h, forward, Some(work - {Home(slot)})) && run == Step(old(run), DoWrite(Home(slot)))
      ensures run.process.queue == old(run).process.queue
      ensures logins == old(logins) && records == old(records) && quota == old(quota)
    {
      var source, target := HomeKey(h, slot, None), HomeKey(h, slot, Some(row));
      if !forward { source, target := target, source; }
      if source in homes && target !in homes {
        homes := Omit(homes, source)[target := homes[source]];
      }
      clock := clock + 1;
      Log(Home(slot));
    }

    method RemoveQuotaSubject(h: Id, row: Id, forward: bool, ghost work: set<Unit>)
      requires Working(h, forward, Some(work)) && Quota in work && row == records[h].rowId
      modifies this
      ensures Working(h, forward, Some(work - {Quota})) && run == Step(old(run), DoWrite(Quota))
      ensures run.process.queue == old(run).process.queue
      ensures logins == old(logins) && records == old(records)
      ensures forall k :: k in quota <==> k in old(quota) && k != Subject(h, if forward then None else Some(row))
    {
      quota := quota - {Subject(h, if forward then None else Some(row))};
      clock := clock + 1;
      Log(Quota);
    }

    /** All writes of the phase are made: the record's next phase is persisted. */
    method WriteNextPhase(h: Id)
      requires Working(h, true, Some({}))
      requires !records[h].phase.Completed? && !records[h].phase.RollingBack?
      modifies this
      ensures Valid() && run == Step(old(run), DoWrite(Config)) && logins == old(logins)
      ensures records == old(records)[h := old(records)[h].(phase := NextPhase(old(records)[h].phase))]
      ensures !records[h].phase.Completed? ==>
                Working(h, true, Some(UnitsOf(Value().continuity, h, records[h].phase))) && run.process.queue == old(run).process.queue
      ensures records[h].phase.Completed? ==> run.process == Pass(true, old(run).process.queue[1..], None)
    {
      records := records[h := records[h].(phase := NextPhase(records[h].phase))];
      clock := clock + 1;
      Log(Config);
    }

    /** The stores' part of a phase: every partition, then every lane home. */
    method WriteStores(h: Id, row: Id, forward: bool, work: set<Unit>) returns (left: set<Unit>)
      requires Working(h, forward, Some(work)) && row == records[h].rowId
      modifies this
      ensures Working(h, forward, Some(left)) && Leads(old(run), run)
      ensures run.process.queue == old(run).process.queue
      ensures logins == old(logins) && records == old(records) && quota == old(quota)
      ensures left == set u | u in work && !u.Sessions? && !u.Home?
    {
      left := work;
      LeadsNowhere(run);
      while exists u :: u in left && (u.Sessions? || u.Home?)
        invariant Working(h, forward, Some(left)) && Leads(old(run), run)
        invariant run.process.queue == old(run).process.queue
        invariant logins == old(logins) && records == old(records) && quota == old(quota)
        invariant left <= work && forall u :: u in work && !u.Sessions? && !u.Home? ==> u in left
        decreases |left|
      {
        var u :| u in left && (u.Sessions? || u.Home?);
        LeadsByOne(old(run), run, u);
        if u.Home? {
          RenameHome(h, row, u.slot, forward, left);
        } else if forward {
          MigratePartition(h, row, u.partition, left);
        } else {
          RollBackPartition(h, row, u.partition, left);
        }
        left := left - {u};
      }
    }

    method FindSameLocator(h: Id, locator: string) returns (found: Option<MigrationModel.Row>)
      ensures found == FindLocator(registry, h, locator)
    {
      var i := 0;
      while i < |registry|
        invariant 0 <= i <= |registry|
        invariant FindLocator(registry, h, locator) == FindLocator(registry[i..], h, locator)
      {
        if registry[i].harness == h && registry[i].locator == Some(locator) { return Some(registry[i]); }
        assert registry[i..][1..] == registry[i + 1..];
        i := i + 1;
      }
      found := None;
    }

    /** Phase reserved: the id is persisted before any mutation. */
    method Reserve(h: Id)
      requires Working(h, true, None) && h !in records && h in logins
      modifies this
      ensures Working(h, true, Some({Config})) && run == Step(old(run), DoWrite(Config))
      ensures run.process.queue == old(run).process.queue
      ensures logins == old(logins) && records[h].phase.Reserved?
    {
      var detected := logins[h];
      var sameLocatorRow := FindSameLocator(h, detected.locator);
      var rowId;
      if sameLocatorRow.Some? { rowId := sameLocatorRow.value.id; } else { rowId := ReserveRowId(registry, h); }
      records := records[h := MigrationModel.Record(Reserved, rowId, detected.locator)];
      clock := clock + 1;
      Log(Config);
    }

    /** Looks at the record of the harness at hand: passes over it, clears it, resumes or reserves. */
    method Look(h: Id) returns (open: bool)
      requires Working(h, true, None)
      modifies this
      ensures Valid() && run == Step(old(run), DoWrite(Config)) && logins == old(logins)
      ensures if open then h in records && !records[h].phase.Completed? && !records[h].phase.RollingBack?
                           && Working(h, true, Some(UnitsOf(Value().continuity, h, records[h].phase)))
                           && run.process.queue == old(run).process.queue
              else run.process == Pass(true, old(run).process.queue[1..], None)
    {
      open := if h in records then !records[h].phase.Completed? && !records[h].phase.RollingBack? else h in logins;
      if h !in records && h in logins {
        Reserve(h);
        return;
      }
      if h in records && records[h].phase.Reserved? && h !in logins {
        open := false;
        records := Omit(records, h);
      }
      clock := clock + 1;
      Log(Config);
    }

    /** From `reserved`: the row is registered, then the phase moves on. */
    method FinishReserved(h: Id)
      requires Working(h, true, Some({Config})) && records[h].phase.Reserved?
      modifies this
      ensures Working(h, true, Some(UnitsOf(Value().continuity, h, RegistryWritten))) && records[h].phase.RegistryWritten?
      ensures logins == old(logins) && Leads(old(run), run) && run.process.queue == old(run).process.queue
    {
      LeadsNowhere(run);
      LeadsByOne(run, run, Config);
      RegisterMigratedRow(h);
      LeadsByOne(old(run), run, Config);
      WriteNextPhase(h);
    }

    /** From `registry_written`: the continuity moves as one unit, then the phase moves on. */
    method FinishRegistryWritten(h: Id)
      requires Working(h, true, Some(UnitsOf(Value().continuity, h, RegistryWritten))) && records[h].phase.RegistryWritten?
      modifies this
      ensures Working(h, true, Some({Quota})) && records[h].phase.ContinuityMigrated?
      ensures logins == old(logins) && Leads(old(run), run) && run.process.queue == old(run).process.queue
    {
      var left := WriteStores(h, records[h].rowId, true, UnitsOf(Continuity(sessions, lanes, homes), h, RegistryWritten));
      assert left == {};
      LeadsByOne(old(run), run, Config);
      WriteNextPhase(h);
    }

    /** From `continuity_migrated`: the null quota subject retires, then the record completes. */
    method FinishContinuityMigrated(h: Id)
      requires Working(h, true, Some({Quota})) && records[h].phase.ContinuityMigrated?
      modifies this
      ensures Valid() && run.process == Pass(true, old(run).process.queue[1..], None)
      ensures logins == old(logins) && Leads(old(run), run)
    {
      LeadsNowhere(run);
      LeadsByOne(run, run, Quota);
      RemoveQuotaSubject(h, records[h].rowId, true, {Quota});
      assert {Quota} - {Quota} == {};
      LeadsByOne(old(run), run, Config);
      WriteNextPhase(h);
    }

    method MigrateHarness(h: Id)
      requires Working(h, true, None)
      modifies this
      ensures Valid() && logins == old(logins) && Leads(old(run), run)
      ensures run.process == Pass(true, old(run).process.queue[1..], None)
    {
      LeadsNowhere(run);
      LeadsByOne(run, run, Config);
      var open := Look(h);
      if !open { return; }
      if records[h].phase.Reserved? {
        ghost var before := run;
        FinishReserved(h);
        LeadsOn(old(run), before, run);
      }
      if records[h].phase.RegistryWritten? {
        ghost var before := run;
        FinishRegistryWritten(h);
        LeadsOn(old(run), before, run);
      }
      ghost var before := run;
      FinishContinuityMigrated(h);
      LeadsOn(old(run), before, run);
    }

    /** The startup, uninterrupted: it leaves every harness settled, as one of the schedules of
        writes, so every crashed schedule from the same state ends with the same outcome. */
    method RunAccountsUnifiedMigration()
      requires Valid() && run.process.Idle?
      modifies this
      ensures Valid() && logins == old(logins)
      ensures Leads(Step(old(run), DoBoot), run) && run.process == Pass(true, [], None)
      ensures forall h :: h in logins && (h == "claude" || h == "codex") ==>
                h in records && (records[h].phase.Completed? || records[h].phase.RollingBack?)
    {
      run := Step(run, DoBoot);
      clock := clock + 1;
      ghost var start := run;
      LeadsNowhere(start);
      var i := 0;
      while i < |HARNESSES|
        invariant 0 <= i <= |HARNESSES|
        invariant Valid() && logins == old(logins)
        invariant run.process == Pass(true, HARNESSES[i..], None) && Leads(start, run)
      {
        ghost var before := run;
        MigrateHarness(HARNESSES[i]);
        LeadsOn(start, before, run);
        i := i + 1;
      }
      BothAreSettled(old(run), run);
    }

    // ---------------------------------------------------------------- the rollback

    /** The config write of the rollback: only the row at the record's own locator leaves. */
    method UnregisterRow(h: Id, ghost work: set<Unit>)
      requires Working(h, false, Some(work)) && Config in work
      modifies this
      ensures Working(h, false, Some(work - {Config})) && run == Step(old(run), DoWrite(Config))
      ensures run.process.queue == old(run).process.queue
      ensures logins == old(logins) && records == old(records) && quota == old(quota)
    {
      var record := records[h];
      var i := 0;
      while i < |registry| && !Owns(registry[i], h, record.rowId)
        invariant 0 <= i <= |registry|
        invariant forall j :: 0 <= j < i ==> !Owns(registry[j], h, record.rowId)
      {
        i := i + 1;
      }
      FirstRow(registry, h, record.rowId, i);
      if i < |registry| && registry[i].locator == Some(record.locator) {
        native := native[h := registry[i].enabled];
        registry := registry[..i] + registry[i + 1..];
      }
      clock := clock + 1;
      Log(Config);
    }

    /** Phase rolling_back is persisted before the first reverse step. */
    method StartRollingBack(h: Id)
      requires Working(h, false, None) && h in records
      modifies this
      ensures Working(h, false, Some(UnitsOf(Value().continuity, h, RollingBack))) && run == Step(old(run), DoWrite(Config))
      ensures run.process.queue == old(run).process.queue
      ensures logins == old(logins) && records == old(records)[h := old(records)[h].(phase := RollingBack)]
      ensures quota == old(quota)
    {
      records := records[h := records[h].(phase := RollingBack)];
      clock := clock + 1;
      Log(Config);
    }

    /** Every reverse step; the record still says rolling_back. */
    method ReverseSteps(h: Id)
      requires Working(h, false, Some(UnitsOf(Value().continuity, h, RollingBack)))
      modifies this
      ensures Working(h, false, Some({})) && Leads(old(run), run) && run.process.queue == old(run).process.queue
      ensures logins == old(logins) && records == old(records)
      ensures forall k :: k in quota <==> k in old(quota) && k != Subject(h, Some(records[h].rowId))
    {
      var left := WriteStores(h, records[h].rowId, false, UnitsOf(Continuity(sessions, lanes, homes), h, RollingBack));
      LeadsByOne(old(run), run, Quota);
      RemoveQuotaSubject(h, records[h].rowId, false, left);
      LeadsByOne(old(run), run, Config);
      UnregisterRow(h, left - {Quota});
      assert left - {Quota} - {Config} == {};
    }

    /** The record leaves last. */
    method DropRecord(h: Id)
      requires Working(h, false, Some({}))
      modifies this
      ensures Valid() && run == Step(old(run), DoWrite(Config)) && logins == old(logins)
      ensures run.process == Pass(false, old(run).process.queue[1..], None) && records == Omit(old(records), h)
      ensures quota == old(quota)
    {
      records := Omit(records, h);
      clock := clock + 1;
      Log(Config);
    }

    method RollBackHarness(h: Id)
      requires Working(h, false, None)
      modifies this
      ensures Valid() && logins == old(logins) && Leads(old(run), run)
      ensures run.process == Pass(false, old(run).process.queue[1..], None)
      ensures records == Omit(old(records), h)
      ensures forall k :: k in quota <==> k in old(quota) && !(h in old(records) && k == Subject(h, Some(old(records)[h].rowId)))
    {
      LeadsNowhere(run);
      LeadsByOne(run, run, Config);
      if h !in records {
        clock := clock + 1;
        Log(Config);
        return;
      }
      StartRollingBack(h);
      ghost var before := run;
      ReverseSteps(h);
      LeadsOn(old(run), before, run);
      LeadsByOne(old(run), run, Config);
      DropRecord(h);
    }

    method RollbackAccountsUnifiedMigration(targets: seq<Id>)
      requires Valid() && run.process.Idle?
      modifies this
      ensures Valid() && logins == old(logins)
      ensures Leads(Step(old(run), DoRollback(targets)), run) && run.process == Pass(false, [], None)
      ensures forall h :: h in records <==> h in old(records) && h !in targets
      ensures forall h :: h in records ==> records[h] == old(records)[h]
      ensures forall k :: k in quota <==>
                k in old(quota)
                && !(k.harness in targets && k.harness in old(records) && k.profile == Some(old(records)[k.harness].rowId))
    {
      run := Step(run, DoRollback(targets));
      clock := clock + 1;
      ghost var start := run;
      LeadsNowhere(start);
      var i := 0;
      while i < |targets|
        invariant 0 <= i <= |targets|
        invariant Valid() && logins == old(logins)
        invariant run.process == Pass(false, targets[i..], None) && Leads(start, run)
        invariant forall h :: h in records <==> h in old(records) && h !in targets[..i]
        invariant forall h :: h in records ==> records[h] == old(records)[h]
        invariant forall k :: k in quota <==>
                    k in old(quota)
                    && !(k.harness in targets[..i] && k.harness in old(records) && k.profile == Some(old(records)[k.harness].rowId))
      {
        ghost var before := run;
        RollBackHarness(targets[i]);
        LeadsOn(start, before, run);
        i := i + 1;
      }
      assert targets[..i] == targets;
    }
  }

  lemma {:induction false} FirstRow(registry: seq<MigrationModel.Row>, h: Id, id: Id, i: nat)
    requires i <= |registry| && forall j :: 0 <= j < i ==> !Owns(registry[j], h, id)
    requires i < |registry| ==> Owns(registry[i], h, id)
    ensures FindRow(registry, h, id) == if i < |registry| then Some(i) else None
  {
    if i > 0 {
      FirstRow(registry[1..], h, id, i - 1);
    }
  }

  lemma BothAreSettled(s: State, end: State)
    requires s.process.Idle? && Leads(Step(s, DoBoot), end) && end.process == Pass(true, [], None)
    ensures forall h :: h in s.logins && (h == "claude" || h == "codex") ==>
              h in end.w.records && (end.w.records[h].phase.Completed? || end.w.records[h].phase.RollingBack?)
  {
    var writes :| WritesOnly(writes) && end == Run(Step(s, DoBoot), writes);
    var all := [DoBoot] + writes;
    assert all[1..] == writes;
    assert end == Run(s, all);
    forall i | 0 <= i < |all| ensures StartupOnly(all[i]) { if i > 0 { assert all[i] == writes[i - 1]; } }
    StartupCoversBothHarnesses(s, all);
  }

  /** The uninterrupted startup finishes, and any schedule of crashed startups that finishes
      from the same state ends with the same outcome. */
  lemma TheStartupIsTheReference(s: State, end: State, ops: seq<Op>)
    requires s.process.Idle? && Leads(Step(s, DoBoot), end) && end.process == Pass(true, [], None)
    requires StartupsOnly(ops) && AllSettled(Run(s, ops).w.records, s.logins, HARNESSES)
    ensures AllSettled(end.w.records, s.logins, HARNESSES)
    ensures SameOutcome(end.w, Run(s, ops).w)
  {
    var writes :| WritesOnly(writes) && end == Run(Step(s, DoBoot), writes);
    var all := [DoBoot] + writes;
    assert all[1..] == writes;
    assert end == Run(s, all);
    forall i | 0 <= i < |all| ensures StartupOnly(all[i]) { if i > 0 { assert all[i] == writes[i - 1]; } }
    UsedUpIsFinished(s, all);
    CrashedStartupsConverge(s, all, ops);
  }
}
