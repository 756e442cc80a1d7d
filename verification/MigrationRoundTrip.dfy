/** The registry over a finished startup and a finished rollback of all its records: when it is
    what it was. */
module MigrationRoundTrip {
  import opened Knowledge
  import opened MigrationModel
  import opened MigrationRuns
  import opened MigrationTwin
  import opened MigrationConvergence
  import opened MigrationGate
  import opened MigrationRows
  import opened MigrationFreshness
  import opened MigrationAgain

  // ---------------------------------------------------------------- one harness over the passes

  /** The rows of a harness against those of the first world, while nobody logs in or out. */
  predicate Tracked(s: State, h: Id, before: seq<Row>) {
    if h in s.w.records then Migrates(s.logins, h) && s.w.records[h].locator == s.logins[h].locator && Living(s, h, before)
    else Rows(s.w.accounts.registry, h) == before
  }

  predicate IsPass(op: Op) { op.DoBoot? || op.DoRollback? || op.DoCrash? || op.DoWrite? }

  lemma ConfigWritesKeepRecords(s: State, op: Op)
    requires ConfigWrite(s, op)
    ensures Step(s, op).w.records == s.w.records
  {
  }

  lemma UntrackedStays(s: State, op: Op, h: Id)
    requires h !in s.w.records
    ensures Rows(Step(s, op).w.accounts.registry, h) == Rows(s.w.accounts.registry, h)
  {
    if ConfigWrite(s, op) {
      var g := s.process.queue[0];
      RegistryWrites(s, op);
      OthersKeepTheirRows(s.w.accounts, g, s.w.records[g], At(s.logins, g), h);
    } else {
      RowsStay(s, op, h);
    }
  }

  lemma StepTracks(s: State, op: Op, h: Id, before: seq<Row>)
    requires GateInv(s) && QueueKnown(s.process) && IsPass(op) && Tracked(s, h, before)
    requires h in s.w.records && Leaves(before, s.w.records[h]) ==> h in Step(s, op).w.records
    ensures Tracked(Step(s, op), h, before) && Step(s, op).logins == s.logins
  {
    PassesKeepLogins(s, op);
    RecordsOfAStep(s, op, h);
    RecordsLiveOn(s, op, h);
    if h !in s.w.records {
      UntrackedStays(s, op, h);
      if h in Step(s, op).w.records { OpeningLives(s, op, h); }
    } else if h in Step(s, op).w.records {
      StepLives(s, op, h, before);
    } else {
      RowsStay(s, op, h);
    }
  }

  // ---------------------------------------------------------------- with every locator free

  /** No harness that migrates has a row at its login's locator. */
  ghost predicate LocatorsFree(registry: seq<Row>, logins: map<Id, Login>) {
    forall h :: Migrates(logins, h) ==> FindLocator(registry, h, logins[h].locator).None?
  }

  /** The registry is the first one and, behind it, the rows of open records. */
  predicate Extends(registry: seq<Row>, first: seq<Row>, records: map<Id, Record>) {
    && |first| <= |registry| && registry[..|first|] == first
    && forall i :: |first| <= i < |registry| ==> registry[i].harness in records && registry[i].id == records[registry[i].harness].rowId
  }

  ghost predicate AllTracked(s: State, first: seq<Row>) {
    && GateInv(s) && QueueKnown(s.process) && LocatorsFree(first, s.logins) && Extends(s.w.accounts.registry, first, s.w.records)
    && forall h :: Tracked(s, h, Rows(first, h))
  }

  lemma FreeMeansNothingLeaves(s: State, h: Id, first: seq<Row>)
    requires LocatorsFree(first, s.logins) && Tracked(s, h, Rows(first, h)) && h in s.w.records
    ensures !Leaves(Rows(first, h), s.w.records[h]) && FindRow(first, h, s.w.records[h].rowId).None?
  {
    FindLocatorIsFirst(first, h, s.logins[h].locator);
    FindRowIsFirst(first, h, s.w.records[h].rowId);
  }

  lemma RegisterExtends(a: Accounts, first: seq<Row>, records: map<Id, Record>, h: Id, login: Option<Login>)
    requires Extends(a.registry, first, records) && h in records
    ensures Extends(Register(a, h, records[h], login).registry, first, records)
  {
    var after := Register(a, h, records[h], login).registry;
    if after != a.registry { assert after[..|first|] == a.registry[..|first|]; }
  }

  lemma UnregisterExtends(a: Accounts, first: seq<Row>, records: map<Id, Record>, h: Id)
    requires Extends(a.registry, first, records) && h in records && FindRow(first, h, records[h].rowId).None?
    ensures Extends(Unregister(a, h, records[h]).registry, first, records)
  {
    var found := FindRow(a.registry, h, records[h].rowId);
    if found.Some? {
      var i := found.value;
      assert forall j :: 0 <= j < |first| ==> a.registry[j] == first[j];
      assert |first| <= i;
      var after := a.registry[..i] + a.registry[i + 1..];
      assert after[..|first|] == a.registry[..|first|];
      forall j | |first| <= j < |after| ensures after[j].harness in records && after[j].id == records[after[j].harness].rowId {
        assert after[j] == a.registry[if j < i then j else j + 1];
      }
    }
  }

  /** A harness whose rows are those of the first registry has none behind it. */
  lemma NoneBehind(registry: seq<Row>, first: seq<Row>, records: map<Id, Record>, h: Id, i: nat)
    requires Extends(registry, first, records) && Rows(registry, h) == Rows(first, h) && |first| <= i < |registry|
    ensures registry[i].harness != h
  {
    var behind := registry[|first|..];
    assert registry == first + behind;
    RowsSplit(first, behind, h);
    assert Rows(behind, h) == [];
    assert behind[i - |first|] == registry[i];
    RowOfHarness(behind, h, Shape(registry[i]));
  }

  lemma StepExtends(s: State, op: Op, first: seq<Row>)
    requires AllTracked(s, first) && IsPass(op) && forall h :: Tracked(Step(s, op), h, Rows(first, h))
    ensures Extends(Step(s, op).w.accounts.registry, first, Step(s, op).w.records)
  {
    var registry, records, next := s.w.accounts.registry, s.w.records, Step(s, op).w;
    RegistryWrites(s, op);
    if ConfigWrite(s, op) {
      var g := s.process.queue[0];
      ConfigWritesKeepRecords(s, op);
      assert Tracked(s, g, Rows(first, g));
      FreeMeansNothingLeaves(s, g, first);
      if s.process.forward { RegisterExtends(s.w.accounts, first, records, g, At(s.logins, g)); } else { UnregisterExtends(s.w.accounts, first, records, g); }
    } else {
      forall i | |first| <= i < |registry|
        ensures registry[i].harness in next.records && registry[i].id == next.records[registry[i].harness].rowId
      {
        var h := registry[i].harness;
        RecordsLiveOn(s, op, h);
        if h !in next.records {
          assert Tracked(Step(s, op), h, Rows(first, h));
          NoneBehind(registry, first, records, h, i);
        }
      }
    }
  }

  lemma {:induction false} RunTracksAll(s: State, ops: seq<Op>, first: seq<Row>)
    requires AllTracked(s, first) && PassesOnly(ops)
    ensures AllTracked(Run(s, ops), first)
    decreases |ops|
  {
    if ops != [] {
      PassesRest(ops);
      forall h ensures Tracked(Step(s, ops[0]), h, Rows(first, h)) {
        assert Tracked(s, h, Rows(first, h));
        if h in s.w.records { FreeMeansNothingLeaves(s, h, first); }
        StepTracks(s, ops[0], h, Rows(first, h));
      }
      StepExtends(s, ops[0], first);
      StepKeepsGate(s, ops[0]);
      StepKeepsQueue(s, ops[0]);
      PassesKeepLogins(s, ops[0]);
      RunTracksAll(Step(s, ops[0]), ops[1..], first);
    }
  }

  lemma OpenBehind(registry: seq<Row>, first: seq<Row>, records: map<Id, Record>)
    requires Extends(registry, first, records) && |first| < |registry|
    ensures records != map[]
  {
    assert registry[|first|].harness in records;
  }

  /** With every locator free the registry comes back as it was, after startups, rollbacks and
      crashes in any order. */
  lemma FreeLocatorsComeBack(w: World, logins: map<Id, Login>, clock: nat, passes: seq<Op>)
    requires w.records == map[] && Past(w.continuity, clock) && LocatorsFree(w.accounts.registry, logins)
    requires ComesBack(Start(w, logins, clock), passes)
    ensures Run(Start(w, logins, clock), passes).w.accounts.registry == w.accounts.registry
  {
    var s := Start(w, logins, clock);
    StartIsInEffect(w, logins, clock);
    RunTracksAll(s, passes, w.accounts.registry);
    var registry, records, n := Run(s, passes).w.accounts.registry, Run(s, passes).w.records, |w.accounts.registry|;
    if n < |registry| { OpenBehind(registry, w.accounts.registry, records); }
    assert registry[..n] == registry;
  }

  // ---------------------------------------------------------------- with a row at the locator

  predicate UniqueIds(registry: seq<Row>) {
    forall i, j :: 0 <= i < j < |registry| ==> registry[i].harness != registry[j].harness || registry[i].id != registry[j].id
  }

  lemma {:induction false} TheRowAtTheLocatorLeaves(registry: seq<Row>, h: Id, r: Record)
    requires UniqueIds(registry) && ReservedOver(Rows(registry, h), r) && FindLocator(registry, h, r.locator).Some?
    ensures Leaves(Rows(registry, h), r)
  {
    var found := FindLocator(registry, h, r.locator).value;
    FindLocatorIsFirst(registry, h, r.locator);
    FindRowIsFirst(registry, h, r.rowId);
    var i :| 0 <= i < |registry| && registry[i] == found;
    assert Owns(registry[i], h, r.rowId);
    assert FindRow(registry, h, r.rowId) == Some(i);
  }

  lemma {:induction false} StartupsTrack(s: State, ops: seq<Op>, h: Id, before: seq<Row>)
    requires GateInv(s) && QueueKnown(s.process) && Forward(s.process) && StartupsOnly(ops) && Tracked(s, h, before)
    ensures var e := Run(s, ops);
            GateInv(e) && Tracked(e, h, before) && e.logins == s.logins
    decreases |ops|
  {
    if ops != [] {
      assert StartupOnly(ops[0]);
      forall i | 0 <= i < |ops[1..]| ensures StartupOnly(ops[1..][i]) { assert ops[1..][i] == ops[i + 1]; }
      RecordsLiveOn(s, ops[0], h);
      StepTracks(s, ops[0], h, before);
      StepKeepsGate(s, ops[0]);
      StepKeepsQueue(s, ops[0]);
      StartupsTrack(Step(s, ops[0]), ops[1..], h, before);
    }
  }

  /** Once a rollback has dropped the record the rows are others, and no rollback brings them back. */
  predicate Gone(s: State, h: Id, before: seq<Row>) {
    if h in s.w.records then Living(s, h, before) && Leaves(before, s.w.records[h]) else Rows(s.w.accounts.registry, h) != before
  }

  lemma {:induction false} RollbacksTakeIt(s: State, ops: seq<Op>, h: Id, before: seq<Row>)
    requires GateInv(s) && Backward(s.process) && PassesOnly(ops) && RollbacksOnly(ops) && Gone(s, h, before)
    ensures Gone(Run(s, ops), h, before)
    decreases |ops|
  {
    if ops != [] {
      PassesRest(ops);
      var op, next := ops[0], Step(s, ops[0]);
      RecordsOfAStep(s, op, h);
      RecordsLiveOn(s, op, h);
      if h !in s.w.records {
        UntrackedStays(s, op, h);
      } else if h in next.w.records {
        StepLives(s, op, h, before);
      } else {
        RowsStay(s, op, h);
      }
      StepKeepsGate(s, op);
      assert Backward(next.process);
      RollbacksTakeIt(next, ops[1..], h, before);
    }
  }

  lemma AnAdoptedRowIsGone(w: World, logins: map<Id, Login>, clock: nat, up: seq<Op>, back: seq<Op>, h: Id)
    requires w.records == map[] && Past(w.continuity, clock) && UniqueIds(w.accounts.registry)
    requires StartsUp(Start(w, logins, clock), up) && Run(Start(w, logins, clock), up).process.Idle?
    requires RollbacksOnly(back) && ComesBack(Run(Start(w, logins, clock), up), back)
    requires Migrates(logins, h) && FindLocator(w.accounts.registry, h, logins[h].locator).Some?
    ensures Rows(Run(Run(Start(w, logins, clock), up), back).w.accounts.registry, h) != Rows(w.accounts.registry, h)
  {
    var s := Start(w, logins, clock);
    var v := Run(s, up);
    var before := Rows(w.accounts.registry, h);
    StartIsInEffect(w, logins, clock);
    StartupsTrack(s, up, h, before);
    assert h in v.w.records by {
      var i :| 0 <= i < |HARNESSES| && HARNESSES[i] == h;
      assert Settled(v.w.records, logins, HARNESSES[i]);
    }
    TheRowAtTheLocatorLeaves(w.accounts.registry, h, v.w.records[h]);
    RollbacksTakeIt(v, back, h, before);
  }

  /** A finished startup and a finished rollback of all its records, each crashed and rerun any
      number of times, restore the registry if and only if no harness that migrated had a row at
      its login's locator: an adopted row leaves with the rollback. */
  lemma RegistryRoundTripExactlyWhen(w: World, logins: map<Id, Login>, clock: nat, up: seq<Op>, back: seq<Op>)
    requires w.records == map[] && Past(w.continuity, clock) && UniqueIds(w.accounts.registry)
    requires StartsUp(Start(w, logins, clock), up) && Run(Start(w, logins, clock), up).process.Idle?
    requires RollbacksOnly(back) && ComesBack(Run(Start(w, logins, clock), up), back)
    ensures Run(Run(Start(w, logins, clock), up), back).w.accounts.registry == w.accounts.registry
       <==> LocatorsFree(w.accounts.registry, logins)
  {
    var s := Start(w, logins, clock);
    if LocatorsFree(w.accounts.registry, logins) {
      forall i | 0 <= i < |up| ensures IsPass(up[i]) { assert StartupOnly(up[i]); }
      assert PassesOnly(up + back);
      RunConcat(s, up, back);
      FreeLocatorsComeBack(w, logins, clock, up + back);
    } else {
      var h :| Migrates(logins, h) && FindLocator(w.accounts.registry, h, logins[h].locator).Some?;
      AnAdoptedRowIsGone(w, logins, clock, up, back, h);
    }
  }
}
