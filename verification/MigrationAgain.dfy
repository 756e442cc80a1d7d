/** A migration, a rollback and a migration again: the second ends where the first did.  On the
    way: which runs are sound of themselves. */
module MigrationAgain {
  import opened Knowledge
  import opened MigrationModel
  import opened RowIds
  import opened MigrationRuns
  import opened MigrationSafety
  import opened MigrationFreshness
  import opened MigrationTheorems
  import opened MigrationConvergence

  // ---------------------------------------------------------------- runs that are sound of themselves

  /** Startups, rollbacks, crashes and writes: nobody turns, toggles, logs in or out. */
  predicate PassesOnly(ops: seq<Op>) {
    forall i :: 0 <= i < |ops| ==> ops[i].DoBoot? || ops[i].DoRollback? || ops[i].DoCrash? || ops[i].DoWrite?
  }

  predicate RollbacksOnly(ops: seq<Op>) {
    forall i :: 0 <= i < |ops| ==> ops[i].DoRollback? || ops[i].DoCrash? || ops[i].DoWrite?
  }

  lemma PassesRest(ops: seq<Op>)
    requires PassesOnly(ops) && ops != []
    ensures PassesOnly(ops[1..]) && (ops[0].DoBoot? || ops[0].DoRollback? || ops[0].DoCrash? || ops[0].DoWrite?)
    ensures RollbacksOnly(ops) ==> RollbacksOnly(ops[1..])
  {
    forall i | 0 <= i < |ops[1..]|
      ensures ops[1..][i].DoBoot? || ops[1..][i].DoRollback? || ops[1..][i].DoCrash? || ops[1..][i].DoWrite?
      ensures RollbacksOnly(ops) ==> !ops[1..][i].DoBoot?
    {
      assert ops[1..][i] == ops[i + 1];
    }
  }

  /** A reserved record's login is still there. */
  predicate LoginsLast(records: map<Id, Record>, logins: map<Id, Login>) {
    forall h :: h in records && records[h].phase.Reserved? ==> h in logins
  }

  ghost predicate NothingStale(c: Continuity, registry: seq<Row>) {
    forall h :: h in HARNESSES ==> NoStaleLane(c, h, ReservedId(registry, h))
  }

  lemma StepKeepsLoginsLast(s: State, op: Op)
    requires LoginsLast(s.w.records, s.logins) && (op.DoBoot? || op.DoRollback? || op.DoCrash? || op.DoWrite?)
    ensures LoginsLast(Step(s, op).w.records, Step(s, op).logins) && Step(s, op).logins == s.logins
  {
  }

  lemma WritesKeepNothingStale(c: Continuity, h: Id, u: Unit, now: nat, row: Id, g: Id, id: Id)
    requires NoStaleLane(c, g, id) && (g == h ==> row == id)
    ensures NoStaleLane(Move(c, h, row, u, now), g, id) && NoStaleLane(Return(c, h, row, u, now), g, id)
  {
    var m, b := Move(c, h, row, u, now), Return(c, h, row, u, now);
    forall k: LaneKey | k.harness == g && k.profile == None
      ensures NotStale(At(m.lanes, k), At(m.lanes, k.(profile := Some(id)))) && NotStale(At(b.lanes, k), At(b.lanes, k.(profile := Some(id))))
    {
      var k' := k.(profile := Some(id));
      assert k'.(profile := None) == k;
      assert NotStale(At(c.lanes, k), At(c.lanes, k'));
    }
  }

  lemma StepKeepsNothingStale(s: State, op: Op)
    requires FreshInv(s) && NothingStale(s.w.continuity, s.twin.accounts.registry)
    requires op.DoBoot? || op.DoRollback? || op.DoCrash? || op.DoWrite?
    ensures NothingStale(Step(s, op).w.continuity, s.twin.accounts.registry)
  {
    ContinuityOfAStep(s, op);
    if op.DoWrite? && s.process.Pass? && s.process.queue != [] && s.process.queue[0] in s.w.records {
      var h := s.process.queue[0];
      forall g | g in HARNESSES ensures NoStaleLane(Step(s, op).w.continuity, g, ReservedId(s.twin.accounts.registry, g)) {
        assert NoStaleLane(s.w.continuity, g, ReservedId(s.twin.accounts.registry, g));
        WritesKeepNothingStale(s.w.continuity, h, op.which, s.clock, s.w.records[h].rowId, g, ReservedId(s.twin.accounts.registry, g));
      }
    }
  }

  /** With no stale lane to begin with, startups and rollbacks interleaved and crashed in any way
      are sound. */
  lemma {:induction false} PassesAreSound(s: State, ops: seq<Op>)
    requires FreshInv(s) && PassesOnly(ops) && LoginsLast(s.w.records, s.logins)
    requires NothingStale(s.w.continuity, s.twin.accounts.registry)
    ensures SoundRun(s, ops)
    decreases |ops|
  {
    if ops != [] {
      PassesRest(ops);
      assert Sound(s, ops[0]);
      StepKeepsFresh(s, ops[0]);
      StepKeepsLoginsLast(s, ops[0]);
      StepKeepsNothingStale(s, ops[0]);
      RecordsOfAStep(s, ops[0], "");
      PassesAreSound(Step(s, ops[0]), ops[1..]);
    }
  }

  /** Startups and rollbacks without turns in between, crashed and rerun any number of times, from
      any phase: when no record is left, the world is the one before. */
  lemma PassesRestoreTheOriginal(w: World, logins: map<Id, Login>, clock: nat, ops: seq<Op>)
    requires Untouched(w, logins, clock) && NothingStale(w.continuity, w.accounts.registry) && PassesOnly(ops)
    requires Run(Start(w, logins, clock), ops).w.records == map[]
    ensures Restored(w, Run(Start(w, logins, clock), ops).w)
  {
    StartIsFresh(w, logins, clock);
    PassesAreSound(Start(w, logins, clock), ops);
    RollbackRestoresTheOriginal(w, logins, clock, ops);
  }

  predicate Forward(p: Process) { p.Pass? ==> p.forward }
  predicate Backward(p: Process) { p.Pass? ==> !p.forward }

  lemma StartupIsSound(s: State, op: Op)
    requires LoginsLast(s.w.records, s.logins) && Forward(s.process) && StartupOnly(op)
    ensures Sound(s, op) && Forward(Step(s, op).process)
  {
  }

  lemma {:induction false} StartupsAreSound(s: State, ops: seq<Op>)
    requires FreshInv(s) && PassesOnly(ops) && StartupsOnly(ops) && LoginsLast(s.w.records, s.logins) && Forward(s.process)
    ensures SoundRun(s, ops)
    decreases |ops|
  {
    if ops != [] {
      PassesRest(ops);
      assert StartupOnly(ops[0]);
      forall i | 0 <= i < |ops[1..]| ensures StartupOnly(ops[1..][i]) { assert ops[1..][i] == ops[i + 1]; }
      StartupIsSound(s, ops[0]);
      StepKeepsFresh(s, ops[0]);
      StepKeepsLoginsLast(s, ops[0]);
      StartupsAreSound(Step(s, ops[0]), ops[1..]);
    }
  }

  /** No migration is under way: what records there are are past their continuity move. */
  predicate PastTheMove(records: map<Id, Record>) {
    forall h :: h in records ==> !records[h].phase.Reserved? && !records[h].phase.RegistryWritten?
  }

  lemma BackwardStepStaysPast(s: State, op: Op)
    requires PastTheMove(s.w.records) && Backward(s.process) && (op.DoRollback? || op.DoCrash? || op.DoWrite?)
    ensures PastTheMove(Step(s, op).w.records) && Backward(Step(s, op).process)
  {
  }

  lemma {:induction false} RollbacksAreSound(s: State, ops: seq<Op>)
    requires FreshInv(s) && PassesOnly(ops) && RollbacksOnly(ops) && PastTheMove(s.w.records) && Backward(s.process)
    ensures SoundRun(s, ops)
    decreases |ops|
  {
    if ops != [] {
      PassesRest(ops);
      assert Sound(s, ops[0]);
      StepKeepsFresh(s, ops[0]);
      BackwardStepStaysPast(s, ops[0]);
      RollbacksAreSound(Step(s, ops[0]), ops[1..]);
    }
  }

  lemma {:induction false} SoundRunsConcat(s: State, a: seq<Op>, b: seq<Op>)
    requires SoundRun(s, a) && SoundRun(Run(s, a), b)
    ensures SoundRun(s, a + b)
    decreases |a|
  {
    if a == [] {
      assert a + b == b;
    } else {
      assert (a + b)[1..] == a[1..] + b;
      SoundRunsConcat(Step(s, a[0]), a[1..], b);
    }
  }

  // ---------------------------------------------------------------- what no pass touches

  /** The harnesses a startup would migrate. */
  predicate Migrates(logins: map<Id, Login>, h: Id) { h in HARNESSES && h in logins }

  /** A key of an account that is no migrated harness's reserved id. */
  predicate Elsewhere(harness: Id, profile: Option<Id>, logins: map<Id, Login>, registry: seq<Row>) {
    profile.Some? && !(Migrates(logins, harness) && profile.value == ReservedId(registry, harness))
  }

  ghost predicate ElsewhereKept(c: Continuity, t: Continuity, logins: map<Id, Login>, registry: seq<Row>) {
    && (forall k: LaneKey :: Elsewhere(k.harness, k.profile, logins, registry) ==> At(c.lanes, k) == At(t.lanes, k))
    && (forall k: HomeKey :: Elsewhere(k.harness, k.profile, logins, registry) ==> At(c.homes, k) == At(t.homes, k))
  }

  lemma WritesKeepElsewhere(c: Continuity, t: Continuity, logins: map<Id, Login>, registry: seq<Row>, h: Id, u: Unit, now: nat)
    requires ElsewhereKept(c, t, logins, registry) && Migrates(logins, h)
    ensures ElsewhereKept(Move(c, h, ReservedId(registry, h), u, now), t, logins, registry)
    ensures ElsewhereKept(Return(c, h, ReservedId(registry, h), u, now), t, logins, registry)
  {
    var row := ReservedId(registry, h);
    var m, b := Move(c, h, row, u, now), Return(c, h, row, u, now);
    forall k: LaneKey | Elsewhere(k.harness, k.profile, logins, registry) ensures At(m.lanes, k) == At(t.lanes, k) == At(b.lanes, k) {
      assert At(c.lanes, k) == At(t.lanes, k);
    }
    forall k: HomeKey | Elsewhere(k.harness, k.profile, logins, registry) ensures At(m.homes, k) == At(t.homes, k) == At(b.homes, k) {
      assert At(c.homes, k) == At(t.homes, k);
    }
  }

  predicate RecordsHaveLogins(records: map<Id, Record>, logins: map<Id, Login>) {
    forall h :: h in records ==> h in logins
  }

  lemma StepKeepsElsewhere(s: State, op: Op, t: Continuity)
    requires FreshInv(s) && (op.DoBoot? || op.DoRollback? || op.DoCrash? || op.DoWrite?)
    requires RecordsHaveLogins(s.w.records, s.logins) && ElsewhereKept(s.w.continuity, t, s.logins, s.twin.accounts.registry)
    ensures var next := Step(s, op);
            && next.logins == s.logins && next.twin.accounts.registry == s.twin.accounts.registry
            && RecordsHaveLogins(next.w.records, s.logins) && ElsewhereKept(next.w.continuity, t, s.logins, s.twin.accounts.registry)
  {
    var next := Step(s, op);
    ContinuityOfAStep(s, op);
    if op.DoWrite? && s.process.Pass? && s.process.queue != [] && s.process.queue[0] in s.w.records {
      WritesKeepElsewhere(s.w.continuity, t, s.logins, s.twin.accounts.registry, s.process.queue[0], op.which, s.clock);
    }
    forall h | h in next.w.records ensures h in s.logins { RecordsOfAStep(s, op, h); }
    RecordsOfAStep(s, op, "");
    PassesKeepLogins(s, op);
  }

  lemma PassesKeepLogins(s: State, op: Op)
    requires op.DoBoot? || op.DoRollback? || op.DoCrash? || op.DoWrite?
    ensures Step(s, op).logins == s.logins
  {
  }

  lemma {:induction false} PassesKeepElsewhere(s: State, ops: seq<Op>, t: Continuity)
    requires FreshInv(s) && SoundRun(s, ops) && PassesOnly(ops)
    requires RecordsHaveLogins(s.w.records, s.logins) && ElsewhereKept(s.w.continuity, t, s.logins, s.twin.accounts.registry)
    ensures ElsewhereKept(Run(s, ops).w.continuity, t, s.logins, s.twin.accounts.registry) && Run(s, ops).logins == s.logins
    ensures RecordsHaveLogins(Run(s, ops).w.records, s.logins)
    decreases |ops|
  {
    if ops != [] {
      PassesRest(ops);
      StepKeepsFresh(s, ops[0]);
      StepKeepsElsewhere(s, ops[0], t);
      PassesKeepElsewhere(Step(s, ops[0]), ops[1..], t);
    }
  }

  // ---------------------------------------------------------------- plans over equivalent books

  /** The same registry and records; switches equal up to absent meaning true. */
  ghost predicate SameBooks(a: Books, b: Books) {
    && a.records == b.records && a.accounts.registry == b.accounts.registry
    && forall h :: NativeOn(a.accounts, h) <==> NativeOn(b.accounts, h)
  }

  lemma PlanOneOfSameBooks(a: Books, b: Books, logins: map<Id, Login>, h: Id)
    requires SameBooks(a, b)
    ensures SameBooks(PlanOne(a, logins, h), PlanOne(b, logins, h))
  {
    var p, q := PlanOne(a, logins, h), PlanOne(b, logins, h);
    assert p.accounts.native == a.accounts.native && q.accounts.native == b.accounts.native;
    assert NativeOn(a.accounts, h) <==> NativeOn(b.accounts, h);
    forall g ensures NativeOn(p.accounts, g) <==> NativeOn(q.accounts, g) { assert NativeOn(a.accounts, g) <==> NativeOn(b.accounts, g); }
  }

  lemma {:induction false} PlanOfSameBooks(a: Books, b: Books, logins: map<Id, Login>, hs: seq<Id>)
    requires SameBooks(a, b)
    ensures SameBooks(Plan(a, logins, hs), Plan(b, logins, hs))
    decreases |hs|
  {
    if hs != [] {
      PlanOneOfSameBooks(a, b, logins, hs[0]);
      PlanOfSameBooks(PlanOne(a, logins, hs[0]), PlanOne(b, logins, hs[0]), logins, hs[1..]);
    }
  }

  // ---------------------------------------------------------------- migrating again

  /** Records, row ids, registry, switches (absent is true), sessions, turns seen and lane homes
      agree. */
  ghost predicate Agree(v: World, w: World) {
    && SameBooks(BooksOf(v), BooksOf(w))
    && v.continuity.sessions == w.continuity.sessions
    && (forall k: LaneKey :: TurnOf(At(v.continuity.lanes, k)) == TurnOf(At(w.continuity.lanes, k)))
    && (forall k: HomeKey :: At(v.continuity.homes, k) == At(w.continuity.homes, k))
  }

  /** Where a pair of fresh lanes is heading only depends on the default lane. */
  lemma FreshPairsHeadForTheDefault(c: Continuity, h: Id, row: Id, k: LaneKey)
    requires FreshContinuity(c, h, row) && k.harness == h && k.profile == Some(row)
    ensures TargetTurn(c, true, row, k) == TurnOf(At(c.lanes, k.(profile := None)))
  {
    var d := k.(profile := None);
    assert d.(profile := Some(row)) == k;
    assert NotAhead(At(c.lanes, d), At(c.lanes, k));
  }

  /** Two worlds without records on fresh ground, equal under null and under foreign accounts,
      with plans that reserve the same ids. */
  ghost predicate Twins(w: World, u: World, logins: map<Id, Login>, plan: Books, other: Books) {
    && w.records == map[] && u.records == map[] && Restored(w, u)
    && GroundFresh(w.continuity, map[], w.accounts.registry) && GroundFresh(u.continuity, map[], w.accounts.registry)
    && ElsewhereKept(u.continuity, w.continuity, logins, w.accounts.registry)
    && forall h :: Migrates(logins, h) ==> RowOf(plan, h) == ReservedId(w.accounts.registry, h) && RowOf(other, h) == RowOf(plan, h)
  }

  /** They head for the same lane turns, */
  lemma SameTargetTurn(w: World, u: World, logins: map<Id, Login>, plan: Books, other: Books, k: LaneKey)
    requires Twins(w, u, logins, plan, other)
    ensures TargetTurn(u.continuity, Moves(map[], logins, HARNESSES, k.harness), RowOf(other, k.harness), k)
         == TargetTurn(w.continuity, Moves(map[], logins, HARNESSES, k.harness), RowOf(plan, k.harness), k)
  {
    var h, registry := k.harness, w.accounts.registry;
    if k.profile == None {
      assert TurnOf(At(u.continuity.lanes, k)) == TurnOf(At(w.continuity.lanes, k));
    } else if Elsewhere(h, k.profile, logins, registry) {
      assert At(u.continuity.lanes, k) == At(w.continuity.lanes, k);
    } else {
      FreshPairsHeadForTheDefault(u.continuity, h, k.profile.value, k);
      FreshPairsHeadForTheDefault(w.continuity, h, k.profile.value, k);
      var d := k.(profile := None);
      assert TurnOf(At(u.continuity.lanes, d)) == TurnOf(At(w.continuity.lanes, d));
    }
  }

  /** and for the same homes. */
  lemma SameTargetHome(w: World, u: World, logins: map<Id, Login>, plan: Books, other: Books, k: HomeKey)
    requires Twins(w, u, logins, plan, other)
    ensures TargetHome(u.continuity, Moves(map[], logins, HARNESSES, k.harness), RowOf(other, k.harness), k)
         == TargetHome(w.continuity, Moves(map[], logins, HARNESSES, k.harness), RowOf(plan, k.harness), k)
  {
    var h, registry := k.harness, w.accounts.registry;
    var d := k.(profile := None);
    assert At(u.continuity.homes, d) == At(w.continuity.homes, d);
    if Migrates(logins, h) {
      var r := d.(profile := Some(ReservedId(registry, h)));
      assert r == k.(profile := Some(ReservedId(registry, h)));
      assert At(u.continuity.homes, r) == None == At(w.continuity.homes, r);
    }
    if k.profile.Some? && Elsewhere(h, k.profile, logins, registry) { assert At(u.continuity.homes, k) == At(w.continuity.homes, k); }
  }

  /** The rows a finished startup plans are the ids its harnesses reserve. */
  lemma PlannedRows(s: State, registry: seq<Row>, plan: Books, h: Id)
    requires IdsFixed(s.w.records, registry) && AllSettled(s.w.records, s.logins, HARNESSES)
    requires BooksOf(s.w) == plan && Migrates(s.logins, h)
    ensures RowOf(plan, h) == ReservedId(registry, h)
  {
    var i :| 0 <= i < |HARNESSES| && HARNESSES[i] == h;
    assert Settled(s.w.records, s.logins, HARNESSES[i]);
  }

  /** A finished startup has no record on its way. */
  lemma FinishedIsPastTheMove(s: State, registry: seq<Row>)
    requires IdsFixed(s.w.records, registry) && AllSettled(s.w.records, s.logins, HARNESSES)
    ensures PastTheMove(s.w.records)
  {
    forall h | h in s.w.records ensures !s.w.records[h].phase.Reserved? && !s.w.records[h].phase.RegistryWritten? {
      assert h in HARNESSES;
      var i :| 0 <= i < |HARNESSES| && HARNESSES[i] == h;
      assert Settled(s.w.records, s.logins, HARNESSES[i]);
    }
  }

  /** A schedule of startups alone that ran to its end, crashed and rerun any number of times. */
  predicate StartsUp(s: State, up: seq<Op>) {
    StartupsOnly(up) && AllSettled(Run(s, up).w.records, s.logins, HARNESSES)
  }

  /** A schedule of startups, rollbacks and crashes in any order that ended with no record left. */
  predicate ComesBack(s: State, passes: seq<Op>) {
    PassesOnly(passes) && Run(s, passes).process.Idle? && Run(s, passes).w.records == map[]
  }

  lemma StartupsAreFresh(w: World, logins: map<Id, Login>, clock: nat, up: seq<Op>)
    requires Untouched(w, logins, clock) && StartupsOnly(up)
    ensures PassesOnly(up) && SoundRun(Start(w, logins, clock), up)
    ensures IdsFixed(Run(Start(w, logins, clock), up).w.records, w.accounts.registry)
    ensures Run(Start(w, logins, clock), up).logins == logins
  {
    var s := Start(w, logins, clock);
    forall i | 0 <= i < |up| ensures up[i].DoBoot? || up[i].DoRollback? || up[i].DoCrash? || up[i].DoWrite? { assert StartupOnly(up[i]); }
    StartIsFresh(w, logins, clock);
    StartupsAreSound(s, up);
    RunKeepsFresh(s, up);
    PassesKeepElsewhere(s, up, w.continuity);
    TwinKeepsItsRegistry(s, up);
  }

  lemma ComingBackRestores(w: World, logins: map<Id, Login>, clock: nat, passes: seq<Op>)
    requires Untouched(w, logins, clock) && ComesBack(Start(w, logins, clock), passes) && SoundRun(Start(w, logins, clock), passes)
    ensures var u := Run(Start(w, logins, clock), passes);
            && Restored(w, u.w) && u.logins == logins
            && GroundFresh(u.w.continuity, map[], w.accounts.registry)
            && ElsewhereKept(u.w.continuity, w.continuity, logins, w.accounts.registry)
  {
    var s := Start(w, logins, clock);
    assert MaintenanceOnly(passes);
    RollbackRestoresTheOriginal(w, logins, clock, passes);
    StartIsFresh(w, logins, clock);
    RunKeepsFresh(s, passes);
    TwinKeepsItsRegistry(s, passes);
    PassesKeepElsewhere(s, passes, w.continuity);
  }

  /** Migrating again: startups, rollbacks and crashes in any order, the rollbacks begun at any
      phase, and at the end no record is left.  A startup from there, crashed and rerun any number
      of times, ends where a startup from the first world ends. */
  lemma MigratesAgainToTheSame(w: World, logins: map<Id, Login>, clock: nat, passes: seq<Op>, again: seq<Op>, up: seq<Op>)
    requires Untouched(w, logins, clock)
    requires ComesBack(Start(w, logins, clock), passes) && SoundRun(Start(w, logins, clock), passes)
    requires StartsUp(Run(Start(w, logins, clock), passes), again) && StartsUp(Start(w, logins, clock), up)
    ensures Agree(Run(Run(Start(w, logins, clock), passes), again).w, Run(Start(w, logins, clock), up).w)
  {
    var s := Start(w, logins, clock);
    var u := Run(s, passes);
    var v, v' := Run(s, up), Run(u, again);
    var plan, other := Plan(BooksOf(w), logins, HARNESSES), Plan(BooksOf(u.w), logins, HARNESSES);
    StartupsAreFresh(w, logins, clock, up);
    ComingBackRestores(w, logins, clock, passes);
    RunHeads(s, up, plan);
    RunHeads(u, again, other);
    FinishedIsTheTarget(w, v.w, logins, HARNESSES, plan);
    FinishedIsTheTarget(u.w, v'.w, logins, HARNESSES, other);
    PlanOfSameBooks(BooksOf(u.w), BooksOf(w), logins, HARNESSES);
    forall h | Migrates(logins, h) ensures RowOf(plan, h) == ReservedId(w.accounts.registry, h) && RowOf(other, h) == RowOf(plan, h) {
      PlannedRows(v, w.accounts.registry, plan, h);
    }
    assert Twins(w, u.w, logins, plan, other);
    BothReachTheTarget(w, u.w, v.w, v'.w, logins, plan, other);
  }

  /** With no stale lane to begin with nothing is asked of the passes. */
  lemma MigratesAgainFromAnyPhase(w: World, logins: map<Id, Login>, clock: nat, passes: seq<Op>, again: seq<Op>, up: seq<Op>)
    requires Untouched(w, logins, clock) && NothingStale(w.continuity, w.accounts.registry)
    requires ComesBack(Start(w, logins, clock), passes)
    requires StartsUp(Run(Start(w, logins, clock), passes), again) && StartsUp(Start(w, logins, clock), up)
    ensures Agree(Run(Run(Start(w, logins, clock), passes), again).w, Run(Start(w, logins, clock), up).w)
  {
    StartIsFresh(w, logins, clock);
    PassesAreSound(Start(w, logins, clock), passes);
    MigratesAgainToTheSame(w, logins, clock, passes, again, up);
  }

  /** Nor when the rollback only begins after the startup has finished, stale lanes or not. */
  lemma MigratesAgainAfterAStartup(w: World, logins: map<Id, Login>, clock: nat, up: seq<Op>, back: seq<Op>, again: seq<Op>)
    requires Untouched(w, logins, clock)
    requires StartsUp(Start(w, logins, clock), up) && Run(Start(w, logins, clock), up).process.Idle?
    requires RollbacksOnly(back) && ComesBack(Run(Start(w, logins, clock), up), back)
    requires StartsUp(Run(Run(Start(w, logins, clock), up), back), again)
    ensures Agree(Run(Run(Run(Start(w, logins, clock), up), back), again).w, Run(Start(w, logins, clock), up).w)
  {
    var s := Start(w, logins, clock);
    var v := Run(s, up);
    StartupsAreFresh(w, logins, clock, up);
    StartIsFresh(w, logins, clock);
    RunKeepsFresh(s, up);
    FinishedIsPastTheMove(v, w.accounts.registry);
    RollbacksAreSound(v, back);
    SoundRunsConcat(s, up, back);
    RunConcat(s, up, back);
    assert PassesOnly(up + back);
    MigratesAgainToTheSame(w, logins, clock, up + back, again, up);
  }

  lemma BothReachTheTarget(w: World, u: World, v: World, v': World, logins: map<Id, Login>, plan: Books, other: Books)
    requires Twins(w, u, logins, plan, other)
    requires Reached(w, v, logins, plan) && Reached(u, v', logins, other)
    requires SameBooks(BooksOf(v'), BooksOf(v))
    ensures Agree(v', v)
  {
    forall k: SessionKey ensures At(v'.continuity.sessions, k) == At(v.continuity.sessions, k) {
      assert At(u.continuity.sessions, k) == At(w.continuity.sessions, k);
    }
    SameMaps(v'.continuity.sessions, v.continuity.sessions);
    forall k: LaneKey ensures TurnOf(At(v'.continuity.lanes, k)) == TurnOf(At(v.continuity.lanes, k)) {
      SameTargetTurn(w, u, logins, plan, other, k);
    }
    forall k: HomeKey ensures At(v'.continuity.homes, k) == At(v.continuity.homes, k) {
      SameTargetHome(w, u, logins, plan, other, k);
    }
  }

  /** What `FinishedIsTheTarget` says of a finished startup from a world without records. */
  ghost predicate Reached(w: World, end: World, logins: map<Id, Login>, plan: Books) {
    && (forall k: SessionKey ::
          At(end.continuity.sessions, k) == TargetSession(w.continuity, Moves(w.records, logins, HARNESSES, k.harness), RowOf(plan, k.harness), k))
    && (forall k: LaneKey ::
          TurnOf(At(end.continuity.lanes, k)) == TargetTurn(w.continuity, Moves(w.records, logins, HARNESSES, k.harness), RowOf(plan, k.harness), k))
    && (forall k: HomeKey ::
          At(end.continuity.homes, k) == TargetHome(w.continuity, Moves(w.records, logins, HARNESSES, k.harness), RowOf(plan, k.harness), k))
  }
}
