/** The ground stays fresh: the id a harness reserves is the same over a whole run, nothing but
    inert lanes ever lies under it while no record is open, and so freshness is only asked of the
    first world. */
module MigrationFreshness {
  import opened Knowledge
  import opened MigrationModel
  import opened RowIds
  import opened MigrationRuns
  import opened MigrationTwin
  import opened MigrationSafety
  import opened Sequences

  // ---------------------------------------------------------------- reserved ids do not interfere

  predicate IsDigit(c: char) { '0' <= c <= '9' }

  lemma {:induction false} DecimalHasDigits(n: nat)
    ensures forall i :: 0 <= i < |Decimal(n)| ==> IsDigit(Decimal(n)[i])
  {
    var digits := "0123456789";
    assert forall d :: 0 <= d < 10 ==> IsDigit(digits[d]);
    if n >= 10 { DecimalHasDigits(n / 10); }
  }

  /** Two strings that end in "-" and digits split there in one way only. */
  lemma SuffixesSplit(a: string, x: string, b: string, y: string)
    requires a + "-" + x == b + "-" + y
    requires forall i :: 0 <= i < |x| ==> IsDigit(x[i])
    requires forall i :: 0 <= i < |y| ==> IsDigit(y[i])
    ensures a == b
  {
    var s := a + "-" + x;
    assert s[|a|] == '-' && s[|b|] == '-';
    assert forall i :: |a| < i < |s| ==> s[i] == x[i - |a| - 1];
    assert forall i :: |b| < i < |s| ==> s[i] == y[i - |b| - 1];
    assert |a| == |b|;
    assert s[..|a|] == a && s[..|b|] == b;
  }

  lemma BasesDiffer(h: Id, g: Id)
    requires h + "-default" == g + "-default"
    ensures h == g
  {
    var s := h + "-default";
    assert |h| == |g|;
    assert s[..|h|] == h && s[..|g|] == g;
  }

  lemma BasesHaveNoSuffix(h: Id, b: string, y: string)
    requires |y| > 0 && forall i :: 0 <= i < |y| ==> IsDigit(y[i])
    ensures h + "-default" != b + "-" + y
  {
    var s, t := h + "-default", b + "-" + y;
    assert s[|s| - 1] == 't' && t[|t| - 1] == y[|y| - 1];
  }

  /** Candidates of different harnesses are never the same. */
  lemma HarnessesReserveApart(h: Id, i: nat, g: Id, j: nat)
    requires Candidate(h + "-default", i) == Candidate(g + "-default", j)
    ensures h == g
  {
    DecimalHasDigits(i);
    DecimalHasDigits(j);
    if i > 1 && j > 1 {
      SuffixesSplit(h + "-default", Decimal(i), g + "-default", Decimal(j));
      BasesDiffer(h, g);
    } else if i <= 1 && j <= 1 {
      BasesDiffer(h, g);
    } else if i <= 1 {
      BasesHaveNoSuffix(h, g + "-default", Decimal(j));
    } else {
      BasesHaveNoSuffix(g, h + "-default", Decimal(i));
    }
  }

  /** Every open record holds the id its harness reserves over the original registry. */
  ghost predicate IdsFixed(records: map<Id, Record>, registry: seq<Row>) {
    forall h :: h in records ==> h in HARNESSES && records[h].rowId == ReservedId(registry, h)
  }

  lemma MigratedRowsTakeNoCandidate(a: Accounts, t: Accounts, records: map<Id, Record>, h: Id, i: nat)
    requires AccountsKept(a, t, records) && IdsFixed(records, t.registry) && h !in records
    ensures Taken(a.registry, Candidate(h + "-default", i)) <==> Taken(t.registry, Candidate(h + "-default", i))
  {
    var id := Candidate(h + "-default", i);
    if Taken(a.registry, id) {
      var j :| 0 <= j < |a.registry| && a.registry[j].id == id;
      var row := a.registry[j];
      FilterMembers(a.registry, NotCreated(records), row);
      if Created(records, row) {
        HarnessesReserveApart(h, i, row.harness, FirstFree(t.registry, row.harness + "-default", 1));
      }
      var k :| 0 <= k < |t.registry| && t.registry[k] == row;
    }
    if Taken(t.registry, id) {
      var j :| 0 <= j < |t.registry| && t.registry[j].id == id;
      FilterMembers(a.registry, NotCreated(records), t.registry[j]);
      assert t.registry[j] in a.registry;
    }
  }

  /** Whichever other migrations are open, the harness reserves the same id. */
  lemma TheReservedIdStays(a: Accounts, t: Accounts, records: map<Id, Record>, h: Id)
    requires AccountsKept(a, t, records) && IdsFixed(records, t.registry) && h !in records
    ensures ReservedId(a.registry, h) == ReservedId(t.registry, h)
  {
    var base := h + "-default";
    var i, j := FirstFree(a.registry, base, 1), FirstFree(t.registry, base, 1);
    forall n: nat ensures Taken(a.registry, Candidate(base, n)) <==> Taken(t.registry, Candidate(base, n)) {
      MigratedRowsTakeNoCandidate(a, t, records, h, n);
    }
    assert i == j;
  }

  // ---------------------------------------------------------------- the ground stays fresh

  /** No row of the harness is at its login's locator. */
  ghost predicate LoginsNew(logins: map<Id, Login>, registry: seq<Row>) {
    forall h :: h in logins ==> FindLocator(registry, h, logins[h].locator).None?
  }

  ghost predicate GroundFresh(c: Continuity, records: map<Id, Record>, registry: seq<Row>) {
    forall h :: h in HARNESSES && h !in records ==> FreshContinuity(c, h, ReservedId(registry, h))
  }

  predicate QueueKnown(p: Process) {
    p.Pass? && p.forward ==> forall i :: 0 <= i < |p.queue| ==> p.queue[i] in HARNESSES
  }

  ghost predicate FreshInv(s: State) {
    && Inv(s)
    && IdsFixed(s.w.records, s.twin.accounts.registry)
    && GroundFresh(s.w.continuity, s.w.records, s.twin.accounts.registry)
    && LoginsNew(s.logins, s.twin.accounts.registry)
    && QueueKnown(s.process)
  }

  /** What a caller has to see to, step by step: a login that appears is not at a row of the
      harness, a reservation is only cleared when its row was not registered, and a rollback from
      before the continuity move meets no stale row lane. */
  ghost predicate Sound(s: State, op: Op) {
    && (op.DoLogin? && op.login.Some? ==> FindLocator(s.twin.accounts.registry, op.harness, op.login.value.locator).None?)
    && (op.DoWrite? && s.process.Pass? && s.process.queue != [] && s.process.work == None && s.process.queue[0] in s.w.records ==>
          var h := s.process.queue[0];
          var r := s.w.records[h];
          if s.process.forward then r.phase.Reserved? && h !in s.logins ==> Own(s.w.accounts.registry, h, r.rowId) == []
          else r.phase.Reserved? || r.phase.RegistryWritten? ==> NoStaleLane(s.w.continuity, h, r.rowId))
  }

  ghost predicate SoundRun(s: State, ops: seq<Op>)
    decreases |ops|
  {
    ops == [] || (Sound(s, ops[0]) && SoundRun(Step(s, ops[0]), ops[1..]))
  }

  lemma LocatorsStayFree(a: Accounts, t: Accounts, records: map<Id, Record>, h: Id, locator: string)
    requires AccountsKept(a, t, records) && h !in records && FindLocator(t.registry, h, locator).None?
    ensures FindLocator(a.registry, h, locator).None?
  {
    var found := FindLocator(a.registry, h, locator);
    if found.Some? { FilterMembers(a.registry, NotCreated(records), found.value); }
  }

  /** On ground that stays fresh a reservation is clean of itself. */
  lemma SoundIsClean(s: State, op: Op)
    requires FreshInv(s) && Sound(s, op)
    ensures Clean(s, op)
  {
    if op.DoWrite? && s.process.Pass? && s.process.queue != [] && s.process.work == None && s.process.forward {
      var h := s.process.queue[0];
      if h !in s.w.records && h in s.logins {
        LocatorsStayFree(s.w.accounts, s.twin.accounts, s.w.records, h, s.logins[h].locator);
        TheReservedIdStays(s.w.accounts, s.twin.accounts, s.w.records, h);
      }
    }
  }

  lemma FreshnessDependsOnItsHarness(c: Continuity, c': Continuity, h: Id, row: Id)
    requires FreshContinuity(c, h, row) && SameFor(c, c', h)
    ensures FreshContinuity(c', h, row)
  {
    forall k: LaneKey | k.harness == h && k.profile == None ensures NotAhead(At(c'.lanes, k), At(c'.lanes, k.(profile := Some(row)))) {
      assert At(c'.lanes, k) == At(c.lanes, k);
    }
  }

  /** A turn moves a default lane to a later instant than any inert row lane. */
  lemma TurnKeepsGroundFresh(c: Continuity, t: Turn, subject: Option<Id>, now: nat, row: Id)
    requires FreshContinuity(c, t.harness, row) && Past(c, now) && subject != Some(row)
    ensures FreshContinuity(Recorded(c, t, subject, now), t.harness, row)
  {
    var c' := Recorded(c, t, subject, now);
    forall k: LaneKey | k.harness == t.harness && k.profile == None
      ensures NotAhead(At(c'.lanes, k), At(c'.lanes, k.(profile := Some(row))))
    {
      var k' := k.(profile := Some(row));
      assert At(c'.lanes, k') == At(c.lanes, k') && NotAhead(At(c.lanes, k), At(c.lanes, k'));
      if k' in c.lanes { assert c.lanes[k'].at < now; }
    }
    forall k: HomeKey | k.harness == t.harness && k.profile == None ensures At(c'.homes, k.(profile := Some(row))) == None {
      assert At(c'.homes, k.(profile := Some(row))) == At(c.homes, k.(profile := Some(row)));
    }
  }

  lemma ReservedIsFresh(c: Continuity, t: Continuity, registry: seq<Row>, h: Id, r: Record)
    requires ContinuityKept(c, t, registry, h, Some(r)) && r.phase.Reserved?
    ensures FreshContinuity(c, h, r.rowId)
  {
    forall k: LaneKey | k.harness == h && k.profile == None ensures NotAhead(At(c.lanes, k), At(c.lanes, k.(profile := Some(r.rowId)))) {
      assert LaneKept(At(c.lanes, k), At(c.lanes, k.(profile := Some(r.rowId))), At(t.lanes, k), Reserved);
    }
    forall k: HomeKey | k.harness == h && k.profile == None ensures At(c.homes, k.(profile := Some(r.rowId))) == None {
      assert HomeKept(At(c.homes, k), At(c.homes, k.(profile := Some(r.rowId))), At(t.homes, k), Reserved);
    }
  }

  lemma RolledBackIsFresh(c: Continuity, t: Continuity, registry: seq<Row>, h: Id, r: Record)
    requires ContinuityKept(c, t, registry, h, Some(r)) && r.phase.RollingBack? && StoresDone(c, t, h, r, {}, false)
    ensures FreshContinuity(c, h, r.rowId) && NoStaleLane(c, h, r.rowId)
  {
    forall k: SessionKey | k.harness == h ensures At(c.sessions, k) != Some(Some(r.rowId)) {
      assert SessionMay(At(c.sessions, k), At(t.sessions, k), r.rowId);
    }
    forall k: LaneKey | k.harness == h && k.profile == None
      ensures NotStale(At(c.lanes, k), At(c.lanes, k.(profile := Some(r.rowId))))
    {
      assert LaneKept(At(c.lanes, k), At(c.lanes, k.(profile := Some(r.rowId))), At(t.lanes, k), RollingBack);
    }
    forall k: HomeKey | k.harness == h && k.profile == None ensures At(c.homes, k.(profile := Some(r.rowId))) == None {
      assert HomeBefore(At(c.homes, k), At(c.homes, k.(profile := Some(r.rowId))), At(t.homes, k));
    }
  }

  lemma StepKeepsIds(s: State, op: Op)
    requires FreshInv(s) && Sound(s, op)
    ensures IdsFixed(Step(s, op).w.records, s.twin.accounts.registry)
  {
    var next := Step(s, op);
    forall h | h in next.w.records ensures h in HARNESSES && next.w.records[h].rowId == ReservedId(s.twin.accounts.registry, h) {
      RecordsOfAStep(s, op, h);
      RecordsLiveOn(s, op, h);
      if h !in s.w.records {
        LocatorsStayFree(s.w.accounts, s.twin.accounts, s.w.records, h, s.logins[h].locator);
        TheReservedIdStays(s.w.accounts, s.twin.accounts, s.w.records, h);
      }
    }
  }

  lemma StoreWriteKeepsGround(c: Continuity, h: Id, hRow: Id, u: Unit, now: nat, g: Id, row: Id)
    requires FreshContinuity(c, g, row) && g != h
    ensures FreshContinuity(Move(c, h, hRow, u, now), g, row) && FreshContinuity(Return(c, h, hRow, u, now), g, row)
  {
    WritesStayInTheirHarness(c, h, g, hRow, u, now);
    FreshnessDependsOnItsHarness(c, Move(c, h, hRow, u, now), g, row);
    FreshnessDependsOnItsHarness(c, Return(c, h, hRow, u, now), g, row);
  }

  lemma TurnStepKeepsGround(w: World, t: Turn, pin: Option<Id>, now: nat, g: Id, row: Id)
    requires Runs(w, t, pin) && g !in w.records && !Taken(w.accounts.registry, row)
    requires FreshContinuity(w.continuity, g, row) && Past(w.continuity, now)
    ensures FreshContinuity(Recorded(w.continuity, t, SubjectOf(w, t.harness, pin), now), g, row)
  {
    var subject := SubjectOf(w, t.harness, pin);
    if g == t.harness {
      NotTakenNotRegistered(w.accounts.registry, g, row);
      TurnKeepsGroundFresh(w.continuity, t, subject, now, row);
    } else {
      TurnStaysInItsHarness(w.continuity, t, subject, now, g);
      FreshnessDependsOnItsHarness(w.continuity, Recorded(w.continuity, t, subject, now), g, row);
    }
  }

  /** Both writes that close a record leave fresh ground. */
  lemma ClearLeavesGroundFresh(s: State, h: Id)
    requires Inv(s) && h in s.w.records && s.w.records[h].phase.Reserved?
    ensures FreshContinuity(s.w.continuity, h, s.w.records[h].rowId)
  {
    assert ContinuityKept(s.w.continuity, s.twin.continuity, s.twin.accounts.registry, h, At(s.w.records, h));
    ReservedIsFresh(s.w.continuity, s.twin.continuity, s.twin.accounts.registry, h, s.w.records[h]);
  }

  lemma RollbackLeavesGroundFresh(s: State, h: Id)
    requires Inv(s) && s.process.Pass? && !s.process.forward && s.process.queue != [] && s.process.queue[0] == h
    requires s.process.work == Some({})
    ensures h in s.w.records
    ensures FreshContinuity(s.w.continuity, h, s.w.records[h].rowId) && NoStaleLane(s.w.continuity, h, s.w.records[h].rowId)
  {
    assert ContinuityKept(s.w.continuity, s.twin.continuity, s.twin.accounts.registry, h, At(s.w.records, h));
    RolledBackIsFresh(s.w.continuity, s.twin.continuity, s.twin.accounts.registry, h, s.w.records[h]);
  }

  lemma ClosingStepKeepsGround(s: State, op: Op, g: Id)
    requires FreshInv(s) && g in s.w.records && g !in Step(s, op).w.records
    ensures FreshContinuity(Step(s, op).w.continuity, g, ReservedId(s.twin.accounts.registry, g))
  {
    RecordsLiveOn(s, op, g);
    ContinuityOfAStep(s, op);
    if s.process.forward { ClearLeavesGroundFresh(s, g); } else { RollbackLeavesGroundFresh(s, g); }
  }

  lemma OpenStepKeepsGround(s: State, op: Op, g: Id)
    requires FreshInv(s) && g in HARNESSES && g !in s.w.records
    ensures FreshContinuity(Step(s, op).w.continuity, g, ReservedId(s.twin.accounts.registry, g))
  {
    var row := ReservedId(s.twin.accounts.registry, g);
    assert FreshContinuity(s.w.continuity, g, row);
    ContinuityOfAStep(s, op);
    TheReservedIdStays(s.w.accounts, s.twin.accounts, s.w.records, g);
    if op.DoTurn? && Runs(s.w, op.t, op.pin) {
      TurnStepKeepsGround(s.w, op.t, op.pin, s.clock, g, row);
    } else if op.DoWrite? && s.process.Pass? && s.process.queue != [] && s.process.queue[0] in s.w.records {
      var h := s.process.queue[0];
      StoreWriteKeepsGround(s.w.continuity, h, s.w.records[h].rowId, op.which, s.clock, g, row);
    }
  }

  lemma StepKeepsQueue(s: State, op: Op)
    requires QueueKnown(s.process)
    ensures QueueKnown(Step(s, op).process)
  {
  }

  lemma StepKeepsLogins(s: State, op: Op)
    requires LoginsNew(s.logins, s.twin.accounts.registry) && Sound(s, op)
    ensures LoginsNew(Step(s, op).logins, s.twin.accounts.registry)
  {
  }

  lemma StepKeepsFresh(s: State, op: Op)
    requires FreshInv(s) && Sound(s, op)
    ensures FreshInv(Step(s, op))
  {
    SoundIsClean(s, op);
    StepKeeps(s, op);
    StepKeepsIds(s, op);
    StepKeepsQueue(s, op);
    StepKeepsLogins(s, op);
    RecordsOfAStep(s, op, "");
    var next := Step(s, op);
    forall g | g in HARNESSES && g !in next.w.records
      ensures FreshContinuity(next.w.continuity, g, ReservedId(next.twin.accounts.registry, g))
    {
      if g in s.w.records { ClosingStepKeepsGround(s, op, g); } else { OpenStepKeepsGround(s, op, g); }
    }
  }

  lemma {:induction false} RunKeepsFresh(s: State, ops: seq<Op>)
    requires FreshInv(s) && SoundRun(s, ops)
    ensures FreshInv(Run(s, ops))
    decreases |ops|
  {
    if ops != [] {
      StepKeepsFresh(s, ops[0]);
      RunKeepsFresh(Step(s, ops[0]), ops[1..]);
    }
  }

  // ---------------------------------------------------------------- the first world

  /** A world no migration has touched: no records, nothing but inert lanes under the ids the
      harnesses would reserve, and no row at a login's locator. */
  ghost predicate Untouched(w: World, logins: map<Id, Login>, clock: nat) {
    && w.records == map[] && Past(w.continuity, clock)
    && GroundFresh(w.continuity, w.records, w.accounts.registry)
    && LoginsNew(logins, w.accounts.registry)
  }

  lemma StartIsFresh(w: World, logins: map<Id, Login>, clock: nat)
    requires Untouched(w, logins, clock)
    ensures FreshInv(Start(w, logins, clock))
  {
    FilterKeepsAll(w.accounts.registry, NotCreated(w.records));
    forall h ensures ContinuityKept(w.continuity, w.continuity, w.accounts.registry, h, At(w.records, h)) {
    }
  }

  /** Over a whole run every open record holds the id its harness reserves in the first world, and
      wherever no record is open the ground under that id is fresh. */
  lemma TheGroundStaysFresh(w: World, logins: map<Id, Login>, clock: nat, ops: seq<Op>, h: Id)
    requires Untouched(w, logins, clock) && SoundRun(Start(w, logins, clock), ops) && h in HARNESSES
    ensures var s := Run(Start(w, logins, clock), ops);
            var id := ReservedId(w.accounts.registry, h);
            if h in s.w.records then s.w.records[h].rowId == id
            else FreshContinuity(s.w.continuity, h, id) && ReservedId(s.w.accounts.registry, h) == id
  {
    var s := Run(Start(w, logins, clock), ops);
    StartIsFresh(w, logins, clock);
    RunKeepsFresh(Start(w, logins, clock), ops);
    TwinKeepsItsRegistry(Start(w, logins, clock), ops);
    if h !in s.w.records { TheReservedIdStays(s.w.accounts, s.twin.accounts, s.w.records, h); }
  }

  lemma {:induction false} TwinKeepsItsRegistry(s: State, ops: seq<Op>)
    ensures Run(s, ops).twin.accounts.registry == s.twin.accounts.registry
    decreases |ops|
  {
    if ops != [] {
      RecordsOfAStep(s, ops[0], "");
      TwinKeepsItsRegistry(Step(s, ops[0]), ops[1..]);
    }
  }
}
