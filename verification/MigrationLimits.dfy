/** Where the rollback does not restore what was there, and a reservation is not cleared cleanly:
    concrete runs. */
module MigrationLimits {
  import opened Knowledge
  import opened MigrationModel
  import opened RowIds
  import opened MigrationRuns

  // ---------------------------------------------------------------- concrete runs

  const OLD: Id := "old"
  const NEW: Id := "new"
  const CLAUDE: Id := "claude"
  const ROW: Id := "claude-default"
  const LOGIN := Login("/native", None)
  const LOGINS: map<Id, Login> := map[CLAUDE := LOGIN]
  const DEFAULT_LANE := LaneKey(CLAUDE, "p", "thread", None)
  const ROW_LANE := LaneKey(CLAUDE, "p", "thread", Some(ROW))

  lemma Unroll(s: State, ops: seq<Op>)
    requires ops != []
    ensures Run(s, ops) == Run(Step(s, ops[0]), ops[1..])
  {
  }

  lemma RunThree(s: State, ops: seq<Op>)
    requires |ops| == 3
    ensures Run(s, ops) == Step(Step(Step(s, ops[0]), ops[1]), ops[2])
  {
    Unroll(s, ops);
    Unroll(Step(s, ops[0]), ops[1..]);
    Unroll(Step(Step(s, ops[0]), ops[1]), ops[1..][1..]);
  }

  lemma FirstReservation(a: Accounts, login: Login)
    requires a.registry == []
    ensures Reservation(a, CLAUDE, login) == MigrationModel.Record(Reserved, ROW, login.locator)
  {
    assert !Taken([], Candidate(CLAUDE + "-default", 1));
  }

  /** The harness's record in a phase, and the only one. */
  function Only(phase: Phase): map<Id, Record> {
    map[CLAUDE := MigrationModel.Record(phase, ROW, LOGIN.locator)]
  }

  /** A pass of the given direction is at claude's record. */
  predicate Stage(s: State, forward: bool, queue: seq<Id>, work: set<Unit>, phase: Phase) {
    s.process == Pass(forward, queue, Some(work)) && queue != [] && queue[0] == CLAUDE && s.w.records == Only(phase)
  }

  const RESERVE_AND_REGISTER := [DoBoot, DoWrite(Config), DoWrite(Config)]

  /** The registry holds the migration's row alone. */
  predicate OneRow(registry: seq<Row>) {
    |registry| == 1 && Owns(registry[0], CLAUDE, ROW) && registry[0].locator == Some(LOGIN.locator)
  }

  lemma ReservesAndRegisters(s: State)
    requires s.process.Idle? && s.w.records == map[] && s.w.accounts.registry == [] && s.logins == LOGINS
    ensures var e := Run(s, RESERVE_AND_REGISTER);
            && Stage(e, true, HARNESSES, {}, Reserved) && OneRow(e.w.accounts.registry)
            && e.w.continuity == s.w.continuity && e.twin == s.twin && e.logins == LOGINS
  {
    FirstReservation(s.w.accounts, LOGIN);
    var s1 := Step(s, DoBoot);
    var s2 := Step(s1, DoWrite(Config));
    assert s2.w.records == Only(Reserved);
    assert {Config} - {Config} == {};
    RunThree(s, RESERVE_AND_REGISTER);
  }

  const MOVE := [DoWrite(Config), DoWrite(Sessions("p")), DoWrite(Config)]

  /** Nothing but the named parts of the world changed. */
  predicate Carried(s: State, e: State) {
    e.w.accounts == s.w.accounts && e.twin == s.twin && e.logins == s.logins && e.clock == s.clock + 1
  }

  lemma PhaseStep(s: State, phase: Phase)
    requires Stage(s, true, HARNESSES, {}, phase) && (phase.Reserved? || phase.RegistryWritten?)
    ensures var e := Step(s, DoWrite(Config));
            Stage(e, true, HARNESSES, UnitsOf(s.w.continuity, CLAUDE, NextPhase(phase)), NextPhase(phase))
            && Carried(s, e) && e.w.continuity == s.w.continuity
  {
    assert Step(s, DoWrite(Config)).w.records == Only(NextPhase(phase));
  }

  lemma MoveStep(s: State)
    requires Stage(s, true, HARNESSES, {Sessions("p")}, RegistryWritten)
    ensures var e := Step(s, DoWrite(Sessions("p")));
            Stage(e, true, HARNESSES, {}, RegistryWritten) && Carried(s, e)
            && e.w.continuity == MovePartition(s.w.continuity, CLAUDE, ROW, "p", s.clock)
  {
    assert {Sessions("p")} - {Sessions("p")} == {};
  }

  lemma MoveSteps(s: State)
    requires Stage(s, true, HARNESSES, {}, Reserved) && StoreUnits(s.w.continuity, CLAUDE) == {Sessions("p")}
    ensures var e := Step(Step(Step(s, DoWrite(Config)), DoWrite(Sessions("p"))), DoWrite(Config));
            && Stage(e, true, HARNESSES, {Quota}, ContinuityMigrated)
            && e.w.accounts == s.w.accounts && e.twin == s.twin && e.logins == s.logins
            && e.w.continuity == MovePartition(s.w.continuity, CLAUDE, ROW, "p", s.clock + 1)
  {
    PhaseStep(s, Reserved);
    MoveStep(Step(s, DoWrite(Config)));
    PhaseStep(Step(Step(s, DoWrite(Config)), DoWrite(Sessions("p"))), RegistryWritten);
  }

  lemma MovesThePartition(s: State)
    requires Stage(s, true, HARNESSES, {}, Reserved) && StoreUnits(s.w.continuity, CLAUDE) == {Sessions("p")}
    ensures var e := Run(s, MOVE);
            && Stage(e, true, HARNESSES, {Quota}, ContinuityMigrated)
            && e.w.accounts == s.w.accounts && e.twin == s.twin && e.logins == s.logins
            && e.w.continuity == MovePartition(s.w.continuity, CLAUDE, ROW, "p", s.clock + 1)
  {
    MoveSteps(s);
    RunThree(s, MOVE);
  }

  const COMPLETE := [DoWrite(Quota), DoWrite(Config), DoCrash]

  lemma Completes(s: State)
    requires Stage(s, true, HARNESSES, {Quota}, ContinuityMigrated)
    ensures var e := Run(s, COMPLETE);
            && e.process == Idle && e.w.records == Only(Completed)
            && e.w.accounts == s.w.accounts && e.w.continuity == s.w.continuity && e.twin == s.twin && e.logins == s.logins
  {
    var s1 := Step(s, DoWrite(Quota));
    assert {Quota} - {Quota} == {};
    var s2 := Step(s1, DoWrite(Config));
    assert s2.w.records == Only(Completed);
    RunThree(s, COMPLETE);
  }

  /** Everything of claude's is in one partition and one slot. */
  predicate Small(c: Continuity) {
    StoreUnits(c, CLAUDE) <= {Sessions("p"), Home("slot")}
  }

  lemma SmallKeys(c: Continuity)
    ensures Small(c) <==>
      && (forall k :: k in c.sessions && k.harness == CLAUDE ==> k.partition == "p")
      && (forall k :: k in c.lanes && k.harness == CLAUDE ==> k.partition == "p")
      && (forall k :: k in c.homes && k.harness == CLAUDE ==> k.slot == "slot")
  {
    if Small(c) {
      forall k | k in c.sessions && k.harness == CLAUDE ensures k.partition == "p" { assert Sessions(k.partition) in StoreUnits(c, CLAUDE); }
      forall k | k in c.lanes && k.harness == CLAUDE ensures k.partition == "p" { assert Sessions(k.partition) in StoreUnits(c, CLAUDE); }
      forall k | k in c.homes && k.harness == CLAUDE ensures k.slot == "slot" { assert Home(k.slot) in StoreUnits(c, CLAUDE); }
    }
  }

  lemma ReturnsStaySmall(c: Continuity, u: Unit, now: nat)
    requires Small(c) && (u == Sessions("p") || u == Home("slot"))
    ensures Small(Return(c, CLAUDE, ROW, u, now))
  {
    var c' := Return(c, CLAUDE, ROW, u, now);
    SmallKeys(c);
    SmallKeys(c');
    forall k | k in c'.sessions && k.harness == CLAUDE ensures k.partition == "p" { assert At(c'.sessions, k).Some?; }
    forall k | k in c'.lanes && k.harness == CLAUDE ensures k.partition == "p" { assert At(c'.lanes, k).Some?; }
    forall k | k in c'.homes && k.harness == CLAUDE ensures k.slot == "slot" { assert At(c'.homes, k).Some?; }
  }

  const ROLLBACK := [DoRollback([CLAUDE]), DoWrite(Config), DoWrite(Sessions("p")), DoWrite(Home("slot")), DoWrite(Quota), DoWrite(Config), DoWrite(Config), DoWrite(Config)]

  lemma RollbackBegins(s: State, phase: Phase)
    requires s.process.Idle? && s.w.records == Only(phase)
    ensures var e := Run(s, ROLLBACK[..2]);
            Stage(e, false, [CLAUDE], UnitsOf(s.w.continuity, CLAUDE, RollingBack), RollingBack)
            && e.w.accounts == s.w.accounts && e.w.continuity == s.w.continuity && e.twin == s.twin && e.logins == s.logins
  {
    var s1 := Step(s, ROLLBACK[0]);
    Unroll(s, ROLLBACK[..2]);
    Unroll(s1, ROLLBACK[..2][1..]);
    assert Step(s1, DoWrite(Config)).w.records == Only(RollingBack);
  }

  lemma ReturnStep(s: State, u: Unit, work: set<Unit>)
    requires Stage(s, false, [CLAUDE], work, RollingBack) && Config in work && (u.Sessions? || u.Home?)
    ensures var e := Step(s, DoWrite(u));
            Stage(e, false, [CLAUDE], work - {u}, RollingBack) && Carried(s, e)
            && e.w.continuity == if u in work then Return(s.w.continuity, CLAUDE, ROW, u, s.clock) else s.w.continuity
  {
    if u !in work { assert work - {u} == work; }
  }

  lemma QuotaBack(s: State, work: set<Unit>)
    requires Stage(s, false, [CLAUDE], work, RollingBack) && Quota in work
    ensures var e := Step(s, DoWrite(Quota));
            Stage(e, false, [CLAUDE], work - {Quota}, RollingBack) && Carried(s, e) && e.w.continuity == s.w.continuity
  {
  }

  lemma ConfigBack(s: State)
    requires Stage(s, false, [CLAUDE], {Config}, RollingBack) && OneRow(s.w.accounts.registry)
    ensures var e := Step(s, DoWrite(Config));
            Stage(e, false, [CLAUDE], {}, RollingBack) && e.w.accounts.registry == []
            && e.w.continuity == s.w.continuity && e.twin == s.twin && e.logins == s.logins
  {
    assert {Config} - {Config} == {};
    assert FindRow(s.w.accounts.registry, CLAUDE, ROW) == Some(0);
  }

  lemma RollbackEnds(s: State)
    requires Stage(s, false, [CLAUDE], {}, RollingBack)
    ensures var e := Step(Step(s, DoWrite(Config)), DoWrite(Config));
            e.process.Idle? && e.w.records == map[]
            && e.w.accounts == s.w.accounts && e.w.continuity == s.w.continuity && e.twin == s.twin && e.logins == s.logins
  {
    assert Step(s, DoWrite(Config)).w.records == map[];
  }

  /** The rollback of claude's record, to its end. */
  lemma RollsAllBack(s: State, phase: Phase)
    requires s.process.Idle? && s.w.records == Only(phase) && OneRow(s.w.accounts.registry)
    requires DEFAULT_LANE in s.w.continuity.lanes && ROW_LANE in s.w.continuity.lanes
    requires Small(s.w.continuity)
    ensures var e := Run(s, ROLLBACK);
            && Small(e.w.continuity)
            && e.process.Idle? && e.w.records == map[] && e.w.accounts.registry == [] && e.twin == s.twin && e.logins == s.logins
            && TurnOf(At(e.w.continuity.lanes, DEFAULT_LANE)) == TurnOf(At(e.w.continuity.lanes, ROW_LANE))
            && At(e.w.continuity.lanes, ROW_LANE) == At(s.w.continuity.lanes, ROW_LANE)
            && e.w.continuity.sessions.Keys == s.w.continuity.sessions.Keys
  {
    RollbackBegins(s, phase);
    var s2 := Run(s, ROLLBACK[..2]);
    ReturnsTheStores(s2);
    var s4 := Step(Step(s2, DoWrite(Sessions("p"))), DoWrite(Home("slot")));
    DropsTheRecord(s4);
    RunConcat(s, ROLLBACK[..2], ROLLBACK[2..]);
    assert ROLLBACK == ROLLBACK[..2] + ROLLBACK[2..];
    RunSix(s2, ROLLBACK[2..]);
  }

  lemma ReturnsTheStores(s: State)
    requires Stage(s, false, [CLAUDE], UnitsOf(s.w.continuity, CLAUDE, RollingBack), RollingBack) && Small(s.w.continuity)
    requires DEFAULT_LANE in s.w.continuity.lanes && ROW_LANE in s.w.continuity.lanes
    ensures var c := s.w.continuity;
            var e := Step(Step(s, DoWrite(Sessions("p"))), DoWrite(Home("slot")));
            && Stage(e, false, [CLAUDE], {Quota, Config}, RollingBack)
            && e.w.accounts == s.w.accounts && e.twin == s.twin && e.logins == s.logins && Small(e.w.continuity)
            && TurnOf(At(e.w.continuity.lanes, DEFAULT_LANE)) == TurnOf(At(e.w.continuity.lanes, ROW_LANE))
            && At(e.w.continuity.lanes, ROW_LANE) == At(c.lanes, ROW_LANE)
            && e.w.continuity.sessions.Keys == c.sessions.Keys
  {
    var c := s.w.continuity;
    var work := UnitsOf(c, CLAUDE, RollingBack);
    assert Sessions("p") in work;
    ReturnStep(s, Sessions("p"), work);
    var s3 := Step(s, DoWrite(Sessions("p")));
    ReturnStep(s3, Home("slot"), work - {Sessions("p")});
    LanesOfTheReturn(c, s.clock, s3.clock);
    ReturnsStaySmall(c, Sessions("p"), s.clock);
    ReturnsStaySmall(s3.w.continuity, Home("slot"), s3.clock);
    assert work - {Sessions("p")} - {Home("slot")} == {Quota, Config};
  }

  lemma DropsTheRecord(s: State)
    requires Stage(s, false, [CLAUDE], {Quota, Config}, RollingBack) && OneRow(s.w.accounts.registry)
    ensures var e := Step(Step(Step(Step(s, DoWrite(Quota)), DoWrite(Config)), DoWrite(Config)), DoWrite(Config));
            && e.process.Idle? && e.w.records == map[] && e.w.accounts.registry == [] && e.twin == s.twin && e.logins == s.logins
            && e.w.continuity == s.w.continuity
  {
    QuotaBack(s, {Quota, Config});
    var s5 := Step(s, DoWrite(Quota));
    assert {Quota, Config} - {Quota} == {Config};
    ConfigBack(s5);
    RollbackEnds(Step(s5, DoWrite(Config)));
  }

  lemma RunSix(s: State, ops: seq<Op>)
    requires |ops| == 6
    ensures Run(s, ops) == Step(Step(Step(Step(Step(Step(s, ops[0]), ops[1]), ops[2]), ops[3]), ops[4]), ops[5])
  {
    var s1 := Step(s, ops[0]);
    var s2 := Step(s1, ops[1]);
    var s3 := Step(s2, ops[2]);
    var s4 := Step(s3, ops[3]);
    Unroll(s, ops);
    Unroll(s1, ops[1..]);
    Unroll(s2, ops[1..][1..]);
    Unroll(s3, ops[1..][1..][1..]);
    Unroll(s4, ops[1..][1..][1..][1..]);
    Unroll(Step(s4, ops[4]), ops[1..][1..][1..][1..][1..]);
  }

  lemma LanesOfTheReturn(c: Continuity, now: nat, later: nat)
    requires DEFAULT_LANE in c.lanes && ROW_LANE in c.lanes
    ensures var after := Return(c, CLAUDE, ROW, Sessions("p"), now);
            && TurnOf(At(after.lanes, DEFAULT_LANE)) == TurnOf(At(c.lanes, ROW_LANE))
            && At(after.lanes, ROW_LANE) == At(c.lanes, ROW_LANE)
            && Return(after, CLAUDE, ROW, Home("slot"), later).lanes == after.lanes
            && Return(after, CLAUDE, ROW, Home("slot"), later).sessions == after.sessions && after.sessions.Keys == c.sessions.Keys
  {
    var after := Return(c, CLAUDE, ROW, Sessions("p"), now);
    assert DEFAULT_LANE.(profile := Some(ROW)) == ROW_LANE;
    assert At(after.lanes, DEFAULT_LANE) == LaneReturned(c.lanes, DEFAULT_LANE, CLAUDE, ROW, "p", now);
    assert At(after.lanes, ROW_LANE) == LaneReturned(c.lanes, ROW_LANE, CLAUDE, ROW, "p", now);
    forall k ensures k in after.sessions <==> k in c.sessions { assert At(after.sessions, k) == SessionReturned(c.sessions, k, CLAUDE, ROW, "p"); }
  }

  // ---------------------------------------------------------------- the run that loses a turn

  /** One thread, whose default lane has seen a turn; nothing was ever migrated. */
  const ONE_LANE := World(map[], Accounts([], map[]), Continuity(map[], map[DEFAULT_LANE := Checkpoint(OLD, 1)], map[]), {})

  const SESSION := SessionKey(CLAUDE, "p", "session")

  const NEXT_TURN := DoTurn(Turn(CLAUDE, "p", "thread", "session", NEW, "slot", "content"), None)

  /** Migrated, then rolled back. */
  function OneCycle(): State {
    Run(Run(Run(Run(Start(ONE_LANE, LOGINS, 2), RESERVE_AND_REGISTER), MOVE), COMPLETE), ROLLBACK)
  }

  lemma FirstMove(now: nat)
    ensures StoreUnits(ONE_LANE.continuity, CLAUDE) == {Sessions("p")}
    ensures var c := MovePartition(ONE_LANE.continuity, CLAUDE, ROW, "p", now);
            && Small(c) && SESSION !in c.sessions && TurnOf(At(c.lanes, DEFAULT_LANE)) == Some(OLD) && TurnOf(At(c.lanes, ROW_LANE)) == Some(OLD)
  {
    var c := ONE_LANE.continuity;
    assert DEFAULT_LANE in c.lanes;
    var c' := MovePartition(c, CLAUDE, ROW, "p", now);
    assert ROW_LANE.(profile := None) == DEFAULT_LANE;
    assert At(c'.lanes, DEFAULT_LANE) == LaneMoved(c.lanes, DEFAULT_LANE, CLAUDE, ROW, "p", now);
    assert At(c'.lanes, ROW_LANE) == LaneMoved(c.lanes, ROW_LANE, CLAUDE, ROW, "p", now);
    SmallKeys(c');
    forall k ensures k !in c'.sessions { assert At(c'.sessions, k) == SessionMoved(c.sessions, k, CLAUDE, ROW, "p"); }
    forall k | k in c'.lanes && k.harness == CLAUDE ensures k.partition == "p" {
      assert At(c'.lanes, k) == LaneMoved(c.lanes, k, CLAUDE, ROW, "p", now);
      if k !in c.lanes { assert Within(k, CLAUDE, "p", Some(ROW)); }
    }
  }

  lemma AfterOneCycle()
    ensures var s := OneCycle();
            && s.process.Idle? && s.w.records == map[] && s.w.accounts.registry == [] && s.logins == LOGINS && Small(s.w.continuity)
            && SESSION !in s.w.continuity.sessions
            && TurnOf(At(s.w.continuity.lanes, ROW_LANE)) == Some(OLD)
            && s.twin == Twin(ONE_LANE.accounts, ONE_LANE.continuity)
  {
    var s := Start(ONE_LANE, LOGINS, 2);
    ReservesAndRegisters(s);
    var a := Run(s, RESERVE_AND_REGISTER);
    FirstMove(a.clock + 1);
    MovesThePartition(a);
    var b := Run(a, MOVE);
    Completes(b);
    RollsAllBack(Run(b, COMPLETE), Completed);
  }

  lemma TurnAfterOneCycle()
    ensures var s := Step(OneCycle(), NEXT_TURN);
            && s.process.Idle? && s.w.records == map[] && s.w.accounts.registry == [] && s.logins == LOGINS && Small(s.w.continuity)
            && DEFAULT_LANE in s.w.continuity.lanes && ROW_LANE in s.w.continuity.lanes
            && TurnOf(At(s.w.continuity.lanes, ROW_LANE)) == Some(OLD)
            && TurnOf(At(s.w.continuity.lanes, DEFAULT_LANE)) == Some(NEW)
            && TurnOf(At(s.twin.continuity.lanes, DEFAULT_LANE)) == Some(NEW)
  {
    AfterOneCycle();
    TurnOnNull(OneCycle());
  }

  lemma TurnOnNull(s: State)
    requires s.w.records == map[] && Small(s.w.continuity)
    requires SESSION !in s.w.continuity.sessions
    ensures var e := Step(s, NEXT_TURN);
            && e.process == s.process && e.w.records == map[] && e.w.accounts == s.w.accounts && e.logins == s.logins && Small(e.w.continuity)
            && At(e.w.continuity.lanes, DEFAULT_LANE) == Some(Checkpoint(NEW, s.clock))
            && At(e.w.continuity.lanes, ROW_LANE) == At(s.w.continuity.lanes, ROW_LANE)
            && At(e.twin.continuity.lanes, DEFAULT_LANE) == Some(Checkpoint(NEW, s.clock))
  {
    var e := Step(s, NEXT_TURN);
    assert e.w.continuity == Recorded(s.w.continuity, NEXT_TURN.t, None, s.clock);
    SmallKeys(s.w.continuity);
    SmallKeys(e.w.continuity);
  }

  /** A migration, its rollback, one more turn, a second migration that crashes after its config
      write, and its rollback: the default lane is back at the turn before, while the engine that
      never migrates has seen the new one. */
  lemma StaleLaneRegresses()
    ensures var begun := Run(Step(OneCycle(), NEXT_TURN), RESERVE_AND_REGISTER);
            var s := Run(Step(begun, DoCrash), ROLLBACK);
            && s.w.records == map[]
            && TurnOf(At(s.w.continuity.lanes, DEFAULT_LANE)) == Some(OLD)
            && TurnOf(At(s.twin.continuity.lanes, DEFAULT_LANE)) == Some(NEW)
  {
    var turned := Step(OneCycle(), NEXT_TURN);
    TurnAfterOneCycle();
    ReservesAndRegisters(turned);
    var crashed := Step(Run(turned, RESERVE_AND_REGISTER), DoCrash);
    assert crashed.w == Run(turned, RESERVE_AND_REGISTER).w;
    RollsAllBack(crashed, Reserved);
  }

  // ---------------------------------------------------------------- the run that leaves a row

  const EMPTY := World(map[], Accounts([], map[]), Continuity(map[], map[], map[]), {})

  const LOGIN_GONE := [DoLogin(CLAUDE, None), DoBoot, DoWrite(Config)]

  /** A crash between the config write and the phase write, and then the login vanishes: the
      reservation is cleared, but the row it registered stays. */
  lemma ClearedReservationLeavesItsRow()
    ensures var s := Run(Step(Run(Start(EMPTY, LOGINS, 1), RESERVE_AND_REGISTER), DoCrash), LOGIN_GONE);
            s.w.records == map[] && s.w.accounts.registry != EMPTY.accounts.registry
  {
    ReservesAndRegisters(Start(EMPTY, LOGINS, 1));
    var s := Step(Run(Start(EMPTY, LOGINS, 1), RESERVE_AND_REGISTER), DoCrash);
    var s2 := Step(Step(s, DoLogin(CLAUDE, None)), DoBoot);
    assert s2.process.queue[0] == CLAUDE && CLAUDE !in s2.logins;
    assert Step(s2, DoWrite(Config)).w.records == map[];
    RunThree(s, LOGIN_GONE);
  }
}
