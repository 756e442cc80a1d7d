/** The migration is transparent: over every run with crashes, a harness behind an open gate
    sees exactly what the engine that never migrates would see, and a finished rollback leaves
    exactly that engine's state. */
module MigrationTwin {
  import opened Knowledge
  import opened MigrationModel
  import opened MigrationRuns
  import opened Sequences

  // ---------------------------------------------------------------- accounts

  /** The row was put there by a migration under way or completed. */
  predicate Created(records: map<Id, Record>, row: Row) {
    row.harness in records && records[row.harness].rowId == row.id
  }

  function NotCreated(records: map<Id, Record>): Row -> bool { row => !Created(records, row) }
  function OwnedBy(h: Id, id: Id): Row -> bool { row => Owns(row, h, id) }

  /** The registry without the migrated rows. */
  function Foreign(registry: seq<Row>, records: map<Id, Record>): seq<Row> {
    Filter(registry, NotCreated(records))
  }

  function Own(registry: seq<Row>, h: Id, id: Id): seq<Row> {
    Filter(registry, OwnedBy(h, id))
  }

  /** The harness's row while its record lives: at most one, at the record's locator, enabled as
      the twin's switch says; its id and locator are new to the twin. */
  ghost predicate RowKept(a: Accounts, t: Accounts, h: Id, r: Record) {
    var own := Own(a.registry, h, r.rowId);
    && !Taken(t.registry, r.rowId)
    && (forall row :: row in t.registry && row.harness == h ==> row.locator != Some(r.locator))
    && |own| <= 1
    && if own == [] then (r.phase.Reserved? || r.phase.RollingBack?) && (NativeOn(a, h) <==> NativeOn(t, h))
       else own[0].locator == Some(r.locator) && (own[0].enabled <==> NativeOn(t, h))
  }

  ghost predicate AccountsKept(a: Accounts, t: Accounts, records: map<Id, Record>) {
    && Foreign(a.registry, records) == t.registry
    && (forall h :: h in records ==> RowKept(a, t, h, records[h]))
    && (forall h :: h !in records ==> (NativeOn(a, h) <==> NativeOn(t, h)))
  }

  // ---------------------------------------------------------------- continuity

  predicate SessionMay(s: Option<Option<Id>>, t: Option<Option<Id>>, row: Id) {
    t != Some(Some(row)) && (s == t || (t == Some(None) && s == Some(Some(row))))
  }

  predicate SessionAfter(s: Option<Option<Id>>, t: Option<Option<Id>>, row: Id) {
    t != Some(Some(row)) && s == if t == Some(None) then Some(Some(row)) else t
  }

  predicate LaneBefore(default: Option<Checkpoint>, row: Option<Checkpoint>, t: Option<Checkpoint>) {
    TurnOf(default) == TurnOf(t) && NotAhead(default, row)
  }

  predicate LaneAfter(default: Option<Checkpoint>, row: Option<Checkpoint>, t: Option<Checkpoint>) {
    TurnOf(row) == TurnOf(t) && (default.Some? ==> row.Some?)
  }

  predicate LaneBack(default: Option<Checkpoint>, row: Option<Checkpoint>, t: Option<Checkpoint>) {
    TurnOf(t) == TurnOf(if row.Some? then row else default)
  }

  predicate HomeBefore(default: Option<Id>, row: Option<Id>, t: Option<Id>) { default == t && row == None }
  predicate HomeAfter(default: Option<Id>, row: Option<Id>, t: Option<Id>) { default == None && row == t }
  predicate HomeMay(default: Option<Id>, row: Option<Id>, t: Option<Id>) { HomeBefore(default, row, t) || HomeAfter(default, row, t) }

  ghost predicate SessionsKept(c: Continuity, t: Continuity, h: Id, r: Option<Record>) {
    forall k: SessionKey :: k.harness == h ==>
      match r
      case None => At(c.sessions, k) == At(t.sessions, k)
      case Some(v) =>
        match v.phase
        case Reserved => At(t.sessions, k) != Some(Some(v.rowId)) && At(c.sessions, k) == At(t.sessions, k)
        case RegistryWritten => SessionMay(At(c.sessions, k), At(t.sessions, k), v.rowId)
        case RollingBack => SessionMay(At(c.sessions, k), At(t.sessions, k), v.rowId)
        case ContinuityMigrated => SessionAfter(At(c.sessions, k), At(t.sessions, k), v.rowId)
        case Completed => SessionAfter(At(c.sessions, k), At(t.sessions, k), v.rowId)
  }

  predicate LaneKept(default: Option<Checkpoint>, row: Option<Checkpoint>, t: Option<Checkpoint>, phase: Phase) {
    match phase
    case Reserved => LaneBefore(default, row, t)
    case RegistryWritten => LaneBefore(default, row, t)
    case RollingBack => LaneBack(default, row, t)
    case ContinuityMigrated => LaneAfter(default, row, t)
    case Completed => LaneAfter(default, row, t)
  }

  ghost predicate LanesKept(c: Continuity, t: Continuity, h: Id, r: Option<Record>) {
    forall k: LaneKey :: k.harness == h && k.profile == None ==>
      match r
      case None => TurnOf(At(c.lanes, k)) == TurnOf(At(t.lanes, k))
      case Some(v) => LaneKept(At(c.lanes, k), At(c.lanes, k.(profile := Some(v.rowId))), At(t.lanes, k), v.phase)
  }

  predicate HomeKept(default: Option<Id>, row: Option<Id>, t: Option<Id>, phase: Phase) {
    match phase
    case Reserved => HomeBefore(default, row, t)
    case RegistryWritten => HomeMay(default, row, t)
    case RollingBack => HomeMay(default, row, t)
    case ContinuityMigrated => HomeAfter(default, row, t)
    case Completed => HomeAfter(default, row, t)
  }

  ghost predicate HomesKept(c: Continuity, t: Continuity, h: Id, r: Option<Record>) {
    forall k: HomeKey :: k.harness == h && k.profile == None ==>
      match r
      case None => At(c.homes, k) == At(t.homes, k)
      case Some(v) => HomeKept(At(c.homes, k), At(c.homes, k.(profile := Some(v.rowId))), At(t.homes, k), v.phase)
  }

  /** Lanes and homes of the accounts that were registered all along. */
  ghost predicate OthersKept(c: Continuity, t: Continuity, h: Id, registry: seq<Row>) {
    && (forall k: LaneKey :: k.harness == h && k.profile.Some? && Registered(registry, h, k.profile.value) ==>
          TurnOf(At(c.lanes, k)) == TurnOf(At(t.lanes, k)))
    && (forall k: HomeKey :: k.harness == h && k.profile.Some? && Registered(registry, h, k.profile.value) ==>
          At(c.homes, k) == At(t.homes, k))
  }

  ghost predicate ContinuityKept(c: Continuity, t: Continuity, registry: seq<Row>, h: Id, r: Option<Record>) {
    SessionsKept(c, t, h, r) && LanesKept(c, t, h, r) && HomesKept(c, t, h, r) && OthersKept(c, t, h, registry)
  }

  // ---------------------------------------------------------------- progress of a pass

  /** The writes of this phase that are no longer on the work list took effect. */
  ghost predicate SessionsDone(c: Continuity, t: Continuity, h: Id, r: Record, work: set<Unit>, forward: bool) {
    forall k: SessionKey :: k.harness == h && Sessions(k.partition) !in work ==>
      if forward then SessionAfter(At(c.sessions, k), At(t.sessions, k), r.rowId)
      else At(c.sessions, k) == At(t.sessions, k)
  }

  ghost predicate LanesDone(c: Continuity, h: Id, r: Record, work: set<Unit>, t: Continuity, forward: bool) {
    forall k: LaneKey :: k.harness == h && k.profile == None && Sessions(k.partition) !in work ==>
      if forward then TurnOf(At(c.lanes, k)) == TurnOf(At(c.lanes, k.(profile := Some(r.rowId))))
      else TurnOf(At(c.lanes, k)) == TurnOf(At(t.lanes, k))
  }

  ghost predicate HomesDone(c: Continuity, t: Continuity, h: Id, r: Record, work: set<Unit>, forward: bool) {
    forall k: HomeKey :: k.harness == h && k.profile == None && Home(k.slot) !in work ==>
      if forward then HomeAfter(At(c.homes, k), At(c.homes, k.(profile := Some(r.rowId))), At(t.homes, k))
      else HomeBefore(At(c.homes, k), At(c.homes, k.(profile := Some(r.rowId))), At(t.homes, k))
  }

  ghost predicate StoresDone(c: Continuity, t: Continuity, h: Id, r: Record, work: set<Unit>, forward: bool) {
    SessionsDone(c, t, h, r, work, forward) && LanesDone(c, h, r, work, t, forward) && HomesDone(c, t, h, r, work, forward)
  }

  ghost predicate ConfigDone(a: Accounts, h: Id, r: Record, work: set<Unit>, forward: bool) {
    Config !in work ==> (forward <==> Own(a.registry, h, r.rowId) != [])
  }

  /** How far a pass got with the current phase of one harness. */
  ghost predicate Underway(a: Accounts, c: Continuity, t: Continuity, h: Id, r: Record, work: set<Unit>, forward: bool) {
    if !forward then r.phase.RollingBack? && StoresDone(c, t, h, r, work, false) && ConfigDone(a, h, r, work, false)
    else match r.phase
      case Reserved => work <= {Config} && ConfigDone(a, h, r, work, true)
      case RegistryWritten => (forall u :: u in work ==> u.Sessions? || u.Home?) && StoresDone(c, t, h, r, work, true)
      case ContinuityMigrated => work <= {Quota}
      case Completed => false
      case RollingBack => false
  }

  ghost predicate Progress(s: State) {
    s.process.Pass? && s.process.queue != [] && s.process.work.Some? ==>
      var h := s.process.queue[0];
      h in s.w.records &&
      Underway(s.w.accounts, s.w.continuity, s.twin.continuity, h, s.w.records[h], s.process.work.value, s.process.forward)
  }

  ghost predicate Past(c: Continuity, clock: nat) {
    forall k :: k in c.lanes ==> c.lanes[k].at < clock
  }

  /** The stores half of the invariant, for all harnesses. */
  ghost predicate AllKept(c: Continuity, t: Continuity, registry: seq<Row>, records: map<Id, Record>) {
    forall h :: ContinuityKept(c, t, registry, h, At(records, h))
  }

  ghost predicate Inv(s: State) {
    && AccountsKept(s.w.accounts, s.twin.accounts, s.w.records)
    && AllKept(s.w.continuity, s.twin.continuity, s.twin.accounts.registry, s.w.records)
    && Past(s.w.continuity, s.clock)
    && Progress(s)
  }

  // ---------------------------------------------------------------- single writes, on the stores

  ghost predicate SameFor(before: Continuity, after: Continuity, h: Id) {
    && (forall k: SessionKey :: k.harness == h ==> At(after.sessions, k) == At(before.sessions, k))
    && (forall k: LaneKey :: k.harness == h ==> At(after.lanes, k) == At(before.lanes, k))
    && (forall k: HomeKey :: k.harness == h ==> At(after.homes, k) == At(before.homes, k))
  }

  lemma OtherHarnessesKeep(c: Continuity, c': Continuity, t: Continuity, t': Continuity, registry: seq<Row>, h: Id, r: Option<Record>)
    requires ContinuityKept(c, t, registry, h, r) && SameFor(c, c', h) && SameFor(t, t', h)
    ensures ContinuityKept(c', t', registry, h, r)
  {
    assert SessionsKept(c', t', h, r);
    assert LanesKept(c', t', h, r);
    assert HomesKept(c', t', h, r);
    assert OthersKept(c', t', h, registry);
  }

  lemma WritesStayInTheirHarness(c: Continuity, h: Id, other: Id, row: Id, u: Unit, now: nat)
    requires other != h
    ensures SameFor(c, Move(c, h, row, u, now), other) && SameFor(c, Return(c, h, row, u, now), other)
  {
  }

  lemma MoveKeepsOthers(c: Continuity, t: Continuity, registry: seq<Row>, h: Id, row: Id, u: Unit, now: nat)
    requires OthersKept(c, t, h, registry) && !Registered(registry, h, row)
    ensures OthersKept(Move(c, h, row, u, now), t, h, registry)
    ensures OthersKept(Return(c, h, row, u, now), t, h, registry)
  {
    forall k: LaneKey | k.harness == h && k.profile.Some? && Registered(registry, h, k.profile.value)
      ensures At(Move(c, h, row, u, now).lanes, k) == At(c.lanes, k) == At(Return(c, h, row, u, now).lanes, k)
    {
    }
    forall k: HomeKey | k.harness == h && k.profile.Some? && Registered(registry, h, k.profile.value)
      ensures At(Move(c, h, row, u, now).homes, k) == At(c.homes, k) == At(Return(c, h, row, u, now).homes, k)
    {
    }
  }

  lemma MoveSessions(c: Continuity, t: Continuity, h: Id, r: Record, u: Unit, now: nat, work: set<Unit>)
    requires r.phase.RegistryWritten? && u in work
    requires SessionsKept(c, t, h, Some(r)) && SessionsDone(c, t, h, r, work, true)
    ensures SessionsKept(Move(c, h, r.rowId, u, now), t, h, Some(r))
    ensures SessionsDone(Move(c, h, r.rowId, u, now), t, h, r, work - {u}, true)
  {
    var c' := Move(c, h, r.rowId, u, now);
    forall k: SessionKey | k.harness == h
      ensures SessionMay(At(c'.sessions, k), At(t.sessions, k), r.rowId)
      ensures Sessions(k.partition) !in work - {u} ==> SessionAfter(At(c'.sessions, k), At(t.sessions, k), r.rowId)
    {
      assert SessionMay(At(c.sessions, k), At(t.sessions, k), r.rowId);
    }
  }

  lemma MoveLanes(c: Continuity, t: Continuity, h: Id, r: Record, u: Unit, now: nat, work: set<Unit>)
    requires r.phase.RegistryWritten? && u in work
    requires LanesKept(c, t, h, Some(r)) && LanesDone(c, h, r, work, t, true)
    ensures LanesKept(Move(c, h, r.rowId, u, now), t, h, Some(r))
    ensures LanesDone(Move(c, h, r.rowId, u, now), h, r, work - {u}, t, true)
  {
    var c' := Move(c, h, r.rowId, u, now);
    forall k: LaneKey | k.harness == h && k.profile == None
      ensures LaneBefore(At(c'.lanes, k), At(c'.lanes, k.(profile := Some(r.rowId))), At(t.lanes, k))
      ensures Sessions(k.partition) !in work - {u} ==>
                TurnOf(At(c'.lanes, k)) == TurnOf(At(c'.lanes, k.(profile := Some(r.rowId))))
    {
      var k' := k.(profile := Some(r.rowId));
      assert LaneBefore(At(c.lanes, k), At(c.lanes, k'), At(t.lanes, k));
      assert k'.(profile := None) == k;
      assert At(c'.lanes, k) == At(c.lanes, k);
    }
  }

  lemma MoveHomes(c: Continuity, t: Continuity, h: Id, r: Record, u: Unit, now: nat, work: set<Unit>)
    requires r.phase.RegistryWritten? && u in work
    requires HomesKept(c, t, h, Some(r)) && HomesDone(c, t, h, r, work, true)
    ensures HomesKept(Move(c, h, r.rowId, u, now), t, h, Some(r))
    ensures HomesDone(Move(c, h, r.rowId, u, now), t, h, r, work - {u}, true)
  {
    var c' := Move(c, h, r.rowId, u, now);
    forall k: HomeKey | k.harness == h && k.profile == None
      ensures HomeMay(At(c'.homes, k), At(c'.homes, k.(profile := Some(r.rowId))), At(t.homes, k))
      ensures Home(k.slot) !in work - {u} ==>
                HomeAfter(At(c'.homes, k), At(c'.homes, k.(profile := Some(r.rowId))), At(t.homes, k))
    {
      var k' := k.(profile := Some(r.rowId));
      assert HomeMay(At(c.homes, k), At(c.homes, k'), At(t.homes, k));
      if u.Home? { assert u.slot == k.slot <==> HomeKey(h, u.slot, None) == k; }
    }
  }

  lemma ReturnSessions(c: Continuity, t: Continuity, h: Id, r: Record, u: Unit, now: nat, work: set<Unit>)
    requires r.phase.RollingBack? && u in work
    requires SessionsKept(c, t, h, Some(r)) && SessionsDone(c, t, h, r, work, false)
    ensures SessionsKept(Return(c, h, r.rowId, u, now), t, h, Some(r))
    ensures SessionsDone(Return(c, h, r.rowId, u, now), t, h, r, work - {u}, false)
  {
    var c' := Return(c, h, r.rowId, u, now);
    forall k: SessionKey | k.harness == h
      ensures SessionMay(At(c'.sessions, k), At(t.sessions, k), r.rowId)
      ensures Sessions(k.partition) !in work - {u} ==> At(c'.sessions, k) == At(t.sessions, k)
    {
      assert SessionMay(At(c.sessions, k), At(t.sessions, k), r.rowId);
    }
  }

  lemma ReturnLanes(c: Continuity, t: Continuity, h: Id, r: Record, u: Unit, now: nat, work: set<Unit>)
    requires r.phase.RollingBack? && u in work
    requires LanesKept(c, t, h, Some(r)) && LanesDone(c, h, r, work, t, false)
    ensures LanesKept(Return(c, h, r.rowId, u, now), t, h, Some(r))
    ensures LanesDone(Return(c, h, r.rowId, u, now), h, r, work - {u}, t, false)
  {
    var c' := Return(c, h, r.rowId, u, now);
    forall k: LaneKey | k.harness == h && k.profile == None
      ensures LaneBack(At(c'.lanes, k), At(c'.lanes, k.(profile := Some(r.rowId))), At(t.lanes, k))
      ensures Sessions(k.partition) !in work - {u} ==> TurnOf(At(c'.lanes, k)) == TurnOf(At(t.lanes, k))
    {
      var k' := k.(profile := Some(r.rowId));
      assert LaneBack(At(c.lanes, k), At(c.lanes, k'), At(t.lanes, k));
      assert At(c'.lanes, k') == At(c.lanes, k');
    }
  }

  lemma ReturnHomes(c: Continuity, t: Continuity, h: Id, r: Record, u: Unit, now: nat, work: set<Unit>)
    requires r.phase.RollingBack? && u in work
    requires HomesKept(c, t, h, Some(r)) && HomesDone(c, t, h, r, work, false)
    ensures HomesKept(Return(c, h, r.rowId, u, now), t, h, Some(r))
    ensures HomesDone(Return(c, h, r.rowId, u, now), t, h, r, work - {u}, false)
  {
    var c' := Return(c, h, r.rowId, u, now);
    forall k: HomeKey | k.harness == h && k.profile == None
      ensures HomeMay(At(c'.homes, k), At(c'.homes, k.(profile := Some(r.rowId))), At(t.homes, k))
      ensures Home(k.slot) !in work - {u} ==>
                HomeBefore(At(c'.homes, k), At(c'.homes, k.(profile := Some(r.rowId))), At(t.homes, k))
    {
      var k' := k.(profile := Some(r.rowId));
      assert HomeMay(At(c.homes, k), At(c.homes, k'), At(t.homes, k));
      if u.Home? { assert u.slot == k.slot <==> HomeKey(h, u.slot, None) == k; }
    }
  }

  lemma WritesStayInThePast(c: Continuity, h: Id, row: Id, u: Unit, now: nat)
    requires Past(c, now)
    ensures Past(Move(c, h, row, u, now), now + 1) && Past(Return(c, h, row, u, now), now + 1)
  {
    var m, b := Move(c, h, row, u, now), Return(c, h, row, u, now);
    forall k | k in m.lanes ensures m.lanes[k].at < now + 1 {
      assert At(m.lanes, k) == Some(m.lanes[k]);
    }
    forall k | k in b.lanes ensures b.lanes[k].at < now + 1 {
      assert At(b.lanes, k) == Some(b.lanes[k]);
    }
  }
}
