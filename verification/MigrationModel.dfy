/** The unified-accounts migration on values: the persisted records, the account registry, the
    continuity stores keyed by (harness, profile or null), and each persistent write as one
    function. */
module MigrationModel {
  import opened Knowledge

  type Id = string

  datatype Phase = Reserved | RegistryWritten | ContinuityMigrated | Completed | RollingBack

  datatype Record = Record(phase: Phase, rowId: Id, locator: string)

  datatype Row = Row(id: Id, harness: Id, displayName: string, locator: Option<string>, enabled: bool)

  /** A login found in a harness's default store. */
  datatype Login = Login(locator: string, displayName: Option<string>)

  datatype Accounts = Accounts(registry: seq<Row>, native: map<Id, bool>)

  datatype SessionKey = SessionKey(harness: Id, partition: Id, id: Id)

  /** A lane: its checkpoint is the last turn it has seen. */
  datatype LaneKey = LaneKey(harness: Id, partition: Id, thread: Id, profile: Option<Id>)

  datatype Checkpoint = Checkpoint(turn: Id, at: nat)

  /** The durable home directory of a lane; `slot` is its project root and thread. */
  datatype HomeKey = HomeKey(harness: Id, slot: Id, profile: Option<Id>)

  datatype Continuity = Continuity(
    sessions: map<SessionKey, Option<Id>>,
    lanes: map<LaneKey, Checkpoint>,
    homes: map<HomeKey, Id>)

  datatype Subject = Subject(harness: Id, profile: Option<Id>)

  datatype World = World(records: map<Id, Record>, accounts: Accounts, continuity: Continuity, quota: set<Subject>)

  function At<K, V>(m: map<K, V>, k: K): Option<V> {
    if k in m then Some(m[k]) else None
  }

  function Omit<K, V>(m: map<K, V>, k: K): map<K, V> {
    map j | j in m && j != k :: m[j]
  }

  function TurnOf(c: Option<Checkpoint>): Option<Id> {
    match c case Some(v) => Some(v.turn) case None => None
  }

  // ---------------------------------------------------------------- accounts

  /** The deprecated per-harness switch: absent means true. */
  predicate NativeOn(a: Accounts, harness: Id) {
    harness in a.native ==> a.native[harness]
  }

  predicate Taken(registry: seq<Row>, id: Id) {
    exists i :: 0 <= i < |registry| && registry[i].id == id
  }

  predicate Adopted(row: Row, harness: Id, record: Record) {
    row.harness == harness && (row.id == record.rowId || row.locator == Some(record.locator))
  }

  function RowFor(a: Accounts, harness: Id, record: Record, login: Option<Login>): Row {
    var name := if login.Some? && login.value.displayName.Some? then login.value.displayName.value
                else harness + " default login";
    Row(record.rowId, harness, name, Some(record.locator), NativeOn(a, harness))
  }

  /** Phase registry_written's config write: an existing row is adopted untouched. */
  function Register(a: Accounts, harness: Id, record: Record, login: Option<Login>): Accounts {
    if exists i :: 0 <= i < |a.registry| && Adopted(a.registry[i], harness, record) then a
    else a.(registry := a.registry + [RowFor(a, harness, record, login)])
  }

  predicate Owns(row: Row, harness: Id, id: Id) {
    row.harness == harness && row.id == id
  }

  function FindRow(registry: seq<Row>, harness: Id, id: Id): (found: Option<nat>)
    ensures found.Some? ==> found.value < |registry| && Owns(registry[found.value], harness, id)
    ensures found.None? ==> forall i :: 0 <= i < |registry| ==> !Owns(registry[i], harness, id)
  {
    if registry == [] then None
    else if Owns(registry[0], harness, id) then Some(0)
    else match FindRow(registry[1..], harness, id) case Some(i) => Some(i + 1) case None => None
  }

  function FindLocator(registry: seq<Row>, harness: Id, locator: string): (found: Option<Row>)
    ensures found.Some? ==> found.value in registry && found.value.harness == harness && found.value.locator == Some(locator)
    ensures found.None? ==> forall row :: row in registry && row.harness == harness ==> row.locator != Some(locator)
  {
    if registry == [] then None
    else if registry[0].harness == harness && registry[0].locator == Some(locator) then Some(registry[0])
    else FindLocator(registry[1..], harness, locator)
  }

  /** The rollback's config write: only the row at the record's own locator leaves, and its
      enabled state returns to the deprecated switch. */
  function Unregister(a: Accounts, harness: Id, record: Record): Accounts {
    var found := FindRow(a.registry, harness, record.rowId);
    if found.None? || a.registry[found.value].locator != Some(record.locator) then a
    else Accounts(
      a.registry[..found.value] + a.registry[found.value + 1..],
      a.native[harness := a.registry[found.value].enabled])
  }

  // ---------------------------------------------------------------- continuity

  /** The row's lane after the migration looked at the pair: never moved backwards, but a lane
      behind the default lane catches up. */
  function Forwarded(default: Option<Checkpoint>, row: Option<Checkpoint>, now: nat): Option<Checkpoint> {
    if default.None? then row
    else if row.None? || (row.value.turn != default.value.turn && row.value.at < default.value.at)
    then Some(Checkpoint(default.value.turn, now))
    else row
  }

  /** The default lane after the rollback: re-seeded at the row lane's turn. */
  function Reseeded(default: Option<Checkpoint>, row: Option<Checkpoint>, now: nat): Option<Checkpoint> {
    if row.Some? then Some(Checkpoint(row.value.turn, now)) else default
  }

  predicate Within(k: LaneKey, harness: Id, partition: Id, profile: Option<Id>) {
    k.harness == harness && k.partition == partition && k.profile == profile
  }

  function LaneMoved(lanes: map<LaneKey, Checkpoint>, k: LaneKey, harness: Id, row: Id, partition: Id, now: nat): Option<Checkpoint> {
    if Within(k, harness, partition, Some(row)) then Forwarded(At(lanes, k.(profile := None)), At(lanes, k), now) else At(lanes, k)
  }

  function LaneReturned(lanes: map<LaneKey, Checkpoint>, k: LaneKey, harness: Id, row: Id, partition: Id, now: nat): Option<Checkpoint> {
    if Within(k, harness, partition, None) then Reseeded(At(lanes, k), At(lanes, k.(profile := Some(row))), now) else At(lanes, k)
  }

  function SessionMoved(sessions: map<SessionKey, Option<Id>>, k: SessionKey, harness: Id, row: Id, partition: Id): Option<Option<Id>> {
    if k in sessions && k.harness == harness && k.partition == partition && sessions[k] == None then Some(Some(row)) else At(sessions, k)
  }

  function SessionReturned(sessions: map<SessionKey, Option<Id>>, k: SessionKey, harness: Id, row: Id, partition: Id): Option<Option<Id>> {
    if k in sessions && k.harness == harness && k.partition == partition && sessions[k] == Some(row) then Some(None) else At(sessions, k)
  }

  /** One partition's store transaction: its null sessions move onto the row, and every default
      lane gains or advances the row's lane.  The default lanes stay behind, inert. */
  function MovePartition(c: Continuity, harness: Id, row: Id, partition: Id, now: nat): (r: Continuity)
    ensures r.homes == c.homes
    ensures forall k :: At(r.sessions, k) == SessionMoved(c.sessions, k, harness, row, partition)
    ensures forall k :: At(r.lanes, k) == LaneMoved(c.lanes, k, harness, row, partition, now)
  {
    var gained := set k | k in c.lanes && Within(k, harness, partition, None) :: k.(profile := Some(row));
    var lanes := map k | k in c.lanes.Keys + gained && LaneMoved(c.lanes, k, harness, row, partition, now).Some?
      :: LaneMoved(c.lanes, k, harness, row, partition, now).value;
    assert forall k: LaneKey :: Within(k, harness, partition, Some(row)) ==> k.(profile := None).(profile := Some(row)) == k;
    assert forall k: LaneKey :: Within(k, harness, partition, Some(row)) && k.(profile := None) in c.lanes ==> k in gained by {
      forall k: LaneKey | Within(k, harness, partition, Some(row)) && k.(profile := None) in c.lanes ensures k in gained {
        var d := k.(profile := None);
        assert Within(d, harness, partition, None) && d.(profile := Some(row)) == k;
      }
    }
    Continuity(
      map k | k in c.sessions :: SessionMoved(c.sessions, k, harness, row, partition).value,
      lanes, c.homes)
  }

  /** The rollback of one partition's store: the row's sessions return to null, and each row lane
      re-seeds the default lane. */
  function ReturnPartition(c: Continuity, harness: Id, row: Id, partition: Id, now: nat): (r: Continuity)
    ensures r.homes == c.homes
    ensures forall k :: At(r.sessions, k) == SessionReturned(c.sessions, k, harness, row, partition)
    ensures forall k :: At(r.lanes, k) == LaneReturned(c.lanes, k, harness, row, partition, now)
  {
    var gained := set k | k in c.lanes && Within(k, harness, partition, Some(row)) :: k.(profile := None);
    var lanes := map k | k in c.lanes.Keys + gained && LaneReturned(c.lanes, k, harness, row, partition, now).Some?
      :: LaneReturned(c.lanes, k, harness, row, partition, now).value;
    assert forall k: LaneKey :: Within(k, harness, partition, None) && k.(profile := Some(row)) in c.lanes ==> k in gained by {
      forall k: LaneKey | Within(k, harness, partition, None) && k.(profile := Some(row)) in c.lanes ensures k in gained {
        var d := k.(profile := Some(row));
        assert Within(d, harness, partition, Some(row)) && d.(profile := None) == k;
      }
    }
    Continuity(
      map k | k in c.sessions :: SessionReturned(c.sessions, k, harness, row, partition).value,
      lanes, c.homes)
  }

  /** Renaming a lane home; an existing target leaves the old directory untouched. */
  function Rename(homes: map<HomeKey, Id>, source: HomeKey, target: HomeKey): (r: map<HomeKey, Id>)
    requires source != target
    ensures var renamed := source in homes && target !in homes;
            forall k :: At(r, k) == if renamed && k == target then At(homes, source)
                                    else if renamed && k == source then None
                                    else At(homes, k)
  {
    if source in homes && target !in homes then Omit(homes, source)[target := homes[source]] else homes
  }

  function MoveHome(c: Continuity, harness: Id, row: Id, slot: Id): Continuity {
    c.(homes := Rename(c.homes, HomeKey(harness, slot, None), HomeKey(harness, slot, Some(row))))
  }

  function ReturnHome(c: Continuity, harness: Id, row: Id, slot: Id): Continuity {
    c.(homes := Rename(c.homes, HomeKey(harness, slot, Some(row)), HomeKey(harness, slot, None)))
  }

  // ---------------------------------------------------------------- one lane, exactly

  /** A row lane that is no further than its default lane. */
  predicate NotAhead(default: Option<Checkpoint>, row: Option<Checkpoint>) {
    row.Some? ==> default.Some? && (row.value.turn == default.value.turn || row.value.at < default.value.at)
  }

  /** The row lane, where there is one, has seen exactly what the default lane has seen. */
  predicate NotStale(default: Option<Checkpoint>, row: Option<Checkpoint>) {
    row.Some? ==> TurnOf(default) == TurnOf(row)
  }

  /** Migrating a lane twice is migrating it once, whatever the clock does in between. */
  lemma MovingTwiceIsMovingOnce(default: Option<Checkpoint>, row: Option<Checkpoint>, first: nat, second: nat)
    ensures Forwarded(default, Forwarded(default, row, first), second) == Forwarded(default, row, first)
    ensures TurnOf(Forwarded(default, row, first)) == TurnOf(Forwarded(default, row, second))
  {
  }

  /** After the migration the row lane has seen what the default lane saw, exactly when the row
      lane was not ahead of it (or there is no default lane). */
  lemma TheRowLaneCatchesUpExactlyWhen(default: Option<Checkpoint>, row: Option<Checkpoint>, now: nat)
    requires default.Some?
    ensures TurnOf(Forwarded(default, row, now)) == TurnOf(default) <==> NotAhead(default, row)
  {
  }

  /** Rolling a migrated lane back restores the default lane exactly when the row lane was not
      ahead before; rolling a lane back that was never migrated restores it exactly when the
      row lane was not stale. */
  lemma RollbackRestoresTheLaneExactlyWhen(default: Option<Checkpoint>, row: Option<Checkpoint>, moved: nat, now: nat)
    ensures TurnOf(Reseeded(default, Forwarded(default, row, moved), now)) == TurnOf(default) <==> NotAhead(default, row)
    ensures TurnOf(Reseeded(default, row, now)) == TurnOf(default) <==> NotStale(default, row)
  {
  }
}
