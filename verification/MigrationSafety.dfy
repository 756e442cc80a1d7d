/** Every write of every pass, every turn and every crash keeps the migrating engine and the
    engine that never migrates in step.  Gate safety and the rollback round trip follow. */
module MigrationSafety {
  import opened Knowledge
  import opened MigrationModel
  import opened RowIds
  import opened MigrationRuns
  import opened MigrationTwin
  import opened Sequences

  // ---------------------------------------------------------------- what a caller can check

  /** Nothing lives under the reserved id yet, apart from lanes no further than the default ones. */
  ghost predicate FreshContinuity(c: Continuity, h: Id, row: Id) {
    && (forall k: SessionKey :: k.harness == h ==> At(c.sessions, k) != Some(Some(row)))
    && (forall k: LaneKey :: k.harness == h && k.profile == None ==> NotAhead(At(c.lanes, k), At(c.lanes, k.(profile := Some(row)))))
    && (forall k: HomeKey :: k.harness == h && k.profile == None ==> At(c.homes, k.(profile := Some(row))) == None)
  }

  ghost predicate NoStaleLane(c: Continuity, h: Id, row: Id) {
    forall k: LaneKey :: k.harness == h && k.profile == None ==> NotStale(At(c.lanes, k), At(c.lanes, k.(profile := Some(row))))
  }

  /** What the simulation needs at the three writes that open or close a record: a reservation
      creates its row on fresh ground, a cleared reservation has not registered it, and a rollback
      from before the continuity move meets no stale row lane. */
  ghost predicate Clean(s: State, op: Op) {
    op.DoWrite? && s.process.Pass? && s.process.queue != [] && s.process.work == None ==>
      var h := s.process.queue[0];
      if s.process.forward then
        && (h !in s.w.records && h in s.logins ==>
              && FindLocator(s.w.accounts.registry, h, s.logins[h].locator).None?
              && FreshContinuity(s.w.continuity, h, ReservedId(s.w.accounts.registry, h)))
        && (h in s.w.records && s.w.records[h].phase.Reserved? && h !in s.logins ==>
              Own(s.w.accounts.registry, h, s.w.records[h].rowId) == [])
      else
        h in s.w.records && (s.w.records[h].phase.Reserved? || s.w.records[h].phase.RegistryWritten?) ==>
          NoStaleLane(s.w.continuity, h, s.w.records[h].rowId)
  }

  // ---------------------------------------------------------------- the accounts, write by write

  lemma NotTakenNotRegistered(registry: seq<Row>, h: Id, id: Id)
    requires !Taken(registry, id)
    ensures !Registered(registry, h, id) && Own(registry, h, id) == []
  {
    if Own(registry, h, id) != [] {
      FilterMembers(registry, OwnedBy(h, id), Own(registry, h, id)[0]);
    }
  }

  /** Adoption finds the migration's own row, or nothing. */
  lemma AdoptionFindsItsOwnRow(a: Accounts, t: Accounts, records: map<Id, Record>, h: Id, row: Row)
    requires AccountsKept(a, t, records) && h in records && row in a.registry && Adopted(row, h, records[h])
    ensures Owns(row, h, records[h].rowId) && Own(a.registry, h, records[h].rowId) != []
  {
    assert RowKept(a, t, h, records[h]);
    FilterMembers(a.registry, NotCreated(records), row);
    FilterMembers(a.registry, OwnedBy(h, records[h].rowId), row);
  }

  lemma AppendKeeps(a: Accounts, t: Accounts, records: map<Id, Record>, h: Id, row: Row)
    requires AccountsKept(a, t, records) && h in records && Own(a.registry, h, records[h].rowId) == []
    requires Owns(row, h, records[h].rowId) && row.locator == Some(records[h].locator) && row.enabled == NativeOn(a, h)
    ensures AccountsKept(a.(registry := a.registry + [row]), t, records)
    ensures Own(a.registry + [row], h, records[h].rowId) == [row]
  {
    FilterSplits(a.registry, [row], NotCreated(records));
    forall g | g in records
      ensures Own(a.registry + [row], g, records[g].rowId) == Own(a.registry, g, records[g].rowId) + if g == h then [row] else []
    {
      FilterSplits(a.registry, [row], OwnedBy(g, records[g].rowId));
    }
    forall g | g in records ensures RowKept(a.(registry := a.registry + [row]), t, g, records[g]) {
      assert RowKept(a, t, g, records[g]);
    }
  }

  lemma RegisterKeeps(a: Accounts, t: Accounts, records: map<Id, Record>, h: Id, login: Option<Login>)
    requires AccountsKept(a, t, records) && h in records
    ensures AccountsKept(Register(a, h, records[h], login), t, records)
    ensures Own(Register(a, h, records[h], login).registry, h, records[h].rowId) != []
  {
    var r := records[h];
    if i :| 0 <= i < |a.registry| && Adopted(a.registry[i], h, r) {
      AdoptionFindsItsOwnRow(a, t, records, h, a.registry[i]);
    } else {
      var own := Own(a.registry, h, r.rowId);
      if own != [] {
        FilterMembers(a.registry, OwnedBy(h, r.rowId), own[0]);
      }
      AppendKeeps(a, t, records, h, RowFor(a, h, r, login));
    }
  }

  /** Replacing or dropping the migration's own row. */
  lemma ReplaceOwn(a: Accounts, t: Accounts, records: map<Id, Record>, h: Id, i: nat, middle: seq<Row>)
    requires AccountsKept(a, t, records) && h in records && i < |a.registry| && Owns(a.registry[i], h, records[h].rowId)
    requires |middle| <= 1 && forall j :: 0 <= j < |middle| ==> Owns(middle[j], h, records[h].rowId)
    ensures var out := a.registry[..i] + middle + a.registry[i + 1..];
            && Foreign(out, records) == t.registry
            && Own(out, h, records[h].rowId) == middle && Own(a.registry, h, records[h].rowId) == [a.registry[i]]
            && forall g :: g in records && g != h ==> Own(out, g, records[g].rowId) == Own(a.registry, g, records[g].rowId)
  {
    assert RowKept(a, t, h, records[h]);
    FilterIgnoresMiddle(a.registry, i, middle, NotCreated(records));
    FilterReplacesTheOnly(a.registry, i, middle, OwnedBy(h, records[h].rowId));
    forall g | g in records && g != h
      ensures Own(a.registry[..i] + middle + a.registry[i + 1..], g, records[g].rowId) == Own(a.registry, g, records[g].rowId)
    {
      FilterIgnoresMiddle(a.registry, i, middle, OwnedBy(g, records[g].rowId));
    }
  }

  lemma DropOwnKeeps(a: Accounts, t: Accounts, records: map<Id, Record>, h: Id, i: nat, registry: seq<Row>, g: Id)
    requires AccountsKept(a, t, records) && h in records && records[h].phase.RollingBack?
    requires i < |a.registry| && Owns(a.registry[i], h, records[h].rowId) && g in records
    requires registry == a.registry[..i] + [] + a.registry[i + 1..]
    ensures Foreign(registry, records) == t.registry && Own(registry, h, records[h].rowId) == []
    ensures RowKept(Accounts(registry, a.native[h := a.registry[i].enabled]), t, g, records[g])
  {
    ReplaceOwn(a, t, records, h, i, []);
    assert RowKept(a, t, g, records[g]) && RowKept(a, t, h, records[h]);
  }

  lemma UnregisterKeeps(a: Accounts, t: Accounts, records: map<Id, Record>, h: Id)
    requires AccountsKept(a, t, records) && h in records && records[h].phase.RollingBack?
    ensures AccountsKept(Unregister(a, h, records[h]), t, records)
    ensures Own(Unregister(a, h, records[h]).registry, h, records[h].rowId) == []
  {
    var r := records[h];
    assert RowKept(a, t, h, r);
    var found := FindRow(a.registry, h, r.rowId);
    if found.Some? {
      var i := found.value;
      FilterMembers(a.registry, OwnedBy(h, r.rowId), a.registry[i]);
      FilterReplacesTheOnly(a.registry, i, [], OwnedBy(h, r.rowId));
      var registry := a.registry[..i] + a.registry[i + 1..];
      assert registry == a.registry[..i] + [] + a.registry[i + 1..];
      forall g | g in records ensures RowKept(Accounts(registry, a.native[h := a.registry[i].enabled]), t, g, records[g]) {
        DropOwnKeeps(a, t, records, h, i, registry, g);
      }
      DropOwnKeeps(a, t, records, h, i, registry, h);
    } else if Own(a.registry, h, r.rowId) != [] {
      FilterMembers(a.registry, OwnedBy(h, r.rowId), Own(a.registry, h, r.rowId)[0]);
    }
  }

  lemma ToggleReplaces(a: Accounts, t: Accounts, records: map<Id, Record>, h: Id, i: nat, row: Row)
    requires AccountsKept(a, t, records) && h in records && i < |a.registry| && Owns(a.registry[i], h, records[h].rowId)
    requires row == a.registry[i].(enabled := row.enabled)
    ensures var out := a.registry[i := row];
            && Foreign(out, records) == t.registry
            && Own(out, h, records[h].rowId) == [row] && Own(a.registry, h, records[h].rowId) == [a.registry[i]]
            && forall g :: g in records && g != h ==> Own(out, g, records[g].rowId) == Own(a.registry, g, records[g].rowId)
  {
    ReplaceOwn(a, t, records, h, i, [row]);
    assert a.registry[i := row] == a.registry[..i] + [row] + a.registry[i + 1..];
  }

  lemma ToggleKeepsRow(a: Accounts, t: Accounts, records: map<Id, Record>, h: Id, i: nat, row: Row, g: Id)
    requires AccountsKept(a, t, records) && h in records && i < |a.registry| && Owns(a.registry[i], h, records[h].rowId)
    requires row == a.registry[i].(enabled := row.enabled) && g in records
    ensures Foreign(a.registry[i := row], records) == t.registry
    ensures RowKept(a.(registry := a.registry[i := row]), t.(native := t.native[h := row.enabled]), g, records[g])
    ensures Own(a.registry[i := row], g, records[g].rowId) == [] <==> Own(a.registry, g, records[g].rowId) == []
  {
    ToggleReplaces(a, t, records, h, i, row);
    assert RowKept(a, t, g, records[g]) && RowKept(a, t, h, records[h]);
    assert NativeOn(t.(native := t.native[h := row.enabled]), g) <==> if g == h then row.enabled else NativeOn(t, g);
  }

  lemma ToggleKeeps(a: Accounts, t: Accounts, records: map<Id, Record>, h: Id, i: nat, row: Row)
    requires AccountsKept(a, t, records) && h in records && i < |a.registry| && Owns(a.registry[i], h, records[h].rowId)
    requires row == a.registry[i].(enabled := row.enabled)
    ensures AccountsKept(a.(registry := a.registry[i := row]), t.(native := t.native[h := row.enabled]), records)
    ensures forall g :: g in records ==> (Own(a.registry[i := row], g, records[g].rowId) == [] <==> Own(a.registry, g, records[g].rowId) == [])
  {
    ToggleKeepsRow(a, t, records, h, i, row, h);
    forall g | g in records
      ensures RowKept(a.(registry := a.registry[i := row]), t.(native := t.native[h := row.enabled]), g, records[g])
      ensures Own(a.registry[i := row], g, records[g].rowId) == [] <==> Own(a.registry, g, records[g].rowId) == []
    {
      ToggleKeepsRow(a, t, records, h, i, row, g);
    }
  }

  lemma SetPhaseKeeps(a: Accounts, t: Accounts, records: map<Id, Record>, h: Id, phase: Phase)
    requires AccountsKept(a, t, records) && h in records
    requires phase.RollingBack? || Own(a.registry, h, records[h].rowId) != []
    ensures AccountsKept(a, t, records[h := records[h].(phase := phase)])
  {
    var after := records[h := records[h].(phase := phase)];
    FilterAgrees(a.registry, NotCreated(records), NotCreated(after));
    forall g | g in after ensures RowKept(a, t, g, after[g]) { assert RowKept(a, t, g, records[g]); }
  }

  lemma DeleteKeeps(a: Accounts, t: Accounts, records: map<Id, Record>, h: Id)
    requires AccountsKept(a, t, records) && h in records && Own(a.registry, h, records[h].rowId) == []
    ensures AccountsKept(a, t, Omit(records, h))
  {
    var after := Omit(records, h);
    assert RowKept(a, t, h, records[h]);
    forall i | 0 <= i < |a.registry| ensures NotCreated(records)(a.registry[i]) == NotCreated(after)(a.registry[i]) {
      FilterMembers(a.registry, OwnedBy(h, records[h].rowId), a.registry[i]);
    }
    FilterAgrees(a.registry, NotCreated(records), NotCreated(after));
  }

  lemma ReserveKeeps(a: Accounts, t: Accounts, records: map<Id, Record>, h: Id, r: Record)
    requires AccountsKept(a, t, records) && h !in records && r.phase.Reserved?
    requires !Taken(a.registry, r.rowId) && FindLocator(a.registry, h, r.locator).None?
    ensures AccountsKept(a, t, records[h := r])
    ensures !Taken(t.registry, r.rowId)
  {
    var after := records[h := r];
    forall i | 0 <= i < |a.registry| ensures NotCreated(records)(a.registry[i]) == NotCreated(after)(a.registry[i]) {
      assert a.registry[i].id != r.rowId;
    }
    FilterAgrees(a.registry, NotCreated(records), NotCreated(after));
    NotTakenNotRegistered(a.registry, h, r.rowId);
    forall row | row in t.registry ensures row in a.registry { FilterMembers(a.registry, NotCreated(records), row); }
    forall row | row in a.registry ensures row.id != r.rowId { }
    forall g | g in after ensures RowKept(a, t, g, after[g]) {
      if g != h { assert RowKept(a, t, g, records[g]); }
    }
  }

  // ---------------------------------------------------------------- the continuity, phase by phase

  /** On entering a phase, whatever is not on its work list has nothing to do. */
  lemma WorkListIsComplete(c: Continuity, t: Continuity, registry: seq<Row>, h: Id, r: Record, forward: bool)
    requires ContinuityKept(c, t, registry, h, Some(r))
    requires if forward then r.phase.RegistryWritten? else r.phase.RollingBack?
    ensures StoresDone(c, t, h, r, UnitsOf(c, h, r.phase), forward)
  {
    var work := UnitsOf(c, h, r.phase);
    forall k: SessionKey | k.harness == h && Sessions(k.partition) !in work
      ensures if forward then SessionAfter(At(c.sessions, k), At(t.sessions, k), r.rowId) else At(c.sessions, k) == At(t.sessions, k)
    {
      assert k !in c.sessions;
      assert SessionMay(At(c.sessions, k), At(t.sessions, k), r.rowId);
    }
    forall k: LaneKey | k.harness == h && k.profile == None && Sessions(k.partition) !in work
      ensures if forward then TurnOf(At(c.lanes, k)) == TurnOf(At(c.lanes, k.(profile := Some(r.rowId))))
              else TurnOf(At(c.lanes, k)) == TurnOf(At(t.lanes, k))
    {
      assert k !in c.lanes;
      var k' := k.(profile := Some(r.rowId));
      assert Sessions(k'.partition) !in work && k' !in c.lanes;
      assert LaneKept(At(c.lanes, k), At(c.lanes, k'), At(t.lanes, k), r.phase);
    }
    forall k: HomeKey | k.harness == h && k.profile == None && Home(k.slot) !in work
      ensures if forward then HomeAfter(At(c.homes, k), At(c.homes, k.(profile := Some(r.rowId))), At(t.homes, k))
              else HomeBefore(At(c.homes, k), At(c.homes, k.(profile := Some(r.rowId))), At(t.homes, k))
    {
      assert k !in c.homes;
      var k' := k.(profile := Some(r.rowId));
      assert Home(k'.slot) !in work && k' !in c.homes;
      assert HomeKept(At(c.homes, k), At(c.homes, k'), At(t.homes, k), r.phase);
    }
  }

  lemma RegistryWrittenKeeps(c: Continuity, t: Continuity, registry: seq<Row>, h: Id, r: Record)
    requires ContinuityKept(c, t, registry, h, Some(r)) && r.phase.Reserved?
    ensures ContinuityKept(c, t, registry, h, Some(r.(phase := RegistryWritten)))
    ensures ContinuityKept(c, t, registry, h, None)
  {
    var r' := r.(phase := RegistryWritten);
    assert forall k: LaneKey :: k.harness == h && k.profile == None ==>
      LaneKept(At(c.lanes, k), At(c.lanes, k.(profile := Some(r.rowId))), At(t.lanes, k), Reserved);
    assert LanesKept(c, t, h, Some(r')) && LanesKept(c, t, h, None);
    assert forall k: HomeKey :: k.harness == h && k.profile == None ==>
      HomeKept(At(c.homes, k), At(c.homes, k.(profile := Some(r.rowId))), At(t.homes, k), Reserved);
    assert HomesKept(c, t, h, Some(r')) && HomesKept(c, t, h, None);
    assert SessionsKept(c, t, h, Some(r')) && SessionsKept(c, t, h, None);
  }

  lemma ContinuityMigratedKeeps(c: Continuity, t: Continuity, registry: seq<Row>, h: Id, r: Record)
    requires ContinuityKept(c, t, registry, h, Some(r)) && r.phase.RegistryWritten? && StoresDone(c, t, h, r, {}, true)
    ensures ContinuityKept(c, t, registry, h, Some(r.(phase := ContinuityMigrated)))
  {
    var r' := r.(phase := ContinuityMigrated);
    forall k: LaneKey | k.harness == h && k.profile == None
      ensures LaneAfter(At(c.lanes, k), At(c.lanes, k.(profile := Some(r.rowId))), At(t.lanes, k))
    {
      assert LaneKept(At(c.lanes, k), At(c.lanes, k.(profile := Some(r.rowId))), At(t.lanes, k), RegistryWritten);
    }
    assert SessionsKept(c, t, h, Some(r')) && LanesKept(c, t, h, Some(r')) && HomesKept(c, t, h, Some(r'));
  }

  lemma CompletedKeeps(c: Continuity, t: Continuity, registry: seq<Row>, h: Id, r: Record)
    requires ContinuityKept(c, t, registry, h, Some(r)) && r.phase.ContinuityMigrated?
    ensures ContinuityKept(c, t, registry, h, Some(r.(phase := Completed)))
  {
    var r' := r.(phase := Completed);
    assert SessionsKept(c, t, h, Some(r')) && LanesKept(c, t, h, Some(r')) && HomesKept(c, t, h, Some(r'));
  }

  lemma RollingBackKeeps(c: Continuity, t: Continuity, registry: seq<Row>, h: Id, r: Record)
    requires ContinuityKept(c, t, registry, h, Some(r))
    requires r.phase.Reserved? || r.phase.RegistryWritten? ==> NoStaleLane(c, h, r.rowId)
    ensures ContinuityKept(c, t, registry, h, Some(r.(phase := RollingBack)))
  {
    var r' := r.(phase := RollingBack);
    forall k: LaneKey | k.harness == h && k.profile == None
      ensures LaneBack(At(c.lanes, k), At(c.lanes, k.(profile := Some(r.rowId))), At(t.lanes, k))
    {
      var k' := k.(profile := Some(r.rowId));
      assert LaneKept(At(c.lanes, k), At(c.lanes, k'), At(t.lanes, k), r.phase);
      if r.phase.Reserved? || r.phase.RegistryWritten? { assert NotStale(At(c.lanes, k), At(c.lanes, k')); }
    }
    assert LanesKept(c, t, h, Some(r'));
    assert SessionsKept(c, t, h, Some(r'));
    forall k: HomeKey | k.harness == h && k.profile == None
      ensures HomeMay(At(c.homes, k), At(c.homes, k.(profile := Some(r.rowId))), At(t.homes, k))
    {
      assert HomeKept(At(c.homes, k), At(c.homes, k.(profile := Some(r.rowId))), At(t.homes, k), r.phase);
    }
    assert HomesKept(c, t, h, Some(r'));
  }

  lemma RolledBackKeeps(c: Continuity, t: Continuity, registry: seq<Row>, h: Id, r: Record)
    requires ContinuityKept(c, t, registry, h, Some(r)) && r.phase.RollingBack? && StoresDone(c, t, h, r, {}, false)
    ensures ContinuityKept(c, t, registry, h, None)
  {
    assert SessionsKept(c, t, h, None) && LanesKept(c, t, h, None) && HomesKept(c, t, h, None);
  }

  lemma ReservedKeeps(c: Continuity, t: Continuity, registry: seq<Row>, h: Id, r: Record)
    requires ContinuityKept(c, t, registry, h, None) && r.phase.Reserved? && FreshContinuity(c, h, r.rowId)
    ensures ContinuityKept(c, t, registry, h, Some(r))
  {
    assert SessionsKept(c, t, h, Some(r));
    forall k: LaneKey | k.harness == h && k.profile == None
      ensures LaneBefore(At(c.lanes, k), At(c.lanes, k.(profile := Some(r.rowId))), At(t.lanes, k))
    {
      assert TurnOf(At(c.lanes, k)) == TurnOf(At(t.lanes, k));
    }
    assert LanesKept(c, t, h, Some(r));
    assert HomesKept(c, t, h, Some(r));
  }

  // ---------------------------------------------------------------- turns

  lemma TurnStaysInItsHarness(c: Continuity, t: Turn, subject: Option<Id>, now: nat, h: Id)
    requires h != t.harness
    ensures SameFor(c, Recorded(c, t, subject, now), h)
  {
  }

  lemma TurnKeepsOthers(c: Continuity, tc: Continuity, registry: seq<Row>, t: Turn, subject: Option<Id>, twinSubject: Option<Id>, now: nat)
    requires OthersKept(c, tc, t.harness, registry)
    requires subject == twinSubject || (twinSubject == None && subject.Some? && !Registered(registry, t.harness, subject.value))
    ensures OthersKept(Recorded(c, t, subject, now), Recorded(tc, t, twinSubject, now), t.harness, registry)
  {
    var c', tc' := Recorded(c, t, subject, now), Recorded(tc, t, twinSubject, now);
    forall k: LaneKey | k.harness == t.harness && k.profile.Some? && Registered(registry, t.harness, k.profile.value)
      ensures TurnOf(At(c'.lanes, k)) == TurnOf(At(tc'.lanes, k))
    {
      assert TurnOf(At(c.lanes, k)) == TurnOf(At(tc.lanes, k));
    }
    forall k: HomeKey | k.harness == t.harness && k.profile.Some? && Registered(registry, t.harness, k.profile.value)
      ensures At(c'.homes, k) == At(tc'.homes, k)
    {
      assert At(c.homes, k) == At(tc.homes, k);
    }
  }

  /** How the subjects of a turn and of its twin relate, given the harness's record. */
  predicate Paired(r: Option<Record>, subject: Option<Id>, twinSubject: Option<Id>) {
    match r
    case None => subject == twinSubject
    case Some(v) =>
      v.phase.Completed? && if subject == Some(v.rowId) then twinSubject == None else subject.Some? && subject == twinSubject
  }

  lemma TurnKeepsSessions(c: Continuity, tc: Continuity, r: Option<Record>, t: Turn, subject: Option<Id>, twinSubject: Option<Id>, now: nat)
    requires SessionsKept(c, tc, t.harness, r) && Paired(r, subject, twinSubject)
    ensures SessionsKept(Recorded(c, t, subject, now), Recorded(tc, t, twinSubject, now), t.harness, r)
  {
  }

  lemma TurnKeepsLanes(c: Continuity, tc: Continuity, r: Option<Record>, t: Turn, subject: Option<Id>, twinSubject: Option<Id>, now: nat)
    requires LanesKept(c, tc, t.harness, r) && Paired(r, subject, twinSubject)
    ensures LanesKept(Recorded(c, t, subject, now), Recorded(tc, t, twinSubject, now), t.harness, r)
  {
    if r.Some? {
      var row := r.value.rowId;
      var c', tc' := Recorded(c, t, subject, now), Recorded(tc, t, twinSubject, now);
      forall k: LaneKey | k.harness == t.harness && k.profile == None
        ensures LaneAfter(At(c'.lanes, k), At(c'.lanes, k.(profile := Some(row))), At(tc'.lanes, k))
      {
        assert LaneKept(At(c.lanes, k), At(c.lanes, k.(profile := Some(row))), At(tc.lanes, k), Completed);
      }
    }
  }

  lemma TurnKeepsHomes(c: Continuity, tc: Continuity, r: Option<Record>, t: Turn, subject: Option<Id>, twinSubject: Option<Id>, now: nat)
    requires HomesKept(c, tc, t.harness, r) && Paired(r, subject, twinSubject)
    ensures HomesKept(Recorded(c, t, subject, now), Recorded(tc, t, twinSubject, now), t.harness, r)
  {
    if r.Some? {
      var row := r.value.rowId;
      var c', tc' := Recorded(c, t, subject, now), Recorded(tc, t, twinSubject, now);
      forall k: HomeKey | k.harness == t.harness && k.profile == None
        ensures HomeAfter(At(c'.homes, k), At(c'.homes, k.(profile := Some(row))), At(tc'.homes, k))
      {
        assert HomeKept(At(c.homes, k), At(c.homes, k.(profile := Some(row))), At(tc.homes, k), Completed);
      }
    }
  }

  lemma TurnKeepsHarness(c: Continuity, tc: Continuity, registry: seq<Row>, r: Option<Record>, t: Turn, subject: Option<Id>, twinSubject: Option<Id>, now: nat)
    requires ContinuityKept(c, tc, registry, t.harness, r) && Paired(r, subject, twinSubject)
    requires r.Some? ==> !Registered(registry, t.harness, r.value.rowId)
    ensures ContinuityKept(Recorded(c, t, subject, now), Recorded(tc, t, twinSubject, now), registry, t.harness, r)
  {
    TurnKeepsOthers(c, tc, registry, t, subject, twinSubject, now);
    TurnKeepsSessions(c, tc, r, t, subject, twinSubject, now);
    TurnKeepsLanes(c, tc, r, t, subject, twinSubject, now);
    TurnKeepsHomes(c, tc, r, t, subject, twinSubject, now);
  }

  lemma TurnSubjects(s: State, t: Turn, pin: Option<Id>)
    requires Inv(s) && Runs(s.w, t, pin)
    ensures var r := At(s.w.records, t.harness);
            && Paired(r, SubjectOf(s.w, t.harness, pin), TwinSubject(s.w, t.harness, pin))
            && (r.Some? ==> !Registered(s.twin.accounts.registry, t.harness, r.value.rowId))
  {
    if t.harness in s.w.records {
      assert RowKept(s.w.accounts, s.twin.accounts, t.harness, s.w.records[t.harness]);
      NotTakenNotRegistered(s.twin.accounts.registry, t.harness, s.w.records[t.harness].rowId);
    }
  }

  lemma TurnKeepsAll(c: Continuity, tc: Continuity, registry: seq<Row>, records: map<Id, Record>, t: Turn, subject: Option<Id>, twinSubject: Option<Id>, now: nat)
    requires AllKept(c, tc, registry, records) && Paired(At(records, t.harness), subject, twinSubject)
    requires t.harness in records ==> !Registered(registry, t.harness, records[t.harness].rowId)
    ensures AllKept(Recorded(c, t, subject, now), Recorded(tc, t, twinSubject, now), registry, records)
  {
    var c', tc' := Recorded(c, t, subject, now), Recorded(tc, t, twinSubject, now);
    forall h ensures ContinuityKept(c', tc', registry, h, At(records, h)) {
      assert ContinuityKept(c, tc, registry, h, At(records, h));
      if h == t.harness {
        TurnKeepsHarness(c, tc, registry, At(records, h), t, subject, twinSubject, now);
      } else {
        TurnStaysInItsHarness(c, t, subject, now, h);
        TurnStaysInItsHarness(tc, t, twinSubject, now, h);
        OtherHarnessesKeep(c, c', tc, tc', registry, h, At(records, h));
      }
    }
  }

  lemma TurnStepKeeps(s: State, t: Turn, pin: Option<Id>, next: State)
    requires Inv(s) && Runs(s.w, t, pin)
    requires next.w == s.w.(continuity := Recorded(s.w.continuity, t, SubjectOf(s.w, t.harness, pin), s.clock))
    requires next.twin == s.twin.(continuity := Recorded(s.twin.continuity, t, TwinSubject(s.w, t.harness, pin), s.clock))
    requires next.process == s.process && next.clock == s.clock + 1
    ensures Inv(next)
  {
    var subject, twinSubject := SubjectOf(s.w, t.harness, pin), TwinSubject(s.w, t.harness, pin);
    TurnSubjects(s, t, pin);
    TurnKeepsAll(s.w.continuity, s.twin.continuity, s.twin.accounts.registry, s.w.records, t, subject, twinSubject, s.clock);
    if s.process.Pass? && s.process.queue != [] && s.process.work.Some? {
      var h := s.process.queue[0];
      UnderwayOutlivesTurns(s.w.accounts, s.w.continuity, s.twin.continuity, h, s.w.records[h], s.process.work.value, s.process.forward,
                            t, subject, twinSubject, s.clock);
    }
  }

  /** A turn runs on a harness whose gate is open, so never on the one a pass is working on. */
  lemma UnderwayOutlivesTurns(a: Accounts, c: Continuity, tc: Continuity, h: Id, r: Record, work: set<Unit>, forward: bool,
                              t: Turn, subject: Option<Id>, twinSubject: Option<Id>, now: nat)
    requires Underway(a, c, tc, h, r, work, forward) && (t.harness == h ==> r.phase.Completed?)
    ensures Underway(a, Recorded(c, t, subject, now), Recorded(tc, t, twinSubject, now), h, r, work, forward)
  {
    if r.phase.RegistryWritten? || r.phase.RollingBack? {
      TurnStaysInItsHarness(c, t, subject, now, h);
      TurnStaysInItsHarness(tc, t, twinSubject, now, h);
      DoneDependsOnItsHarness(c, Recorded(c, t, subject, now), tc, Recorded(tc, t, twinSubject, now), h, r, work, forward);
    }
  }

  lemma DoneDependsOnItsHarness(c: Continuity, c': Continuity, t: Continuity, t': Continuity, h: Id, r: Record, work: set<Unit>, forward: bool)
    requires StoresDone(c, t, h, r, work, forward) && SameFor(c, c', h) && SameFor(t, t', h)
    ensures StoresDone(c', t', h, r, work, forward)
  {
    assert SessionsDone(c', t', h, r, work, forward);
    assert LanesDone(c', h, r, work, t', forward);
    assert HomesDone(c', t', h, r, work, forward);
  }

  // ---------------------------------------------------------------- a pass

  lemma OneRecordChanges(c: Continuity, t: Continuity, registry: seq<Row>, before: map<Id, Record>, after: map<Id, Record>, h: Id)
    requires AllKept(c, t, registry, before) && ContinuityKept(c, t, registry, h, At(after, h))
    requires forall g :: g != h ==> At(after, g) == At(before, g)
    ensures AllKept(c, t, registry, after)
  {
    forall g ensures ContinuityKept(c, t, registry, g, At(after, g)) {
      assert ContinuityKept(c, t, registry, g, At(before, g));
    }
  }

  lemma MoveKeepsHarness(c: Continuity, t: Continuity, registry: seq<Row>, h: Id, r: Record, u: Unit, now: nat, work: set<Unit>, forward: bool)
    requires ContinuityKept(c, t, registry, h, Some(r)) && StoresDone(c, t, h, r, work, forward)
    requires u in work && !Registered(registry, h, r.rowId)
    requires if forward then r.phase.RegistryWritten? else r.phase.RollingBack?
    ensures var c' := if forward then Move(c, h, r.rowId, u, now) else Return(c, h, r.rowId, u, now);
            ContinuityKept(c', t, registry, h, Some(r)) && StoresDone(c', t, h, r, work - {u}, forward)
  {
    MoveKeepsOthers(c, t, registry, h, r.rowId, u, now);
    if forward {
      MoveSessions(c, t, h, r, u, now, work);
      MoveLanes(c, t, h, r, u, now, work);
      MoveHomes(c, t, h, r, u, now, work);
    } else {
      ReturnSessions(c, t, h, r, u, now, work);
      ReturnLanes(c, t, h, r, u, now, work);
      ReturnHomes(c, t, h, r, u, now, work);
    }
  }

  lemma StoreWriteKeepsOthers(c: Continuity, c': Continuity, t: Continuity, registry: seq<Row>, records: map<Id, Record>, h: Id)
    requires AllKept(c, t, registry, records) && ContinuityKept(c', t, registry, h, At(records, h))
    requires forall g :: g != h ==> SameFor(c, c', g)
    ensures AllKept(c', t, registry, records)
  {
    forall g ensures ContinuityKept(c', t, registry, g, At(records, g)) {
      assert ContinuityKept(c, t, registry, g, At(records, g));
      if g != h {
        assert SameFor(c, c', g) && SameFor(t, t, g);
        OtherHarnessesKeep(c, c', t, t, registry, g, At(records, g));
      }
    }
  }

  lemma StoreWriteKeepsStores(a: Accounts, ta: Accounts, c: Continuity, t: Continuity, records: map<Id, Record>, h: Id, u: Unit, now: nat,
                              work: set<Unit>, forward: bool)
    requires AccountsKept(a, ta, records) && AllKept(c, t, ta.registry, records) && Past(c, now)
    requires h in records && Underway(a, c, t, h, records[h], work, forward) && u in work && (u.Sessions? || u.Home?)
    ensures var row := records[h].rowId;
            var c' := if forward then Move(c, h, row, u, now) else Return(c, h, row, u, now);
            AllKept(c', t, ta.registry, records) && Past(c', now + 1) && Underway(a, c', t, h, records[h], work - {u}, forward)
  {
    var r := records[h];
    var c' := if forward then Move(c, h, r.rowId, u, now) else Return(c, h, r.rowId, u, now);
    assert ContinuityKept(c, t, ta.registry, h, At(records, h));
    assert RowKept(a, ta, h, r);
    NotTakenNotRegistered(ta.registry, h, r.rowId);
    MoveKeepsHarness(c, t, ta.registry, h, r, u, now, work, forward);
    WritesStayInThePast(c, h, r.rowId, u, now);
    forall g | g != h ensures SameFor(c, c', g) { WritesStayInTheirHarness(c, h, g, r.rowId, u, now); }
    StoreWriteKeepsOthers(c, c', t, ta.registry, records, h);
  }

  lemma StoreWriteKeeps(s: State, u: Unit, next: State)
    requires Inv(s) && Writes(s, u, next) && (u.Sessions? || u.Home?)
    ensures Inv(next)
  {
    StoreWriteKeepsStores(s.w.accounts, s.twin.accounts, s.w.continuity, s.twin.continuity, s.w.records, s.process.queue[0], u, s.clock,
                          s.process.work.value, s.process.forward);
  }

  lemma ConfigWriteKeeps(s: State, next: State)
    requires Inv(s) && Writes(s, Config, next)
    ensures Inv(next)
  {
    var h := s.process.queue[0];
    var r, work := s.w.records[h], s.process.work.value;
    if s.process.forward {
      RegisterKeeps(s.w.accounts, s.twin.accounts, s.w.records, h, At(s.logins, h));
    } else {
      UnregisterKeeps(s.w.accounts, s.twin.accounts, s.w.records, h);
      StoresDoneIgnoreOtherUnits(s.w.continuity, s.twin.continuity, h, r, work, Config);
    }
    assert Underway(next.w.accounts, s.w.continuity, s.twin.continuity, h, r, work - {Config}, s.process.forward);
  }

  lemma StoresDoneIgnoreOtherUnits(c: Continuity, t: Continuity, h: Id, r: Record, work: set<Unit>, u: Unit)
    requires StoresDone(c, t, h, r, work, false) && (u.Config? || u.Quota?)
    ensures StoresDone(c, t, h, r, work - {u}, false)
  {
  }

  lemma QuotaWriteKeeps(s: State, next: State)
    requires Inv(s) && Writes(s, Quota, next)
    ensures Inv(next)
  {
    var h := s.process.queue[0];
    if !s.process.forward {
      StoresDoneIgnoreOtherUnits(s.w.continuity, s.twin.continuity, h, s.w.records[h], s.process.work.value, Quota);
    }
  }

  /** The pass looks at a record: it reserves, clears, resumes, or starts to roll back. */
  lemma EnterKeeps(s: State, op: Op)
    requires Inv(s) && Clean(s, op) && op.DoWrite?
    requires s.process.Pass? && s.process.queue != [] && s.process.work == None
    ensures Inv(Step(s, op))
  {
    if s.process.forward { EnterForwardKeeps(s, op); } else { EnterBackwardKeeps(s, op); }
  }

  lemma ReserveStepKeeps(s: State, h: Id, login: Login)
    requires Inv(s) && h !in s.w.records
    requires FindLocator(s.w.accounts.registry, h, login.locator).None?
    requires FreshContinuity(s.w.continuity, h, ReservedId(s.w.accounts.registry, h))
    ensures var records := s.w.records[h := Reservation(s.w.accounts, h, login)];
            && AccountsKept(s.w.accounts, s.twin.accounts, records)
            && AllKept(s.w.continuity, s.twin.continuity, s.twin.accounts.registry, records)
            && Own(s.w.accounts.registry, h, records[h].rowId) == []
  {
    var a, c, t, registry := s.w.accounts, s.w.continuity, s.twin.continuity, s.twin.accounts.registry;
    var r := Reservation(a, h, login);
    assert ContinuityKept(c, t, registry, h, At(s.w.records, h));
    NotTakenNotRegistered(a.registry, h, r.rowId);
    ReserveKeeps(a, s.twin.accounts, s.w.records, h, r);
    ReservedKeeps(c, t, registry, h, r);
    OneRecordChanges(c, t, registry, s.w.records, s.w.records[h := r], h);
  }

  lemma ClearStepKeeps(s: State, h: Id)
    requires Inv(s) && h in s.w.records && s.w.records[h].phase.Reserved?
    requires Own(s.w.accounts.registry, h, s.w.records[h].rowId) == []
    ensures var records := Omit(s.w.records, h);
            && AccountsKept(s.w.accounts, s.twin.accounts, records)
            && AllKept(s.w.continuity, s.twin.continuity, s.twin.accounts.registry, records)
  {
    var c, t, registry := s.w.continuity, s.twin.continuity, s.twin.accounts.registry;
    assert ContinuityKept(c, t, registry, h, At(s.w.records, h));
    DeleteKeeps(s.w.accounts, s.twin.accounts, s.w.records, h);
    RegistryWrittenKeeps(c, t, registry, h, s.w.records[h]);
    OneRecordChanges(c, t, registry, s.w.records, Omit(s.w.records, h), h);
  }

  lemma PhaseBegins(s: State, h: Id)
    requires Inv(s) && h in s.w.records && !s.w.records[h].phase.Completed?
    ensures var r := s.w.records[h];
            Underway(s.w.accounts, s.w.continuity, s.twin.continuity, h, r, UnitsOf(s.w.continuity, h, r.phase), !r.phase.RollingBack?)
  {
    var r := s.w.records[h];
    assert ContinuityKept(s.w.continuity, s.twin.continuity, s.twin.accounts.registry, h, At(s.w.records, h));
    if r.phase.RegistryWritten? || r.phase.RollingBack? {
      WorkListIsComplete(s.w.continuity, s.twin.continuity, s.twin.accounts.registry, h, r, r.phase.RegistryWritten?);
    }
  }

  lemma EnterForwardKeeps(s: State, op: Op)
    requires Inv(s) && Clean(s, op) && op.DoWrite?
    requires s.process.Pass? && s.process.queue != [] && s.process.work == None && s.process.forward
    ensures Inv(Step(s, op))
  {
    var h := s.process.queue[0];
    var next := Step(s, op);
    if h !in s.w.records {
      if h in s.logins {
        ReserveStepKeeps(s, h, s.logins[h]);
        assert Progress(next);
      }
    } else if s.w.records[h].phase.Reserved? && h !in s.logins {
      ClearStepKeeps(s, h);
      assert Progress(next);
    } else if !s.w.records[h].phase.Completed? && !s.w.records[h].phase.RollingBack? {
      PhaseBegins(s, h);
      assert Progress(next);
    }
  }

  lemma EnterBackwardKeeps(s: State, op: Op)
    requires Inv(s) && Clean(s, op) && op.DoWrite?
    requires s.process.Pass? && s.process.queue != [] && s.process.work == None && !s.process.forward
    ensures Inv(Step(s, op))
  {
    var h := s.process.queue[0];
    var a, c, t, registry := s.w.accounts, s.w.continuity, s.twin.continuity, s.twin.accounts.registry;
    assert AllKept(c, t, registry, s.w.records);
    assert ContinuityKept(c, t, registry, h, At(s.w.records, h));
    if h in s.w.records {
      var r := s.w.records[h].(phase := RollingBack);
      SetPhaseKeeps(a, s.twin.accounts, s.w.records, h, RollingBack);
      RollingBackKeeps(c, t, registry, h, s.w.records[h]);
      OneRecordChanges(c, t, registry, s.w.records, s.w.records[h := r], h);
      WorkListIsComplete(c, t, registry, h, r, false);
    }
  }

  lemma NextPhaseKeeps(c: Continuity, t: Continuity, registry: seq<Row>, h: Id, r: Record, next: Record)
    requires ContinuityKept(c, t, registry, h, Some(r))
    requires r.phase.Reserved? || r.phase.RegistryWritten? || r.phase.ContinuityMigrated?
    requires r.phase.RegistryWritten? ==> StoresDone(c, t, h, r, {}, true)
    requires next == r.(phase := NextPhase(r.phase))
    ensures ContinuityKept(c, t, registry, h, Some(next))
    ensures r.phase.Reserved? ==> StoresDone(c, t, h, next, UnitsOf(c, h, RegistryWritten), true)
  {
    if r.phase.Reserved? {
      RegistryWrittenKeeps(c, t, registry, h, r);
      WorkListIsComplete(c, t, registry, h, next, true);
    } else if r.phase.RegistryWritten? {
      ContinuityMigratedKeeps(c, t, registry, h, r);
    } else {
      CompletedKeeps(c, t, registry, h, r);
    }
  }

  lemma NextPhaseStepKeeps(a: Accounts, ta: Accounts, c: Continuity, t: Continuity, records: map<Id, Record>, h: Id, next: Record)
    requires AccountsKept(a, ta, records) && AllKept(c, t, ta.registry, records)
    requires h in records && Underway(a, c, t, h, records[h], {}, true) && next == records[h].(phase := NextPhase(records[h].phase))
    ensures AccountsKept(a, ta, records[h := next]) && AllKept(c, t, ta.registry, records[h := next])
    ensures !next.phase.Completed? ==> Underway(a, c, t, h, next, UnitsOf(c, h, next.phase), true)
  {
    NextPhaseKeepsAccounts(a, ta, c, t, records, h, next);
    NextPhaseKeepsStores(a, ta.registry, c, t, records, h, next);
  }

  lemma NextPhaseKeepsStores(a: Accounts, registry: seq<Row>, c: Continuity, t: Continuity, records: map<Id, Record>, h: Id, next: Record)
    requires AllKept(c, t, registry, records) && h in records
    requires Underway(a, c, t, h, records[h], {}, true) && next == records[h].(phase := NextPhase(records[h].phase))
    ensures AllKept(c, t, registry, records[h := next])
    ensures !next.phase.Completed? ==> Underway(a, c, t, h, next, UnitsOf(c, h, next.phase), true)
  {
    assert ContinuityKept(c, t, registry, h, At(records, h));
    NextPhaseKeeps(c, t, registry, h, records[h], next);
    OneRecordChanges(c, t, registry, records, records[h := next], h);
  }

  lemma NextPhaseKeepsAccounts(a: Accounts, ta: Accounts, c: Continuity, t: Continuity, records: map<Id, Record>, h: Id, next: Record)
    requires AccountsKept(a, ta, records) && h in records
    requires Underway(a, c, t, h, records[h], {}, true) && next == records[h].(phase := NextPhase(records[h].phase))
    ensures AccountsKept(a, ta, records[h := next])
  {
    assert RowKept(a, ta, h, records[h]);
    SetPhaseKeeps(a, ta, records, h, next.phase);
  }

  lemma FinishForwardKeeps(s: State, op: Op)
    requires Inv(s) && op.DoWrite?
    requires s.process.Pass? && s.process.queue != [] && s.process.work == Some({}) && s.process.forward
    ensures Inv(Step(s, op))
  {
    var h := s.process.queue[0];
    NextPhaseStepKeeps(s.w.accounts, s.twin.accounts, s.w.continuity, s.twin.continuity, s.w.records, h,
                       s.w.records[h].(phase := NextPhase(s.w.records[h].phase)));
  }

  lemma FinishBackwardKeeps(s: State, op: Op)
    requires Inv(s) && op.DoWrite?
    requires s.process.Pass? && s.process.queue != [] && s.process.work == Some({}) && !s.process.forward
    ensures Inv(Step(s, op))
  {
    var h := s.process.queue[0];
    var r := s.w.records[h];
    var c, t, registry := s.w.continuity, s.twin.continuity, s.twin.accounts.registry;
    assert AllKept(c, t, registry, s.w.records);
    assert ContinuityKept(c, t, registry, h, At(s.w.records, h));
    DeleteKeeps(s.w.accounts, s.twin.accounts, s.w.records, h);
    RolledBackKeeps(c, t, registry, h, r);
    OneRecordChanges(c, t, registry, s.w.records, Omit(s.w.records, h), h);
  }

  lemma WriteStepKeeps(s: State, op: Op)
    requires Inv(s) && Clean(s, op) && op.DoWrite?
    ensures Inv(Step(s, op))
  {
    if s.process.Pass? && s.process.queue != [] {
      if s.process.work == None {
        EnterKeeps(s, op);
      } else if s.process.work.value == {} {
        if s.process.forward { FinishForwardKeeps(s, op); } else { FinishBackwardKeeps(s, op); }
      } else if op.which in s.process.work.value {
        WriteStepWrites(s, op.which);
        match op.which
        case Config => ConfigWriteKeeps(s, Step(s, op));
        case Quota => QuotaWriteKeeps(s, Step(s, op));
        case Sessions(_) => StoreWriteKeeps(s, op.which, Step(s, op));
        case Home(_) => StoreWriteKeeps(s, op.which, Step(s, op));
      }
    }
  }

  lemma ToggleStepKeeps(s: State, op: Op)
    requires Inv(s) && op.DoToggle?
    ensures Inv(Step(s, op))
  {
    if op.owner in s.w.records {
      var a := s.w.accounts;
      var found := FindRow(a.registry, op.owner, s.w.records[op.owner].rowId);
      if found.Some? {
        ToggleKeeps(a, s.twin.accounts, s.w.records, op.owner, found.value, a.registry[found.value].(enabled := op.enabled));
      }
    }
  }

  lemma StepKeeps(s: State, op: Op)
    requires Inv(s) && Clean(s, op)
    ensures Inv(Step(s, op))
  {
    match op
    case DoWrite(_) => WriteStepKeeps(s, op);
    case DoTurn(t, pin) => if Runs(s.w, t, pin) { TurnStepKeeps(s, t, pin, Step(s, op)); }
    case DoToggle(_, _) => ToggleStepKeeps(s, op);
    case DoBoot =>
    case DoRollback(_) =>
    case DoCrash =>
    case DoLogin(_, _) =>
  }
}
