/** What holds over every run whatever: adopted rows, stale lanes, cleared reservations, vanished
    logins, crashes anywhere.  Behind an open gate a record means that all of its migration is in
    effect; a record that a rollback drops leaves nothing of the row in effect. */
module MigrationGate {
  import opened Knowledge
  import opened MigrationModel
  import opened MigrationRuns
  import opened MigrationTwin
  import opened MigrationConvergence
  import opened Sequences

  // ---------------------------------------------------------------- what a phase guarantees

  predicate Moved(phase: Phase) {
    phase.ContinuityMigrated? || phase.Completed?
  }

  ghost predicate InEffect(w: World, h: Id) {
    h in w.records ==>
      var r := w.records[h];
      && (r.phase.RegistryWritten? || Moved(r.phase) ==> HasRow(w.accounts.registry, h, r))
      && (Moved(r.phase) ==> Emptied(w.continuity, h, r.rowId, {}))
  }

  /** Whatever is no longer on a rollback's work list is back: no session under the row, no row
      lane that saw anything else than its default lane, no row home without a default home. */
  ghost predicate Returned(c: Continuity, h: Id, row: Id, work: set<Unit>) {
    && (forall k: SessionKey :: k.harness == h && Sessions(k.partition) !in work ==> At(c.sessions, k) != Some(Some(row)))
    && (forall k: LaneKey :: k.harness == h && k.profile == None && Sessions(k.partition) !in work ==>
          NotStale(At(c.lanes, k), At(c.lanes, k.(profile := Some(row)))))
    && (forall k: HomeKey :: k.harness == h && k.profile == None && Home(k.slot) !in work ==>
          At(c.homes, k.(profile := Some(row))) == None || At(c.homes, k).Some?)
  }

  ghost predicate PassAt(w: World, h: Id, work: set<Unit>, forward: bool) {
    h in w.records &&
    var r := w.records[h];
    if !forward then r.phase.RollingBack? && Returned(w.continuity, h, r.rowId, work)
    else match r.phase
      case Reserved => work <= {Config} && (Config in work || HasRow(w.accounts.registry, h, r))
      case RegistryWritten => (forall u :: u in work ==> u.Sessions? || u.Home?) && Emptied(w.continuity, h, r.rowId, work)
      case ContinuityMigrated => work <= {Quota}
      case Completed => false
      case RollingBack => false
  }

  ghost predicate AllInEffect(w: World) {
    forall h :: InEffect(w, h)
  }

  ghost predicate Passing(w: World, p: Process) {
    p.Pass? && p.queue != [] && p.work.Some? ==> PassAt(w, p.queue[0], p.work.value, p.forward)
  }

  ghost predicate GateInv(s: State) {
    AllInEffect(s.w) && Passing(s.w, s.process) && Past(s.w.continuity, s.clock)
  }

  // ---------------------------------------------------------------- the registry

  lemma RegisterKeepsRows(a: Accounts, h: Id, r: Record, login: Option<Login>, g: Id, other: Record)
    requires HasRow(a.registry, g, other)
    ensures HasRow(Register(a, h, r, login).registry, g, other)
  {
    var i :| 0 <= i < |a.registry| && Adopted(a.registry[i], g, other);
    assert Adopted(Register(a, h, r, login).registry[i], g, other);
  }

  lemma RegisterHasRow(a: Accounts, h: Id, r: Record, login: Option<Login>)
    ensures HasRow(Register(a, h, r, login).registry, h, r)
  {
    if !HasRow(a.registry, h, r) {
      assert Adopted(Register(a, h, r, login).registry[|a.registry|], h, r);
    }
  }

  lemma UnregisterKeepsRows(a: Accounts, h: Id, r: Record, g: Id, other: Record)
    requires g != h && HasRow(a.registry, g, other)
    ensures HasRow(Unregister(a, h, r).registry, g, other)
  {
    var i :| 0 <= i < |a.registry| && Adopted(a.registry[i], g, other);
    var found := FindRow(a.registry, h, r.rowId);
    var after := Unregister(a, h, r).registry;
    if after == a.registry || i < found.value { assert Adopted(after[i], g, other); } else { assert Adopted(after[i - 1], g, other); }
  }

  lemma ToggleKeepsRows(registry: seq<Row>, i: nat, enabled: bool, g: Id, other: Record)
    requires i < |registry| && HasRow(registry, g, other)
    ensures HasRow(registry[i := registry[i].(enabled := enabled)], g, other)
  {
    var j :| 0 <= j < |registry| && Adopted(registry[j], g, other);
    assert Adopted(registry[i := registry[i].(enabled := enabled)][j], g, other);
  }

  // ---------------------------------------------------------------- the stores

  lemma EmptiedDependsOnItsHarness(c: Continuity, c': Continuity, h: Id, row: Id, work: set<Unit>)
    requires Emptied(c, h, row, work) && SameFor(c, c', h)
    ensures Emptied(c', h, row, work)
  {
  }

  lemma ReturnedDependsOnItsHarness(c: Continuity, c': Continuity, h: Id, row: Id, work: set<Unit>)
    requires Returned(c, h, row, work) && SameFor(c, c', h)
    ensures Returned(c', h, row, work)
  {
  }

  lemma ReturnReturns(c: Continuity, h: Id, row: Id, u: Unit, now: nat, work: set<Unit>)
    requires Returned(c, h, row, work) && u in work
    ensures Returned(Return(c, h, row, u, now), h, row, work - {u})
  {
    var c' := Return(c, h, row, u, now);
    forall k: LaneKey | k.harness == h && k.profile == None && Sessions(k.partition) !in work - {u}
      ensures NotStale(At(c'.lanes, k), At(c'.lanes, k.(profile := Some(row))))
    {
      assert At(c'.lanes, k.(profile := Some(row))) == At(c.lanes, k.(profile := Some(row)));
    }
    forall k: HomeKey | k.harness == h && k.profile == None && Home(k.slot) !in work - {u}
      ensures At(c'.homes, k.(profile := Some(row))) == None || At(c'.homes, k).Some?
    {
      if u.Home? { assert u.slot == k.slot <==> HomeKey(h, u.slot, None) == k; }
    }
  }

  lemma EverythingToReturnIsListed(c: Continuity, h: Id, row: Id)
    ensures Returned(c, h, row, UnitsOf(c, h, RollingBack))
  {
    var work := UnitsOf(c, h, RollingBack);
    forall k: LaneKey | k.harness == h && k.profile == None && Sessions(k.partition) !in work
      ensures At(c.lanes, k.(profile := Some(row))) == None
    {
      var k' := k.(profile := Some(row));
      assert Sessions(k'.partition) !in work && k' !in c.lanes;
    }
    forall k: HomeKey | k.harness == h && k.profile == None && Home(k.slot) !in work
      ensures At(c.homes, k.(profile := Some(row))) == None
    {
      var k' := k.(profile := Some(row));
      assert Home(k'.slot) !in work && k' !in c.homes;
    }
  }

  /** A turn behind an open gate, as the row or as another account, leaves nothing under null. */
  lemma TurnKeepsEmptied(c: Continuity, t: Turn, subject: Option<Id>, now: nat, row: Id)
    requires Emptied(c, t.harness, row, {}) && Past(c, now) && subject.Some?
    ensures Emptied(Recorded(c, t, subject, now), t.harness, row, {})
  {
    var c' := Recorded(c, t, subject, now);
    forall k: LaneKey | k.harness == t.harness && k.profile == Some(row)
      ensures TurnOf(Forwarded(At(c'.lanes, k.(profile := None)), At(c'.lanes, k), 0)) == TurnOf(At(c'.lanes, k))
    {
      var d := k.(profile := None);
      assert At(c'.lanes, d) == At(c.lanes, d);
      if d in c.lanes { assert c.lanes[d].at < now; }
    }
    forall k: HomeKey | k.harness == t.harness
      ensures At(c'.homes, k.(profile := None)) == None || At(c'.homes, k.(profile := Some(row))).Some?
    {
      assert At(c'.homes, k.(profile := None)) == At(c.homes, k.(profile := None));
    }
  }

  // ---------------------------------------------------------------- every step

  lemma OthersStayInEffect(before: World, after: World, h: Id)
    requires AllInEffect(before)
    requires forall g :: g != h ==> At(after.records, g) == At(before.records, g) && SameFor(before.continuity, after.continuity, g)
    requires forall g, r :: g != h && HasRow(before.accounts.registry, g, r) ==> HasRow(after.accounts.registry, g, r)
    requires InEffect(after, h)
    ensures AllInEffect(after)
  {
    forall g ensures InEffect(after, g) {
      assert InEffect(before, g);
      if g != h && g in after.records {
        assert At(after.records, g) == At(before.records, g);
        if Moved(after.records[g].phase) {
          EmptiedDependsOnItsHarness(before.continuity, after.continuity, g, after.records[g].rowId, {});
        }
      }
    }
  }

  function StoreWritten(c: Continuity, h: Id, row: Id, u: Unit, now: nat, forward: bool): Continuity {
    if forward then Move(c, h, row, u, now) else Return(c, h, row, u, now)
  }

  lemma StoreWriteStaysInEffect(w: World, h: Id, u: Unit, now: nat, work: set<Unit>, forward: bool)
    requires AllInEffect(w) && PassAt(w, h, work, forward) && u in work && (u.Sessions? || u.Home?)
    ensures AllInEffect(w.(continuity := StoreWritten(w.continuity, h, w.records[h].rowId, u, now, forward)))
  {
    var row := w.records[h].rowId;
    var next := w.(continuity := StoreWritten(w.continuity, h, row, u, now, forward));
    forall g | g != h ensures SameFor(w.continuity, next.continuity, g) { WritesStayInTheirHarness(w.continuity, h, g, row, u, now); }
    assert InEffect(w, h);
    OthersStayInEffect(w, next, h);
  }

  lemma StoreWriteStaysOnItsPass(w: World, h: Id, u: Unit, now: nat, work: set<Unit>, forward: bool)
    requires PassAt(w, h, work, forward) && u in work && (u.Sessions? || u.Home?)
    ensures PassAt(w.(continuity := StoreWritten(w.continuity, h, w.records[h].rowId, u, now, forward)), h, work - {u}, forward)
  {
    var row := w.records[h].rowId;
    if forward { MoveEmpties(w.continuity, h, row, u, now, work); } else { ReturnReturns(w.continuity, h, row, u, now, work); }
  }

  lemma StoreWriteKeepsGate(s: State, u: Unit)
    requires GateInv(s) && s.process.Pass? && s.process.queue != [] && s.process.work.Some?
    requires u in s.process.work.value && (u.Sessions? || u.Home?)
    ensures GateInv(Step(s, DoWrite(u)))
  {
    var h, work, forward := s.process.queue[0], s.process.work.value, s.process.forward;
    var row, c := s.w.records[h].rowId, s.w.continuity;
    StoreWriteStaysInEffect(s.w, h, u, s.clock, work, forward);
    StoreWriteStaysOnItsPass(s.w, h, u, s.clock, work, forward);
    WritesStayInThePast(c, h, row, u, s.clock);
    assert Step(s, DoWrite(u)).w == s.w.(continuity := StoreWritten(c, h, row, u, s.clock, forward));
  }

  lemma ConfigWriteKeepsGate(s: State)
    requires GateInv(s) && s.process.Pass? && s.process.queue != [] && s.process.work.Some? && Config in s.process.work.value
    ensures GateInv(Step(s, DoWrite(Config)))
  {
    var h, work, forward := s.process.queue[0], s.process.work.value, s.process.forward;
    var r, login := s.w.records[h], At(s.logins, h);
    var a := s.w.accounts;
    var a' := if forward then Register(a, h, r, login) else Unregister(a, h, r);
    var next := s.w.(accounts := a');
    forall g, other | g != h && HasRow(a.registry, g, other) ensures HasRow(a'.registry, g, other) {
      if forward { RegisterKeepsRows(a, h, r, login, g, other); } else { UnregisterKeepsRows(a, h, r, g, other); }
    }
    if forward { RegisterHasRow(a, h, r, login); }
    assert InEffect(s.w, h);
    OthersStayInEffect(s.w, next, h);
    assert Step(s, DoWrite(Config)).w == next;
    assert PassAt(next, h, work - {Config}, forward);
  }

  lemma QuotaWriteKeepsGate(s: State)
    requires GateInv(s) && s.process.Pass? && s.process.queue != [] && s.process.work.Some? && Quota in s.process.work.value
    ensures GateInv(Step(s, DoWrite(Quota)))
  {
    var h, work, forward := s.process.queue[0], s.process.work.value, s.process.forward;
    var next := Step(s, DoWrite(Quota)).w;
    assert next == s.w.(quota := next.quota);
    forall g ensures InEffect(next, g) { assert InEffect(s.w, g); }
    assert PassAt(next, h, work - {Quota}, forward);
  }

  /** A write to one record: all others stay in effect. */
  lemma RecordWriteKeepsOthers(w: World, records: map<Id, Record>, h: Id)
    requires AllInEffect(w) && InEffect(w.(records := records), h)
    requires forall g :: g != h ==> At(records, g) == At(w.records, g)
    ensures AllInEffect(w.(records := records))
  {
    forall g ensures SameFor(w.continuity, w.continuity, g) { }
    OthersStayInEffect(w, w.(records := records), h);
  }

  /** The forward pass opened, cleared or resumed the record of `h`. */
  lemma OpenKeepsGate(w: World, records: map<Id, Record>, h: Id, logins: map<Id, Login>)
    requires AllInEffect(w)
    requires || records == w.records
             || (h !in w.records && h in logins && records == w.records[h := Reservation(w.accounts, h, logins[h])])
             || records == Omit(w.records, h)
    ensures AllInEffect(w.(records := records))
    ensures h in records && !records[h].phase.Completed? && !records[h].phase.RollingBack? ==>
              PassAt(w.(records := records), h, UnitsOf(w.continuity, h, records[h].phase), true)
  {
    assert InEffect(w, h);
    RecordWriteKeepsOthers(w, records, h);
    if h in records { EverythingIsListed(w.continuity, h, records[h].rowId); }
  }

  lemma EnterForwardKeepsGate(s: State, op: Op)
    requires GateInv(s) && op.DoWrite?
    requires s.process.Pass? && s.process.queue != [] && s.process.work == None && s.process.forward
    ensures GateInv(Step(s, op))
  {
    OpenKeepsGate(s.w, Step(s, op).w.records, s.process.queue[0], s.logins);
  }

  lemma EnterBackwardKeepsGate(s: State, op: Op)
    requires GateInv(s) && op.DoWrite?
    requires s.process.Pass? && s.process.queue != [] && s.process.work == None && !s.process.forward
    ensures GateInv(Step(s, op))
  {
    var h := s.process.queue[0];
    var next := Step(s, op);
    assert InEffect(s.w, h);
    assert next.w == s.w.(records := next.w.records);
    RecordWriteKeepsOthers(s.w, next.w.records, h);
    if h in next.w.records { EverythingToReturnIsListed(s.w.continuity, h, next.w.records[h].rowId); }
    assert Passing(next.w, next.process);
  }

  lemma FinishKeepsGate(s: State, op: Op)
    requires GateInv(s) && op.DoWrite?
    requires s.process.Pass? && s.process.queue != [] && s.process.work == Some({})
    ensures GateInv(Step(s, op))
  {
    var h := s.process.queue[0];
    var next := Step(s, op);
    assert InEffect(s.w, h) && PassAt(s.w, h, {}, s.process.forward);
    assert next.w == s.w.(records := next.w.records);
    RecordWriteKeepsOthers(s.w, next.w.records, h);
    if h in next.w.records { EverythingIsListed(s.w.continuity, h, next.w.records[h].rowId); }
    assert Passing(next.w, next.process);
  }

  lemma TurnStaysInEffect(w: World, t: Turn, subject: Option<Id>, now: nat)
    requires AllInEffect(w) && Past(w.continuity, now) && GateOpen(w, t.harness) && (t.harness in w.records ==> subject.Some?)
    ensures AllInEffect(w.(continuity := Recorded(w.continuity, t, subject, now)))
  {
    var next := w.(continuity := Recorded(w.continuity, t, subject, now));
    forall g | g != t.harness ensures SameFor(w.continuity, next.continuity, g) { }
    assert InEffect(w, t.harness);
    if t.harness in w.records { TurnKeepsEmptied(w.continuity, t, subject, now, w.records[t.harness].rowId); }
    OthersStayInEffect(w, next, t.harness);
  }

  /** A pass under way is at another harness than the one that runs. */
  lemma TurnStaysOnThePass(w: World, t: Turn, subject: Option<Id>, now: nat, h: Id, work: set<Unit>, forward: bool)
    requires PassAt(w, h, work, forward) && GateOpen(w, t.harness)
    ensures PassAt(w.(continuity := Recorded(w.continuity, t, subject, now)), h, work, forward)
  {
    var c, c', row := w.continuity, Recorded(w.continuity, t, subject, now), w.records[h].rowId;
    assert h != t.harness && SameFor(c, c', h);
    if !forward { ReturnedDependsOnItsHarness(c, c', h, row, work); }
    else if w.records[h].phase.RegistryWritten? { EmptiedDependsOnItsHarness(c, c', h, row, work); }
  }

  lemma TurnKeepsGate(s: State, t: Turn, pin: Option<Id>)
    requires GateInv(s) && Runs(s.w, t, pin)
    ensures GateInv(Step(s, DoTurn(t, pin)))
  {
    var subject := SubjectOf(s.w, t.harness, pin);
    TurnStaysInEffect(s.w, t, subject, s.clock);
    if s.process.Pass? && s.process.queue != [] && s.process.work.Some? {
      TurnStaysOnThePass(s.w, t, subject, s.clock, s.process.queue[0], s.process.work.value, s.process.forward);
    }
  }

  lemma ToggleKeepsGate(s: State, op: Op)
    requires GateInv(s) && op.DoToggle?
    ensures GateInv(Step(s, op))
  {
    var next := Step(s, op).w;
    if next != s.w {
      var found := FindRow(s.w.accounts.registry, op.owner, s.w.records[op.owner].rowId);
      forall g, other | HasRow(s.w.accounts.registry, g, other) ensures HasRow(next.accounts.registry, g, other) {
        ToggleKeepsRows(s.w.accounts.registry, found.value, op.enabled, g, other);
      }
      assert next == s.w.(accounts := next.accounts);
      forall g ensures InEffect(next, g) { assert InEffect(s.w, g); }
    }
    assert Passing(next, s.process);
  }

  lemma StepKeepsGate(s: State, op: Op)
    requires GateInv(s)
    ensures GateInv(Step(s, op))
  {
    match op
    case DoWrite(u) =>
      if s.process.Pass? && s.process.queue != [] {
        if s.process.work == None {
          if s.process.forward { EnterForwardKeepsGate(s, op); } else { EnterBackwardKeepsGate(s, op); }
        }
        else if s.process.work == Some({}) { FinishKeepsGate(s, op); }
        else if u in s.process.work.value {
          match u
          case Config => ConfigWriteKeepsGate(s);
          case Quota => QuotaWriteKeepsGate(s);
          case Sessions(_) => StoreWriteKeepsGate(s, u);
          case Home(_) => StoreWriteKeepsGate(s, u);
        }
      }
    case DoTurn(t, pin) => if Runs(s.w, t, pin) { TurnKeepsGate(s, t, pin); }
    case DoToggle(_, _) => ToggleKeepsGate(s, op);
    case DoBoot =>
    case DoRollback(_) =>
    case DoCrash =>
    case DoLogin(_, _) =>
  }

  lemma {:induction false} RunKeepsGate(s: State, ops: seq<Op>)
    requires GateInv(s)
    ensures GateInv(Run(s, ops))
    decreases |ops|
  {
    if ops != [] {
      StepKeepsGate(s, ops[0]);
      RunKeepsGate(Step(s, ops[0]), ops[1..]);
    }
  }

  // ---------------------------------------------------------------- the quota subjects

  /** A completed harness has no null subject left, and a pass that made its quota write has
      retired the subject that write is about. */
  ghost predicate QuotaKept(records: map<Id, Record>, quota: set<Subject>, p: Process) {
    && (forall h :: h in records && records[h].phase.Completed? ==> Subject(h, None) !in quota)
    && (p.Pass? && p.queue != [] && p.work.Some? && Quota !in p.work.value && p.queue[0] in records ==>
          QuotaDone(records[p.queue[0]], quota, p.queue[0], p.forward))
  }

  predicate QuotaDone(r: Record, quota: set<Subject>, h: Id, forward: bool) {
    if !forward then Subject(h, Some(r.rowId)) !in quota
    else r.phase.ContinuityMigrated? ==> Subject(h, None) !in quota
  }

  lemma WriteKeepsQuota(s: State, op: Op)
    requires QuotaKept(s.w.records, s.w.quota, s.process) && op.DoWrite?
    requires s.process.Pass? && s.process.queue != [] && s.process.work.Some? && s.process.work.value != {}
    ensures QuotaKept(Step(s, op).w.records, Step(s, op).w.quota, Step(s, op).process)
  {
    assert Step(s, op).w.records == s.w.records;
  }

  lemma StepKeepsQuota(s: State, op: Op)
    requires QuotaKept(s.w.records, s.w.quota, s.process)
    ensures QuotaKept(Step(s, op).w.records, Step(s, op).w.quota, Step(s, op).process)
  {
    if op.DoWrite? {
      if s.process.Pass? && s.process.queue != [] && s.process.work.Some? && s.process.work.value != {} {
        WriteKeepsQuota(s, op);
      } else {
        assert Step(s, op).w.quota == s.w.quota;
      }
    } else {
      assert Step(s, op).w.quota == s.w.quota && Step(s, op).w.records == s.w.records;
    }
  }

  lemma {:induction false} RunKeepsQuota(s: State, ops: seq<Op>)
    requires QuotaKept(s.w.records, s.w.quota, s.process)
    ensures QuotaKept(Run(s, ops).w.records, Run(s, ops).w.quota, Run(s, ops).process)
    decreases |ops|
  {
    if ops != [] {
      StepKeepsQuota(s, ops[0]);
      RunKeepsQuota(Step(s, ops[0]), ops[1..]);
    }
  }

  // ---------------------------------------------------------------- gate safety

  lemma StartIsInEffect(w: World, logins: map<Id, Login>, clock: nat)
    requires w.records == map[] && Past(w.continuity, clock)
    ensures GateInv(Start(w, logins, clock))
  {
    forall h ensures InEffect(w, h) { }
  }

  /** Over every run, with no exception: whenever the gate lets a harness with a record run, the
      whole migration is in effect.  No session is left under null, no lane is behind its default
      lane, no default home is without a row home, the row is registered, and the null quota
      subject is retired. */
  lemma GateSafety(w: World, logins: map<Id, Login>, clock: nat, ops: seq<Op>, h: Id)
    requires w.records == map[] && Past(w.continuity, clock)
    ensures var s := Run(Start(w, logins, clock), ops);
            GateOpen(s.w, h) && h in s.w.records ==>
              && Emptied(s.w.continuity, h, s.w.records[h].rowId, {})
              && HasRow(s.w.accounts.registry, h, s.w.records[h])
              && Subject(h, None) !in s.w.quota
  {
    StartIsInEffect(w, logins, clock);
    RunKeepsGate(Start(w, logins, clock), ops);
    RunKeepsQuota(Start(w, logins, clock), ops);
    assert InEffect(Run(Start(w, logins, clock), ops).w, h);
  }

  /** And whenever a rollback drops a record, nothing of the migration is left in effect: no
      session under the row, every row lane at its default lane's turn, every row home gone or
      beside a default home, and the row's quota subject retired. */
  lemma DroppedRecordsLeaveNothing(w: World, logins: map<Id, Login>, clock: nat, ops: seq<Op>, which: Unit, h: Id)
    requires w.records == map[] && Past(w.continuity, clock)
    ensures var s := Run(Start(w, logins, clock), ops);
            var next := Step(s, DoWrite(which)).w;
            h in s.w.records && h !in next.records && !s.process.forward ==>
              && Returned(next.continuity, h, s.w.records[h].rowId, {})
              && Subject(h, Some(s.w.records[h].rowId)) !in next.quota
  {
    var s := Run(Start(w, logins, clock), ops);
    StartIsInEffect(w, logins, clock);
    RunKeepsGate(Start(w, logins, clock), ops);
    RunKeepsQuota(Start(w, logins, clock), ops);
    RecordsLiveOn(s, DoWrite(which), h);
  }

  // ---------------------------------------------------------------- rows

  function AtLocator(h: Id, locator: string): Row -> bool { (row: Row) => row.harness == h && row.locator == Some(locator) }

  function RowsAt(registry: seq<Row>, h: Id, locator: string): nat {
    |Filter(registry, AtLocator(h, locator))|
  }

  lemma ConfigAddsNoSecondRow(a: Accounts, g: Id, r: Record, login: Option<Login>, h: Id, locator: string)
    ensures var before, after := RowsAt(a.registry, h, locator), RowsAt(Register(a, g, r, login).registry, h, locator);
            after <= before || (before == 0 && after == 1)
    ensures RowsAt(Unregister(a, g, r).registry, h, locator) <= RowsAt(a.registry, h, locator)
  {
    if !HasRow(a.registry, g, r) { AppendedRow(a.registry, RowFor(a, g, r, login), g, r, h, locator); }
    var found := FindRow(a.registry, g, r.rowId);
    if found.Some? { RemovedRow(a.registry, found.value, AtLocator(h, locator)); }
  }

  lemma SameRows(a: seq<Row>, i: nat, row: Row, keep: Row -> bool)
    requires i < |a| && keep(a[i]) == keep(row)
    ensures |Filter(a[i := row], keep)| == |Filter(a, keep)|
  {
    var before, after := a[..i], a[i + 1..];
    FilterLengths(before, [a[i]], after, keep);
    FilterLengths(before, [row], after, keep);
    assert a[i := row] == before + [row] + after;
    var all := before + [a[i]] + after;
    assert all == a;
  }

  /** The step makes the config write of the pass under way. */
  predicate ConfigWrite(s: State, op: Op) {
    && op.DoWrite? && op.which.Config? && s.process.Pass? && s.process.queue != [] && s.process.queue[0] in s.w.records
    && s.process.work.Some? && Config in s.process.work.value
  }

  function ConfigWritten(s: State): Accounts
    requires s.process.Pass? && s.process.queue != [] && s.process.queue[0] in s.w.records
  {
    var h := s.process.queue[0];
    if s.process.forward then Register(s.w.accounts, h, s.w.records[h], At(s.logins, h)) else Unregister(s.w.accounts, h, s.w.records[h])
  }

  /** Only the config writes and the user's toggle touch the registry. */
  lemma RegistryWrites(s: State, op: Op)
    ensures var next := Step(s, op);
            if ConfigWrite(s, op) then
              next.w == s.w.(accounts := ConfigWritten(s)) && next.process == s.process.(work := Some(s.process.work.value - {Config}))
            else
              || next.w.accounts.registry == s.w.accounts.registry
              || (op.DoToggle? && op.owner in s.w.records && next == Toggle(s, op.owner, op.enabled).(clock := s.clock + 1))
  {
    match op
    case DoWrite(_) =>
    case DoToggle(_, _) =>
    case DoTurn(_, _) =>
    case DoBoot =>
    case DoRollback(_) =>
    case DoCrash =>
    case DoLogin(_, _) =>
  }

  lemma StepAddsNoSecondRow(s: State, op: Op, h: Id, locator: string)
    ensures var before, after := RowsAt(s.w.accounts.registry, h, locator), RowsAt(Step(s, op).w.accounts.registry, h, locator);
            after <= before || (before == 0 && after == 1)
  {
    RegistryWrites(s, op);
    var a := s.w.accounts;
    if ConfigWrite(s, op) {
      var g := s.process.queue[0];
      ConfigAddsNoSecondRow(a, g, s.w.records[g], At(s.logins, g), h, locator);
    } else if op.DoToggle? && op.owner in s.w.records {
      var found := FindRow(a.registry, op.owner, s.w.records[op.owner].rowId);
      if found.Some? { SameRows(a.registry, found.value, a.registry[found.value].(enabled := op.enabled), AtLocator(h, locator)); }
    }
  }

  lemma RemovedRow(a: seq<Row>, i: nat, keep: Row -> bool)
    requires i < |a|
    ensures |Filter(a[..i] + a[i + 1..], keep)| <= |Filter(a, keep)|
  {
    var before, after := a[..i], a[i + 1..];
    assert a == before + [a[i]] + after;
    FilterLengths(before, [a[i]], after, keep);
    FilterSplits(before, after, keep);
  }

  lemma AppendedRow(a: seq<Row>, row: Row, g: Id, r: Record, h: Id, locator: string)
    requires !HasRow(a, g, r) && row.harness == g && row.locator == Some(r.locator)
    ensures RowsAt(a + [row], h, locator) <= RowsAt(a, h, locator) || (RowsAt(a, h, locator) == 0 && RowsAt(a + [row], h, locator) == 1)
  {
    var keep := AtLocator(h, locator);
    FilterSplits(a, [row], keep);
    if Filter(a, keep) != [] { FilterMembers(a, keep, Filter(a, keep)[0]); }
  }

  /** No second row for a locator ever appears, whatever runs and whatever is adopted. */
  lemma {:induction false} NoSecondRow(s: State, ops: seq<Op>, h: Id, locator: string)
    ensures var before, after := RowsAt(s.w.accounts.registry, h, locator), RowsAt(Run(s, ops).w.accounts.registry, h, locator);
            after <= before || after == 1
    decreases |ops|
  {
    if ops != [] {
      StepAddsNoSecondRow(s, ops[0], h, locator);
      NoSecondRow(Step(s, ops[0]), ops[1..], h, locator);
    }
  }

  // ---------------------------------------------------------------- what a finished rollback leaves of a lane

  /** What the reseeding looks at: the row lane's turn where there is one. */
  function Effective(c: Continuity, row: Id, k: LaneKey): Option<Id> {
    TurnOf(if At(c.lanes, k.(profile := Some(row))).Some? then At(c.lanes, k.(profile := Some(row))) else At(c.lanes, k))
  }

  ghost predicate RollingBackAt(s: State, h: Id, row: Id) {
    h in s.w.records && s.w.records[h].phase.RollingBack? && s.w.records[h].rowId == row
  }

  lemma ReturnKeepsEffective(c: Continuity, h: Id, row: Id, u: Unit, now: nat, k: LaneKey)
    requires k.harness == h && k.profile == None
    ensures Effective(Return(c, h, row, u, now), row, k) == Effective(c, row, k)
  {
    var c' := Return(c, h, row, u, now);
    var k' := k.(profile := Some(row));
    assert At(c'.lanes, k') == At(c.lanes, k');
    if u.Sessions? { assert At(c'.lanes, k) == LaneReturned(c.lanes, k, h, row, u.partition, now); }
  }

  lemma EffectiveDependsOnItsHarness(c: Continuity, c': Continuity, row: Id, k: LaneKey)
    requires SameFor(c, c', k.harness)
    ensures Effective(c', row, k) == Effective(c, row, k)
  {
    assert At(c'.lanes, k) == At(c.lanes, k) && At(c'.lanes, k.(profile := Some(row))) == At(c.lanes, k.(profile := Some(row)));
  }

  lemma StoreWriteKeepsEffective(s: State, u: Unit, k: LaneKey, row: Id)
    requires GateInv(s) && k.profile == None && RollingBackAt(s, k.harness, row)
    requires s.process.Pass? && s.process.queue != [] && s.process.work.Some? && u in s.process.work.value && (u.Sessions? || u.Home?)
    ensures Effective(Step(s, DoWrite(u)).w.continuity, row, k) == Effective(s.w.continuity, row, k)
  {
    var h := s.process.queue[0];
    var c, c' := s.w.continuity, Step(s, DoWrite(u)).w.continuity;
    var r := s.w.records[h];
    assert c' == if s.process.forward then Move(c, h, r.rowId, u, s.clock) else Return(c, h, r.rowId, u, s.clock);
    if h == k.harness {
      ReturnKeepsEffective(c, h, row, u, s.clock, k);
    } else {
      WritesStayInTheirHarness(c, h, k.harness, r.rowId, u, s.clock);
      EffectiveDependsOnItsHarness(c, c', row, k);
    }
  }

  lemma StepKeepsEffective(s: State, op: Op, k: LaneKey, row: Id)
    requires GateInv(s) && k.profile == None && RollingBackAt(s, k.harness, row)
    ensures Effective(Step(s, op).w.continuity, row, k) == Effective(s.w.continuity, row, k)
    ensures k.harness in Step(s, op).w.records ==> RollingBackAt(Step(s, op), k.harness, row)
  {
    RecordsLiveOn(s, op, k.harness);
    if op.DoWrite? && (op.which.Sessions? || op.which.Home?) && s.process.Pass? && s.process.queue != []
       && s.process.work.Some? && op.which in s.process.work.value
    {
      StoreWriteKeepsEffective(s, op.which, k, row);
    } else if op.DoTurn? {
      if Runs(s.w, op.t, op.pin) {
        assert op.t.harness != k.harness;
        EffectiveDependsOnItsHarness(s.w.continuity, Step(s, op).w.continuity, row, k);
      }
    } else {
      assert Step(s, op).w.continuity == s.w.continuity;
    }
  }

  /** The harness's record stays throughout the operations. */
  predicate StaysOpen(s: State, ops: seq<Op>, h: Id)
    decreases |ops|
  {
    h in s.w.records && (ops == [] || StaysOpen(Step(s, ops[0]), ops[1..], h))
  }

  lemma {:induction false} RunKeepsEffective(s: State, ops: seq<Op>, k: LaneKey, row: Id)
    requires GateInv(s) && k.profile == None && RollingBackAt(s, k.harness, row) && StaysOpen(s, ops, k.harness)
    ensures var end := Run(s, ops);
            GateInv(end) && RollingBackAt(end, k.harness, row) && Effective(end.w.continuity, row, k) == Effective(s.w.continuity, row, k)
    decreases |ops|
  {
    if ops != [] {
      StepKeepsGate(s, ops[0]);
      StepKeepsEffective(s, ops[0], k, row);
      RunKeepsEffective(Step(s, ops[0]), ops[1..], k, row);
    }
  }

  /** A rollback about to look at the harness's record. */
  predicate AboutToRollBack(s: State, h: Id) {
    s.process.Pass? && !s.process.forward && s.process.queue != [] && s.process.queue[0] == h && s.process.work == None && h in s.w.records
  }

  /** From a rollback's first look at a record, through any operations at all (crashes, reruns,
      startups, turns of other harnesses), to the write that drops the record. */
  predicate RollsBack(s: State, first: Unit, ops: seq<Op>, last: Unit, h: Id) {
    && AboutToRollBack(s, h)
    && StaysOpen(Step(s, DoWrite(first)), ops, h)
    && h !in Step(Run(Step(s, DoWrite(first)), ops), DoWrite(last)).w.records
  }

  function RolledBack(s: State, first: Unit, ops: seq<Op>, last: Unit): State {
    Step(Run(Step(s, DoWrite(first)), ops), DoWrite(last))
  }

  lemma RollbackLeavesTheEffectiveTurn(s: State, first: Unit, ops: seq<Op>, last: Unit, k: LaneKey)
    requires GateInv(s) && k.profile == None && RollsBack(s, first, ops, last, k.harness)
    ensures TurnOf(At(RolledBack(s, first, ops, last).w.continuity.lanes, k))
         == Effective(s.w.continuity, s.w.records[k.harness].rowId, k)
  {
    var row := s.w.records[k.harness].rowId;
    var s1 := Step(s, DoWrite(first));
    StepKeepsGate(s, DoWrite(first));
    RunKeepsEffective(s1, ops, k, row);
    var end := Run(s1, ops);
    RecordsLiveOn(end, DoWrite(last), k.harness);
    assert PassAt(end.w, k.harness, {}, false);
    assert NotStale(At(end.w.continuity.lanes, k), At(end.w.continuity.lanes, k.(profile := Some(row))));
    assert Step(end, DoWrite(last)).w.continuity == end.w.continuity;
  }

  /** Over every run: a finished rollback leaves the default lanes of any set of partitions at the
      turns they had when it began, if and only if no row lane of these partitions was stale then.
      Up to `registry_written` those are the turns from before the migration (`DefaultLanesWait`). */
  lemma RollbackRestoresLanesExactlyWhen(w: World, logins: map<Id, Login>, clock: nat, before: seq<Op>,
                                         first: Unit, ops: seq<Op>, last: Unit, h: Id, partitions: set<Id>)
    requires w.records == map[] && Past(w.continuity, clock)
    requires RollsBack(Run(Start(w, logins, clock), before), first, ops, last, h)
    ensures var s := Run(Start(w, logins, clock), before);
            var after := RolledBack(s, first, ops, last).w.continuity.lanes;
            var row := s.w.records[h].rowId;
            (forall k: LaneKey :: k.harness == h && k.profile == None && k.partition in partitions ==>
               TurnOf(At(after, k)) == TurnOf(At(s.w.continuity.lanes, k)))
            <==>
            (forall k: LaneKey :: k.harness == h && k.profile == None && k.partition in partitions ==>
               NotStale(At(s.w.continuity.lanes, k), At(s.w.continuity.lanes, k.(profile := Some(row)))))
  {
    var s := Run(Start(w, logins, clock), before);
    var after := RolledBack(s, first, ops, last).w.continuity.lanes;
    var row := s.w.records[h].rowId;
    StartIsInEffect(w, logins, clock);
    RunKeepsGate(Start(w, logins, clock), before);
    forall k: LaneKey | k.harness == h && k.profile == None
      ensures TurnOf(At(after, k)) == TurnOf(At(s.w.continuity.lanes, k))
         <==> NotStale(At(s.w.continuity.lanes, k), At(s.w.continuity.lanes, k.(profile := Some(row))))
    {
      RollbackLeavesTheEffectiveTurn(s, first, ops, last, k);
    }
  }

  // ---------------------------------------------------------------- the default lanes on the way

  /** Up to `registry_written`. */
  predicate OnItsWay(w: World, h: Id) {
    h in w.records && (w.records[h].phase.Reserved? || w.records[h].phase.RegistryWritten?)
  }

  predicate StaysOnItsWay(s: State, ops: seq<Op>, h: Id)
    decreases |ops|
  {
    OnItsWay(s.w, h) && (ops == [] || StaysOnItsWay(Step(s, ops[0]), ops[1..], h))
  }

  lemma StoreWriteKeepsDefaultLane(s: State, u: Unit, k: LaneKey)
    requires GateInv(s) && k.profile == None && OnItsWay(s.w, k.harness)
    requires s.process.Pass? && s.process.queue != [] && s.process.work.Some? && u in s.process.work.value && (u.Sessions? || u.Home?)
    ensures At(Step(s, DoWrite(u)).w.continuity.lanes, k) == At(s.w.continuity.lanes, k)
  {
    var h := s.process.queue[0];
    var c, c' := s.w.continuity, Step(s, DoWrite(u)).w.continuity;
    var r := s.w.records[h];
    assert PassAt(s.w, h, s.process.work.value, s.process.forward);
    assert c' == if s.process.forward then Move(c, h, r.rowId, u, s.clock) else Return(c, h, r.rowId, u, s.clock);
    if h != k.harness {
      WritesStayInTheirHarness(c, h, k.harness, r.rowId, u, s.clock);
    } else if u.Sessions? {
      assert At(c'.lanes, k) == LaneMoved(c.lanes, k, h, r.rowId, u.partition, s.clock);
    }
  }

  lemma StepKeepsDefaultLane(s: State, op: Op, k: LaneKey)
    requires GateInv(s) && k.profile == None && OnItsWay(s.w, k.harness)
    ensures At(Step(s, op).w.continuity.lanes, k) == At(s.w.continuity.lanes, k)
  {
    if op.DoWrite? && (op.which.Sessions? || op.which.Home?) && s.process.Pass? && s.process.queue != []
       && s.process.work.Some? && op.which in s.process.work.value
    {
      StoreWriteKeepsDefaultLane(s, op.which, k);
    } else if op.DoTurn? {
      if Runs(s.w, op.t, op.pin) { assert op.t.harness != k.harness; }
    } else {
      assert Step(s, op).w.continuity == s.w.continuity;
    }
  }

  lemma {:induction false} RunKeepsDefaultLane(s: State, ops: seq<Op>, k: LaneKey)
    requires GateInv(s) && k.profile == None && StaysOnItsWay(s, ops, k.harness)
    ensures At(Run(s, ops).w.continuity.lanes, k) == At(s.w.continuity.lanes, k)
    decreases |ops|
  {
    if ops != [] {
      StepKeepsGate(s, ops[0]);
      StepKeepsDefaultLane(s, ops[0], k);
      RunKeepsDefaultLane(Step(s, ops[0]), ops[1..], k);
    }
  }

  /** From the reservation on and up to `registry_written` the default lanes wait as they were,
      whatever runs: a rollback that begins there meets the turns from before the migration. */
  lemma DefaultLanesWait(w: World, logins: map<Id, Login>, clock: nat, before: seq<Op>, open: Op, ops: seq<Op>, k: LaneKey)
    requires w.records == map[] && Past(w.continuity, clock) && k.profile == None
    requires k.harness !in Run(Start(w, logins, clock), before).w.records
    requires StaysOnItsWay(Step(Run(Start(w, logins, clock), before), open), ops, k.harness)
    ensures var s := Run(Start(w, logins, clock), before);
            At(Run(Step(s, open), ops).w.continuity.lanes, k) == At(s.w.continuity.lanes, k)
  {
    var s := Run(Start(w, logins, clock), before);
    StartIsInEffect(w, logins, clock);
    RunKeepsGate(Start(w, logins, clock), before);
    StepKeepsGate(s, open);
    assert Step(s, open).w.records != s.w.records;
    assert Step(s, open).w.continuity == s.w.continuity;
    RunKeepsDefaultLane(Step(s, open), ops, k);
  }
}
