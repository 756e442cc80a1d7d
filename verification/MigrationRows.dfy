/** The registry over a record's whole life, from its reservation to the write that closes it:
    when the rows of the harness are what they were, over every run, adopted rows included. */
module MigrationRows {
  import opened Knowledge
  import opened MigrationModel
  import opened MigrationRuns
  import opened MigrationTwin
  import opened MigrationConvergence
  import opened MigrationGate
  import opened Sequences

  // ---------------------------------------------------------------- the rows of a harness

  /** A row without its switch, which the user may turn at any time. */
  function Shape(row: Row): Row { row.(enabled := true) }

  /** The rows of the harness in order, switches aside. */
  function Rows(registry: seq<Row>, h: Id): seq<Row> {
    if registry == [] then [] else (if registry[0].harness == h then [Shape(registry[0])] else []) + Rows(registry[1..], h)
  }

  function HasId(id: Id): Row -> bool { (row: Row) => row.id == id }
  function HasLocator(locator: string): Row -> bool { (row: Row) => row.locator == Some(locator) }

  function First(rows: seq<Row>, p: Row -> bool): (found: Option<Row>)
    ensures found.Some? ==> found.value in rows && p(found.value)
    ensures found.None? ==> forall row :: row in rows ==> !p(row)
  {
    if rows == [] then None else if p(rows[0]) then Some(rows[0]) else First(rows[1..], p)
  }

  lemma {:induction false} RowsSplit(a: seq<Row>, b: seq<Row>, h: Id)
    ensures Rows(a + b, h) == Rows(a, h) + Rows(b, h)
  {
    if a == [] {
      assert a + b == b;
    } else {
      assert (a + b)[1..] == a[1..] + b;
      RowsSplit(a[1..], b, h);
    }
  }

  lemma {:induction false} FirstSplit(a: seq<Row>, b: seq<Row>, p: Row -> bool)
    ensures First(a + b, p) == if First(a, p).Some? then First(a, p) else First(b, p)
  {
    if a == [] {
      assert a + b == b;
    } else {
      assert (a + b)[1..] == a[1..] + b;
      FirstSplit(a[1..], b, p);
    }
  }

  lemma {:induction false} RowOfHarness(registry: seq<Row>, h: Id, row: Row)
    ensures row in Rows(registry, h) <==> exists i :: 0 <= i < |registry| && registry[i].harness == h && Shape(registry[i]) == row
  {
    if registry != [] {
      RowOfHarness(registry[1..], h, row);
      assert registry == [registry[0]] + registry[1..];
      if exists i :: 0 <= i < |registry| && registry[i].harness == h && Shape(registry[i]) == row {
        var i :| 0 <= i < |registry| && registry[i].harness == h && Shape(registry[i]) == row;
        if i > 0 { assert registry[1..][i - 1] == registry[i]; }
      }
    }
  }

  lemma {:induction false} FindRowIsFirst(registry: seq<Row>, h: Id, id: Id)
    ensures var found := FindRow(registry, h, id);
            First(Rows(registry, h), HasId(id)) == if found.Some? then Some(Shape(registry[found.value])) else None
  {
    if registry != [] {
      FindRowIsFirst(registry[1..], h, id);
      FirstSplit(if registry[0].harness == h then [Shape(registry[0])] else [], Rows(registry[1..], h), HasId(id));
    }
  }

  lemma {:induction false} FindLocatorIsFirst(registry: seq<Row>, h: Id, locator: string)
    ensures var found := FindLocator(registry, h, locator);
            First(Rows(registry, h), HasLocator(locator)) == if found.Some? then Some(Shape(found.value)) else None
  {
    if registry != [] {
      FindLocatorIsFirst(registry[1..], h, locator);
      FirstSplit(if registry[0].harness == h then [Shape(registry[0])] else [], Rows(registry[1..], h), HasLocator(locator));
    }
  }

  lemma RegisteredMeans(registry: seq<Row>, h: Id, id: Id)
    ensures Registered(registry, h, id) <==> First(Rows(registry, h), HasId(id)).Some?
  {
    FindRowIsFirst(registry, h, id);
  }

  lemma HasRowMeans(registry: seq<Row>, h: Id, r: Record)
    ensures HasRow(registry, h, r) <==>
              First(Rows(registry, h), HasId(r.rowId)).Some? || First(Rows(registry, h), HasLocator(r.locator)).Some?
  {
    FindRowIsFirst(registry, h, r.rowId);
    FindLocatorIsFirst(registry, h, r.locator);
    if HasRow(registry, h, r) {
      var i :| 0 <= i < |registry| && Adopted(registry[i], h, r);
      if registry[i].id == r.rowId { assert Owns(registry[i], h, r.rowId); } else { assert registry[i] in registry; }
    }
    var found := FindLocator(registry, h, r.locator);
    if found.Some? {
      var i :| 0 <= i < |registry| && registry[i] == found.value;
      assert Adopted(registry[i], h, r);
    }
    if FindRow(registry, h, r.rowId).Some? { assert Adopted(registry[FindRow(registry, h, r.rowId).value], h, r); }
  }

  // ---------------------------------------------------------------- what the writes do to them

  lemma Toggled(registry: seq<Row>, i: nat, enabled: bool, h: Id)
    requires i < |registry|
    ensures Rows(registry[i := registry[i].(enabled := enabled)], h) == Rows(registry, h)
  {
    var a, b, row := registry[..i], registry[i + 1..], registry[i].(enabled := enabled);
    assert registry == a + [registry[i]] + b && registry[i := row] == a + [row] + b;
    RowsSplit(a + [registry[i]], b, h);
    RowsSplit(a, [registry[i]], h);
    RowsSplit(a + [row], b, h);
    RowsSplit(a, [row], h);
    assert Rows([registry[i]], h) == Rows([row], h);
  }

  lemma Appended(registry: seq<Row>, row: Row, h: Id)
    ensures Rows(registry + [row], h) == Rows(registry, h) + if row.harness == h then [Shape(row)] else []
  {
    RowsSplit(registry, [row], h);
  }

  lemma Removed(registry: seq<Row>, i: nat, h: Id)
    requires i < |registry|
    ensures var a, b := Rows(registry[..i], h), Rows(registry[i + 1..], h);
            && Rows(registry, h) == a + (if registry[i].harness == h then [Shape(registry[i])] else []) + b
            && Rows(registry[..i] + registry[i + 1..], h) == a + b
  {
    var a, b := registry[..i], registry[i + 1..];
    assert registry == a + [registry[i]] + b;
    RowsSplit(a + [registry[i]], b, h);
    RowsSplit(a, [registry[i]], h);
    RowsSplit(a, b, h);
  }

  /** A config write for one harness leaves the rows of the others. */
  lemma OthersKeepTheirRows(a: Accounts, g: Id, r: Record, login: Option<Login>, h: Id)
    requires g != h
    ensures Rows(Register(a, g, r, login).registry, h) == Rows(a.registry, h)
    ensures Rows(Unregister(a, g, r).registry, h) == Rows(a.registry, h)
  {
    Appended(a.registry, RowFor(a, g, r, login), h);
    var found := FindRow(a.registry, g, r.rowId);
    if found.Some? { Removed(a.registry, found.value, h); }
  }

  // ---------------------------------------------------------------- a record's life

  /** No row was at the record's locator: the migration brings its own. */
  predicate New(rows: seq<Row>, r: Record) { First(rows, HasLocator(r.locator)).None? }

  /** The id was reserved over these rows: the one at the locator, or a free one. */
  predicate ReservedOver(rows: seq<Row>, r: Record) {
    if New(rows, r) then First(rows, HasId(r.rowId)).None? else First(rows, HasLocator(r.locator)).value.id == r.rowId
  }

  /** A rollback removes the first row with the record's id, when it is at the record's locator. */
  predicate Leaves(rows: seq<Row>, r: Record) {
    First(rows, HasId(r.rowId)).Some? && First(rows, HasId(r.rowId)).value.locator == Some(r.locator)
  }

  predicate Joined(rows: seq<Row>, before: seq<Row>, r: Record) {
    && |rows| == |before| + 1 && rows[..|before|] == before
    && rows[|before|].id == r.rowId && rows[|before|].locator == Some(r.locator)
  }

  /** The rows of a harness with an open record, against those at its reservation. */
  predicate Life(rows: seq<Row>, before: seq<Row>, r: Record) {
    && ReservedOver(before, r)
    && (|| rows == before
        || (New(before, r) && Joined(rows, before, r))
        || (r.phase.RollingBack? && Leaves(before, r) && |rows| < |before|))
  }

  predicate Undone(rows: seq<Row>, before: seq<Row>, r: Record) {
    rows == before <==> !Leaves(before, r)
  }

  /** A rollback pass that has made its config write. */
  predicate PastConfig(p: Process) {
    p.Pass? && !p.forward && p.queue != [] && p.work.Some? && Config !in p.work.value
  }

  /** The state of the life, the rollback pass under way included. */
  predicate Living(s: State, h: Id, before: seq<Row>) {
    && h in s.w.records
    && var rows, r := Rows(s.w.accounts.registry, h), s.w.records[h];
       && Life(rows, before, r)
       && (PastConfig(s.process) && s.process.queue[0] == h ==> Undone(rows, before, r))
  }

  lemma JoinedSplits(rows: seq<Row>, before: seq<Row>, r: Record)
    requires Joined(rows, before, r)
    ensures rows == before + [rows[|before|]]
    ensures First(rows, HasId(r.rowId)).Some? && First(rows, HasLocator(r.locator)).Some?
    ensures ReservedOver(before, r) && New(before, r) ==>
              First(rows, HasId(r.rowId)) == Some(rows[|before|]) == First(rows, HasLocator(r.locator))
  {
    assert rows == before + [rows[|before|]];
    FirstSplit(before, [rows[|before|]], HasId(r.rowId));
    FirstSplit(before, [rows[|before|]], HasLocator(r.locator));
  }

  lemma RegisterLives(a: Accounts, h: Id, r: Record, login: Option<Login>, before: seq<Row>)
    requires Life(Rows(a.registry, h), before, r) && !r.phase.RollingBack?
    ensures Life(Rows(Register(a, h, r, login).registry, h), before, r)
  {
    var rows, row := Rows(a.registry, h), RowFor(a, h, r, login);
    HasRowMeans(a.registry, h, r);
    Appended(a.registry, row, h);
    if rows == before {
      assert (before + [Shape(row)])[..|before|] == before;
    } else {
      JoinedSplits(rows, before, r);
    }
  }

  lemma UnregisterLives(a: Accounts, h: Id, r: Record, before: seq<Row>)
    requires Life(Rows(a.registry, h), before, r) && r.phase.RollingBack?
    ensures var rows := Rows(Unregister(a, h, r).registry, h);
            Life(rows, before, r) && Undone(rows, before, r)
  {
    var rows := Rows(a.registry, h);
    var found := FindRow(a.registry, h, r.rowId);
    FindRowIsFirst(a.registry, h, r.rowId);
    if found.Some? { Removed(a.registry, found.value, h); }
    if New(before, r) && Joined(rows, before, r) {
      JoinedSplits(rows, before, r);
      TheLastRowLeaves(Rows(a.registry[..found.value], h), Shape(a.registry[found.value]), Rows(a.registry[found.value + 1..], h), before);
    }
  }

  lemma TheLastRowLeaves(a: seq<Row>, row: Row, b: seq<Row>, before: seq<Row>)
    requires a + [row] + b == before + [row] && First(before, HasId(row.id)).None?
    ensures a + b == before
  {
    var rows := a + [row] + b;
    assert HasId(row.id)(row) && row !in before;
    assert forall i :: 0 <= i < |before| ==> rows[i] == before[i] && before[i] in before;
    assert rows[|a|] == row && |a| == |before|;
    assert rows[..|before|] == before && rows[..|a|] == a;
  }

  // ---------------------------------------------------------------- every step of it

  lemma ConfigWriteLives(s: State, op: Op, h: Id, before: seq<Row>)
    requires GateInv(s) && Living(s, h, before) && ConfigWrite(s, op)
    ensures Living(Step(s, op), h, before)
  {
    RegistryWrites(s, op);
    var g := s.process.queue[0];
    var a, r, login := s.w.accounts, s.w.records[g], At(s.logins, g);
    if g != h {
      OthersKeepTheirRows(a, g, r, login, h);
    } else {
      assert PassAt(s.w, h, s.process.work.value, s.process.forward);
      if s.process.forward { RegisterLives(a, h, r, login, before); } else { UnregisterLives(a, h, r, before); }
    }
  }

  /** Any step but a config write leaves the rows of every harness. */
  lemma RowsStay(s: State, op: Op, h: Id)
    requires !ConfigWrite(s, op)
    ensures Rows(Step(s, op).w.accounts.registry, h) == Rows(s.w.accounts.registry, h)
  {
    RegistryWrites(s, op);
    if op.DoToggle? && op.owner in s.w.records {
      var found := FindRow(s.w.accounts.registry, op.owner, s.w.records[op.owner].rowId);
      if found.Some? { Toggled(s.w.accounts.registry, found.value, op.enabled, h); }
    }
  }

  /** What a step that is no config write leaves on the work list of a rollback pass. */
  lemma ConfigStaysListed(s: State, op: Op)
    requires !ConfigWrite(s, op)
    ensures var p, q := s.process, Step(s, op).process;
            PastConfig(q) && q.queue[0] in s.w.records ==> PastConfig(p) && p.queue == q.queue
  {
  }

  lemma OtherStepLives(s: State, op: Op, h: Id, before: seq<Row>)
    requires Living(s, h, before) && !ConfigWrite(s, op) && h in Step(s, op).w.records
    ensures Living(Step(s, op), h, before)
  {
    RowsStay(s, op, h);
    ConfigStaysListed(s, op);
    RecordsLiveOn(s, op, h);
  }

  lemma StepLives(s: State, op: Op, h: Id, before: seq<Row>)
    requires GateInv(s) && Living(s, h, before) && h in Step(s, op).w.records
    ensures Living(Step(s, op), h, before)
  {
    if ConfigWrite(s, op) { ConfigWriteLives(s, op, h, before); } else { OtherStepLives(s, op, h, before); }
  }

  lemma {:induction false} RunLives(s: State, ops: seq<Op>, h: Id, before: seq<Row>)
    requires GateInv(s) && Living(s, h, before) && StaysOpen(s, ops, h)
    ensures var e := Run(s, ops);
            GateInv(e) && Living(e, h, before) && e.w.records[h].rowId == s.w.records[h].rowId && e.w.records[h].locator == s.w.records[h].locator
    decreases |ops|
  {
    if ops != [] {
      StepLives(s, ops[0], h, before);
      StepKeepsGate(s, ops[0]);
      RecordsLiveOn(s, ops[0], h);
      RunLives(Step(s, ops[0]), ops[1..], h, before);
    }
  }

  lemma OpeningLives(s: State, op: Op, h: Id)
    requires GateInv(s) && h !in s.w.records && h in Step(s, op).w.records
    ensures Living(Step(s, op), h, Rows(s.w.accounts.registry, h))
  {
    RecordsOfAStep(s, op, h);
    RowsStay(s, op, h);
    var r := Reservation(s.w.accounts, h, s.logins[h]);
    FindLocatorIsFirst(s.w.accounts.registry, h, r.locator);
    FindRowIsFirst(s.w.accounts.registry, h, r.rowId);
  }

  /** From the step that opens the record through any operations at all while it stays. */
  predicate Lives(s: State, open: Op, ops: seq<Op>, h: Id) {
    h !in s.w.records && StaysOpen(Step(s, open), ops, h)
  }

  lemma LifeOverARun(w: World, logins: map<Id, Login>, clock: nat, start: seq<Op>, open: Op, ops: seq<Op>, h: Id)
    requires w.records == map[] && Past(w.continuity, clock)
    requires Lives(Run(Start(w, logins, clock), start), open, ops, h)
    ensures var s := Run(Start(w, logins, clock), start);
            var e := Run(Step(s, open), ops);
            GateInv(e) && Living(e, h, Rows(s.w.accounts.registry, h))
  {
    var s := Run(Start(w, logins, clock), start);
    StartIsInEffect(w, logins, clock);
    RunKeepsGate(Start(w, logins, clock), start);
    OpeningLives(s, open, h);
    StepKeepsGate(s, open);
    RunLives(Step(s, open), ops, h, Rows(s.w.accounts.registry, h));
  }

  // ---------------------------------------------------------------- one row at the locator

  lemma {:induction false} RowsAtMeans(registry: seq<Row>, h: Id, locator: string)
    ensures RowsAt(registry, h, locator) == |Filter(Rows(registry, h), HasLocator(locator))|
  {
    if registry != [] {
      RowsAtMeans(registry[1..], h, locator);
      FilterSplits(if registry[0].harness == h then [Shape(registry[0])] else [], Rows(registry[1..], h), HasLocator(locator));
    }
  }

  /** Over every run, adopted rows included: from `registry_written` to `completed` the rows at the
      record's locator are those at its reservation, or one where there was none; and the first of
      them is the record's own. */
  lemma OneRowAtTheLocator(w: World, logins: map<Id, Login>, clock: nat, start: seq<Op>, open: Op, ops: seq<Op>, h: Id)
    requires w.records == map[] && Past(w.continuity, clock)
    requires Lives(Run(Start(w, logins, clock), start), open, ops, h)
    ensures var s := Run(Start(w, logins, clock), start);
            var e := Run(Step(s, open), ops).w;
            && h in e.records
            && var r := e.records[h];
               var before := RowsAt(s.w.accounts.registry, h, r.locator);
               var found := FindLocator(e.accounts.registry, h, r.locator);
               r.phase.RegistryWritten? || Moved(r.phase) ==>
                 && RowsAt(e.accounts.registry, h, r.locator) == (if before == 0 then 1 else before)
                 && found.Some? && found.value.id == r.rowId
  {
    var s := Run(Start(w, logins, clock), start);
    var e := Run(Step(s, open), ops).w;
    LifeOverARun(w, logins, clock, start, open, ops, h);
    var r := e.records[h];
    assert InEffect(e, h);
    if r.phase.RegistryWritten? || Moved(r.phase) {
      LivingIsAtTheLocator(s.w.accounts.registry, e.accounts.registry, h, r);
    }
  }

  lemma LivingIsAtTheLocator(past: seq<Row>, registry: seq<Row>, h: Id, r: Record)
    requires Life(Rows(registry, h), Rows(past, h), r) && HasRow(registry, h, r) && !r.phase.RollingBack?
    ensures RowsAt(registry, h, r.locator) == (if RowsAt(past, h, r.locator) == 0 then 1 else RowsAt(past, h, r.locator))
    ensures FindLocator(registry, h, r.locator).Some? && FindLocator(registry, h, r.locator).value.id == r.rowId
  {
    var rows, before := Rows(registry, h), Rows(past, h);
    HasRowMeans(registry, h, r);
    FindLocatorIsFirst(registry, h, r.locator);
    RowsAtMeans(registry, h, r.locator);
    RowsAtMeans(past, h, r.locator);
    if New(before, r) {
      JoinedSplits(rows, before, r);
      FilterSplits(before, [rows[|before|]], HasLocator(r.locator));
      if Filter(before, HasLocator(r.locator)) != [] { FilterMembers(before, HasLocator(r.locator), Filter(before, HasLocator(r.locator))[0]); }
    } else {
      FilterMembers(before, HasLocator(r.locator), First(before, HasLocator(r.locator)).value);
    }
  }

  // ---------------------------------------------------------------- closing a record

  /** The step closes the record, in a pass of the given direction. */
  predicate Closes(s: State, op: Op, h: Id, forward: bool) {
    h in s.w.records && h !in Step(s, op).w.records && s.process.Pass? && s.process.forward == forward
  }

  /** Over every run, from the reservation through any operations to the write by which a startup
      clears it because the login is gone: the harness's rows are those at the reservation if and
      only if a row was already at the locator or the record's row is not registered. */
  lemma ClearingIsCleanExactlyWhen(w: World, logins: map<Id, Login>, clock: nat, start: seq<Op>, open: Op, ops: seq<Op>, last: Op, h: Id)
    requires w.records == map[] && Past(w.continuity, clock)
    requires Lives(Run(Start(w, logins, clock), start), open, ops, h)
    requires Closes(Run(Step(Run(Start(w, logins, clock), start), open), ops), last, h, true)
    ensures var s := Run(Start(w, logins, clock), start);
            var e := Run(Step(s, open), ops);
            Rows(Step(e, last).w.accounts.registry, h) == Rows(s.w.accounts.registry, h) <==>
              || FindLocator(s.w.accounts.registry, h, e.w.records[h].locator).Some?
              || !Registered(e.w.accounts.registry, h, e.w.records[h].rowId)
  {
    var s := Run(Start(w, logins, clock), start);
    var e := Run(Step(s, open), ops);
    var before, rows, r := Rows(s.w.accounts.registry, h), Rows(e.w.accounts.registry, h), e.w.records[h];
    LifeOverARun(w, logins, clock, start, open, ops, h);
    RecordsLiveOn(e, last, h);
    RowsStay(e, last, h);
    FindLocatorIsFirst(s.w.accounts.registry, h, r.locator);
    RegisteredMeans(e.w.accounts.registry, h, r.rowId);
    if New(before, r) && Joined(rows, before, r) { JoinedSplits(rows, before, r); }
  }

  /** And to the write by which a rollback drops it: the harness's rows are those at the
      reservation if and only if the first row with the record's id was not at its locator. */
  lemma RollbackRestoresRowsExactlyWhen(w: World, logins: map<Id, Login>, clock: nat, start: seq<Op>, open: Op, ops: seq<Op>, last: Op, h: Id)
    requires w.records == map[] && Past(w.continuity, clock)
    requires Lives(Run(Start(w, logins, clock), start), open, ops, h)
    requires Closes(Run(Step(Run(Start(w, logins, clock), start), open), ops), last, h, false)
    ensures var s := Run(Start(w, logins, clock), start);
            var e := Run(Step(s, open), ops);
            Rows(Step(e, last).w.accounts.registry, h) == Rows(s.w.accounts.registry, h) <==>
              !Leaves(Rows(s.w.accounts.registry, h), e.w.records[h])
  {
    var e := Run(Step(Run(Start(w, logins, clock), start), open), ops);
    LifeOverARun(w, logins, clock, start, open, ops, h);
    RecordsLiveOn(e, last, h);
    RowsStay(e, last, h);
  }
}
