/** What a startup does and whom it lets run, with the harnesses, ids and rows written out: the two
    harnesses it migrates, the rows it leaves, and when their runs are refused and admitted. */
module MigrationStartup {
  import opened Knowledge
  import opened MigrationModel
  import opened RowIds
  import opened MigrationRuns
  import opened MigrationConvergence

  // ---------------------------------------------------------------- both harnesses

  lemma UsedUpSettles(s: State, ops: seq<Op>, h: Id)
    requires s.process.Idle? && StartupsOnly(ops) && Run(s, ops).process.Pass? && Run(s, ops).process.queue == []
    requires h == "claude" || h == "codex"
    ensures Settled(Run(s, ops).w.records, s.logins, h)
  {
    UsedUpIsFinished(s, ops);
    assert HARNESSES[0] == "claude" && HARNESSES[1] == "codex";
    assert Settled(Run(s, ops).w.records, s.logins, HARNESSES[0]) && Settled(Run(s, ops).w.records, s.logins, HARNESSES[1]);
  }

  /** From any persisted state, startups crashed and restarted any number of times: once a pass has
      used up its queue, claude and codex, each with a login, have a record that is completed or
      rolling back. */
  lemma StartupCoversBothHarnesses(s: State, ops: seq<Op>)
    requires s.process.Idle? && StartupsOnly(ops) && Run(s, ops).process.Pass? && Run(s, ops).process.queue == []
    ensures forall h :: h in s.logins && (h == "claude" || h == "codex") ==>
              && h in Run(s, ops).w.records
              && (Run(s, ops).w.records[h].phase == Completed || Run(s, ops).w.records[h].phase == RollingBack)
  {
    forall h | h in s.logins && (h == "claude" || h == "codex")
      ensures && h in Run(s, ops).w.records
              && (Run(s, ops).w.records[h].phase == Completed || Run(s, ops).w.records[h].phase == RollingBack)
    {
      UsedUpSettles(s, ops, h);
    }
  }

  // ---------------------------------------------------------------- the rows they leave

  lemma {:induction false} FindLocatorAppends(registry: seq<Row>, row: Row, h: Id, locator: string)
    ensures FindLocator(registry + [row], h, locator)
         == if FindLocator(registry, h, locator).Some? then FindLocator(registry, h, locator)
            else if row.harness == h && row.locator == Some(locator) then Some(row) else None
  {
    if registry == [] {
      assert registry + [row] == [row];
    } else {
      assert (registry + [row])[1..] == registry[1..] + [row];
      FindLocatorAppends(registry[1..], row, h, locator);
    }
  }

  /** The row a login finds: the one that was there, or a new one under the reserved id, named after
      the login and switched as the harness's native login was. */
  function RowLeft(a: Accounts, h: Id, login: Login): Row {
    var there := FindLocator(a.registry, h, login.locator);
    if there.Some? then there.value
    else Row(ReservedId(a.registry, h), h,
             if login.displayName == None then h + " default login" else login.displayName.value,
             Some(login.locator), if h in a.native then a.native[h] else true)
  }

  lemma RegisteredRowIsFound(a: Accounts, h: Id, login: Login)
    ensures var r := Reservation(a, h, login);
            var after := Register(a, h, r, Some(login));
            && FindLocator(after.registry, h, login.locator) == Some(RowLeft(a, h, login))
            && r == MigrationModel.Record(Reserved, RowLeft(a, h, login).id, login.locator)
            && after.native == a.native
  {
    var r := Reservation(a, h, login);
    var row := RowFor(a, h, r, Some(login));
    FindLocatorAppends(a.registry, row, h, login.locator);
    if FindLocator(a.registry, h, login.locator).Some? {
      var i :| 0 <= i < |a.registry| && a.registry[i] == FindLocator(a.registry, h, login.locator).value;
      assert Adopted(a.registry[i], h, r);
    } else {
      forall i | 0 <= i < |a.registry| ensures !Adopted(a.registry[i], h, r) { assert a.registry[i] in a.registry; }
    }
  }

  lemma OtherRegistrationKeepsTheRow(a: Accounts, g: Id, r: Record, found: Option<Login>, h: Id, locator: string)
    requires g != h
    ensures FindLocator(Register(a, g, r, found).registry, h, locator) == FindLocator(a.registry, h, locator)
  {
    FindLocatorAppends(a.registry, RowFor(a, g, r, found), h, locator);
  }

  /** The accounts a startup has to plan with when it comes to codex. */
  function AfterClaude(a: Accounts, logins: map<Id, Login>): Accounts {
    if "claude" in logins then Register(a, "claude", Reservation(a, "claude", logins["claude"]), Some(logins["claude"])) else a
  }

  lemma PlanOfTheTwo(w: World, logins: map<Id, Login>)
    requires w.records == map[]
    ensures var plan := Plan(BooksOf(w), logins, HARNESSES);
            var a := AfterClaude(w.accounts, logins);
            && (forall h :: h in plan.records <==> h in logins && (h == "claude" || h == "codex"))
            && ("claude" in logins ==> plan.records["claude"] == Reservation(w.accounts, "claude", logins["claude"]).(phase := Completed))
            && ("codex" in logins ==> plan.records["codex"] == Reservation(a, "codex", logins["codex"]).(phase := Completed))
            && plan.accounts == if "codex" in logins then Register(a, "codex", Reservation(a, "codex", logins["codex"]), Some(logins["codex"])) else a
  {
    var b := PlanOne(BooksOf(w), logins, "claude");
    assert HARNESSES == ["claude"] + ["codex"];
    assert HARNESSES[0] == "claude" && HARNESSES[1..] == ["codex"];
    assert Plan(BooksOf(w), logins, HARNESSES) == Plan(b, logins, ["codex"]);
    assert ["codex"][1..] == [];
    assert Plan(b, logins, ["codex"]) == Plan(PlanOne(b, logins, "codex"), logins, []) == PlanOne(b, logins, "codex");
  }

  /** What a finished startup leaves in a world without records: a completed record for claude and
      for codex where they had a login, for no other harness, and at each login's locator the row
      of that record. */
  lemma FirstStartupLeaves(w: World, logins: map<Id, Login>, clock: nat, ops: seq<Op>)
    requires w.records == map[] && StartupsOnly(ops)
    requires Run(Start(w, logins, clock), ops).process.Pass? && Run(Start(w, logins, clock), ops).process.queue == []
    ensures var end := Run(Start(w, logins, clock), ops).w;
            && (forall h :: h in end.records <==> h in logins && (h == "claude" || h == "codex"))
            && (forall h :: h in end.records ==>
                  && end.records[h].phase == Completed && end.records[h].locator == logins[h].locator
                  && FindLocator(end.accounts.registry, h, logins[h].locator).Some?
                  && FindLocator(end.accounts.registry, h, logins[h].locator).value.id == end.records[h].rowId)
            && ("claude" in logins ==>
                  FindLocator(end.accounts.registry, "claude", logins["claude"].locator) == Some(RowLeft(w.accounts, "claude", logins["claude"])))
            && ("codex" in logins ==>
                  FindLocator(end.accounts.registry, "codex", logins["codex"].locator)
                  == Some(RowLeft(AfterClaude(w.accounts, logins), "codex", logins["codex"])))
  {
    var s := Start(w, logins, clock);
    var plan := Plan(BooksOf(w), logins, HARNESSES);
    var end := Run(s, ops).w;
    RunHeads(s, ops, plan);
    UsedUpIsFinished(s, ops);
    FinishedIsTheTarget(w, end, logins, HARNESSES, plan);
    PlanOfTheTwo(w, logins);
    var a := AfterClaude(w.accounts, logins);
    if "claude" in logins {
      RegisteredRowIsFound(w.accounts, "claude", logins["claude"]);
      if "codex" in logins {
        OtherRegistrationKeepsTheRow(a, "codex", Reservation(a, "codex", logins["codex"]), Some(logins["codex"]), "claude", logins["claude"].locator);
      }
    }
    if "codex" in logins { RegisteredRowIsFound(a, "codex", logins["codex"]); }
  }

  // ---------------------------------------------------------------- the reserved id, spelled out

  function DigitOf(c: char): nat { if '0' <= c <= '9' then c as nat - '0' as nat else 0 }

  /** A decimal numeral read from the left. */
  function ReadDecimal(s: string): nat {
    if s == [] then 0 else ReadDecimal(s[..|s| - 1]) * 10 + DigitOf(s[|s| - 1])
  }

  /** The suffix of a candidate is the number of the try, in decimal, without leading zeros. */
  lemma {:induction false} DecimalReadsBack(n: nat)
    ensures ReadDecimal(Decimal(n)) == n
    ensures n > 0 ==> Decimal(n)[0] != '0'
  {
    var digits := "0123456789";
    assert forall d :: 0 <= d < 10 ==> DigitOf(digits[d]) == d;
    if n >= 10 {
      DecimalReadsBack(n / 10);
      assert Decimal(n) == Decimal(n / 10) + [digits[n % 10]];
      assert Decimal(n)[..|Decimal(n)| - 1] == Decimal(n / 10);
    } else {
      assert Decimal(n) == [digits[n]];
      assert Decimal(n)[..0] == [];
      assert ReadDecimal(Decimal(n)[..0]) == 0;
    }
  }

  /** The id reserved for a harness: its name and "-default", or that with the least free number
      from 2 on. */
  lemma ReservedIdSpelled(registry: seq<Row>, h: Id)
    ensures !Taken(registry, h + "-default") ==> ReservedId(registry, h) == h + "-default"
    ensures Taken(registry, h + "-default") ==>
              exists n :: n >= 2 && ReservedId(registry, h) == h + "-default" + "-" + Decimal(n)
                          && !Taken(registry, h + "-default" + "-" + Decimal(n))
                          && forall m :: 2 <= m < n ==> Taken(registry, h + "-default" + "-" + Decimal(m))
  {
    var base := h + "-default";
    var n := FirstFree(registry, base, 1);
    var first := Candidate(base, 1);
    assert first == base && (1 < n ==> Taken(registry, first));
    if Taken(registry, base) {
      assert n >= 2;
      forall m | 2 <= m < n ensures Taken(registry, base + "-" + Decimal(m)) { assert Taken(registry, Candidate(base, m)); }
    }
  }

  // ---------------------------------------------------------------- whom the gate lets run

  /** A turn that starts a session: nothing is recorded under it yet. */
  predicate StartsASession(s: State, t: Turn) {
    SessionKey(t.harness, t.partition, t.session) !in s.w.continuity.sessions
  }

  /** The turn ran under `subject`: its session, lane and home say so. */
  predicate RanAs(s: State, t: Turn, subject: Option<Id>, next: State) {
    && At(next.w.continuity.sessions, SessionKey(t.harness, t.partition, t.session)) == Some(subject)
    && At(next.w.continuity.lanes, LaneKey(t.harness, t.partition, t.thread, subject)) == Some(Checkpoint(t.turn, s.clock))
    && At(next.w.continuity.homes, HomeKey(t.harness, t.slot, subject)) == Some(t.content)
  }

  lemma CompletedRuns(s: State, t: Turn)
    requires StartsASession(s, t) && t.harness in s.w.records && s.w.records[t.harness].phase == Completed
    ensures RanAs(s, t, Some(s.w.records[t.harness].rowId), Step(s, DoTurn(t, None)))
  {
  }

  /** Once a rollback has dropped its record, or before it ever had one, a harness runs as the
      engine default. */
  lemma WithoutARecordItRuns(s: State, t: Turn)
    requires StartsASession(s, t) && t.harness !in s.w.records
    ensures RanAs(s, t, None, Step(s, DoTurn(t, None)))
  {
  }

  /** A recorded session resumes, behind an open gate, exactly as the subject it was recorded
      under; as any other the turn changes nothing. */
  lemma SessionsResumeAsTheirSubject(s: State, t: Turn)
    requires t.harness in s.w.records ==> s.w.records[t.harness].phase == Completed
    requires SessionKey(t.harness, t.partition, t.session) in s.w.continuity.sessions
    ensures var subject := if t.harness in s.w.records then Some(s.w.records[t.harness].rowId) else None;
            var next := Step(s, DoTurn(t, None));
            if s.w.continuity.sessions[SessionKey(t.harness, t.partition, t.session)] == subject then RanAs(s, t, subject, next)
            else next == s.(clock := s.clock + 1)
  {
  }

  /** Only the two harnesses ever have records. */
  predicate OnlyTheTwo(s: State) {
    && (forall h :: h in s.w.records ==> h == "claude" || h == "codex")
    && (s.process.Pass? && s.process.forward ==> forall i :: 0 <= i < |s.process.queue| ==> s.process.queue[i] == "claude" || s.process.queue[i] == "codex")
  }

  lemma StepKeepsOnlyTheTwo(s: State, op: Op)
    requires OnlyTheTwo(s)
    ensures OnlyTheTwo(Step(s, op))
  {
    var next := Step(s, op);
    forall h | h in next.w.records ensures h == "claude" || h == "codex" { RecordsOfAStep(s, op, h); }
  }

  lemma {:induction false} RunKeepsOnlyTheTwo(s: State, ops: seq<Op>)
    requires OnlyTheTwo(s)
    ensures OnlyTheTwo(Run(s, ops))
    decreases |ops|
  {
    if ops != [] {
      StepKeepsOnlyTheTwo(s, ops[0]);
      RunKeepsOnlyTheTwo(Step(s, ops[0]), ops[1..]);
    }
  }

  /** The gate opens: after any run, once startups have used up their queue, every harness that is
      not rolling back runs, whatever the switches, rows and logins are; as its row when it has a
      record, as the engine default when it has none. */
  lemma AfterAStartupHarnessesRun(w: World, logins: map<Id, Login>, clock: nat, before: seq<Op>, ops: seq<Op>, t: Turn)
    requires w.records == map[] && Run(Start(w, logins, clock), before).process.Idle? && StartupsOnly(ops)
    requires var e := Run(Run(Start(w, logins, clock), before), ops);
             && e.process.Pass? && e.process.queue == [] && StartsASession(e, t)
             && (t.harness in e.w.records ==> e.w.records[t.harness].phase != RollingBack)
    ensures var e := Run(Run(Start(w, logins, clock), before), ops);
            RanAs(e, t, if t.harness in e.w.records then Some(e.w.records[t.harness].rowId) else None, Step(e, DoTurn(t, None)))
  {
    var s := Run(Start(w, logins, clock), before);
    var e := Run(s, ops);
    RunKeepsOnlyTheTwo(Start(w, logins, clock), before);
    RunKeepsOnlyTheTwo(s, ops);
    if t.harness in e.w.records {
      UsedUpSettles(s, ops, t.harness);
      CompletedRuns(e, t);
    } else {
      WithoutARecordItRuns(e, t);
    }
  }

  /** The harness has a record on its way, forwards or back. */
  predicate UnderWay(w: World, h: Id) {
    h in w.records && w.records[h].phase != Completed
  }

  predicate StaysUnderWay(s: State, ops: seq<Op>, h: Id)
    decreases |ops|
  {
    UnderWay(s.w, h) && (ops == [] || StaysUnderWay(Step(s, ops[0]), ops[1..], h))
  }

  lemma {:induction false} UnderWayAt(s: State, ops: seq<Op>, h: Id, i: nat)
    requires StaysUnderWay(s, ops, h) && i < |ops|
    ensures UnderWay(Run(s, ops[..i]).w, h)
    ensures Run(s, ops[..i + 1]) == Step(Run(s, ops[..i]), ops[i])
    decreases |ops|
  {
    if i == 0 {
      assert ops[..0] == [] && ops[..1] == [ops[0]];
      assert Run(s, [ops[0]]) == Run(Step(s, ops[0]), [ops[0]][1..]);
    } else {
      UnderWayAt(Step(s, ops[0]), ops[1..], h, i - 1);
      assert ops[..i][1..] == ops[1..][..i - 1] && ops[..i + 1][1..] == ops[1..][..i];
    }
  }

  /** The gate closes: from the reserving write to the completing write, and from the rolling_back
      write to the dropping write, no turn of the harness, pinned or not, changes anything. */
  lemma UnderWayNothingRuns(s: State, ops: seq<Op>, h: Id, i: nat)
    requires StaysUnderWay(s, ops, h) && i < |ops| && ops[i].DoTurn? && ops[i].t.harness == h
    ensures Run(s, ops[..i + 1]) == Run(s, ops[..i]).(clock := Run(s, ops[..i]).clock + 1)
  {
    UnderWayAt(s, ops, h, i);
  }

  /** And that is how a record begins and how a rollback begins. */
  lemma ReservingAndRollingBackAreUnderWay(s: State, op: Op, h: Id)
    ensures h !in s.w.records && h in Step(s, op).w.records ==> UnderWay(Step(s, op).w, h)
    ensures s.process == Pass(false, [h], None) && h in s.w.records && op.DoWrite? ==>
              UnderWay(Step(s, op).w, h) && Step(s, op).w.records[h] == s.w.records[h].(phase := RollingBack)
  {
    RecordsOfAStep(s, op, h);
  }
}
