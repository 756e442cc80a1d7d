/** Crash-restart convergence: from any persisted state, startups crashed anywhere and restarted
    any number of times reach the one outcome that state was heading for. */
module MigrationConvergence {
  import opened Knowledge
  import opened MigrationModel
  import opened MigrationRuns

  // ---------------------------------------------------------------- where a world is heading

  datatype Books = Books(accounts: Accounts, records: map<Id, Record>)

  function BooksOf(w: World): Books { Books(w.accounts, w.records) }

  /** What an uninterrupted startup makes of one harness's account and record. */
  function PlanOne(b: Books, logins: map<Id, Login>, h: Id): Books {
    if h !in b.records then
      if h !in logins then b
      else
        var r := Reservation(b.accounts, h, logins[h]);
        Books(Register(b.accounts, h, r, At(logins, h)), b.records[h := r.(phase := Completed)])
    else
      var r := b.records[h];
      match r.phase
      case Reserved =>
        if h !in logins then b.(records := Omit(b.records, h))
        else Books(Register(b.accounts, h, r, At(logins, h)), b.records[h := r.(phase := Completed)])
      case RegistryWritten => b.(records := b.records[h := r.(phase := Completed)])
      case ContinuityMigrated => b.(records := b.records[h := r.(phase := Completed)])
      case Completed => b
      case RollingBack => b
  }

  function Plan(b: Books, logins: map<Id, Login>, hs: seq<Id>): Books
    decreases |hs|
  {
    if hs == [] then b else Plan(PlanOne(b, logins, hs[0]), logins, hs[1..])
  }

  /** The harness's continuity is still to be moved by the startups to come. */
  predicate Moves(records: map<Id, Record>, logins: map<Id, Login>, hs: seq<Id>, h: Id) {
    h in hs &&
    if h !in records then h in logins
    else records[h].phase.RegistryWritten? || (records[h].phase.Reserved? && h in logins)
  }

  function RowOf(plan: Books, h: Id): Id {
    if h in plan.records then plan.records[h].rowId else ""
  }

  function TargetSession(c: Continuity, moves: bool, row: Id, k: SessionKey): Option<Option<Id>> {
    if moves && At(c.sessions, k) == Some(None) then Some(Some(row)) else At(c.sessions, k)
  }

  function TargetTurn(c: Continuity, moves: bool, row: Id, k: LaneKey): Option<Id> {
    if moves && k.profile == Some(row) then TurnOf(Forwarded(At(c.lanes, k.(profile := None)), At(c.lanes, k), 0))
    else TurnOf(At(c.lanes, k))
  }

  function TargetHome(c: Continuity, moves: bool, row: Id, k: HomeKey): Option<Id> {
    var default, moved := At(c.homes, k.(profile := None)), At(c.homes, k.(profile := Some(row)));
    if moves && default.Some? && moved.None? && k.profile == None then None
    else if moves && default.Some? && moved.None? && k.profile == Some(row) then default
    else At(c.homes, k)
  }

  predicate TargetQuota(w: World, logins: map<Id, Login>, hs: seq<Id>, k: Subject) {
    && k in w.quota
    && !(k.profile == None &&
         (Moves(w.records, logins, hs, k.harness)
          || (k.harness in hs && k.harness in w.records && w.records[k.harness].phase.ContinuityMigrated?)))
  }

  /** Both worlds are heading for the same continuity and quota, given where their accounts go. */
  ghost predicate SameTarget(v: World, w: World, logins: map<Id, Login>, hs: seq<Id>, plan: Books) {
    && (forall k: SessionKey ::
          TargetSession(v.continuity, Moves(v.records, logins, hs, k.harness), RowOf(plan, k.harness), k)
          == TargetSession(w.continuity, Moves(w.records, logins, hs, k.harness), RowOf(plan, k.harness), k))
    && (forall k: LaneKey ::
          TargetTurn(v.continuity, Moves(v.records, logins, hs, k.harness), RowOf(plan, k.harness), k)
          == TargetTurn(w.continuity, Moves(w.records, logins, hs, k.harness), RowOf(plan, k.harness), k))
    && (forall k: HomeKey ::
          TargetHome(v.continuity, Moves(v.records, logins, hs, k.harness), RowOf(plan, k.harness), k)
          == TargetHome(w.continuity, Moves(w.records, logins, hs, k.harness), RowOf(plan, k.harness), k))
    && (forall k: Subject ::
          TargetQuota(v, logins, hs, k) <==> TargetQuota(w, logins, hs, k))
  }

  // ---------------------------------------------------------------- the plan is stable

  predicate Settled(records: map<Id, Record>, logins: map<Id, Login>, h: Id) {
    if h in records then records[h].phase.Completed? || records[h].phase.RollingBack? else h !in logins
  }

  predicate AllSettled(records: map<Id, Record>, logins: map<Id, Login>, hs: seq<Id>) {
    forall i :: 0 <= i < |hs| ==> Settled(records, logins, hs[i])
  }

  predicate Distinct(hs: seq<Id>) {
    forall i, j :: 0 <= i < j < |hs| ==> hs[i] != hs[j]
  }

  lemma {:induction false} PlanSkipsTheSettled(b: Books, logins: map<Id, Login>, done: seq<Id>, rest: seq<Id>)
    requires AllSettled(b.records, logins, done)
    ensures Plan(b, logins, done + rest) == Plan(b, logins, rest)
    decreases |done|
  {
    if done == [] {
      assert done + rest == rest;
    } else {
      assert Settled(b.records, logins, done[0]);
      assert (done + rest)[1..] == done[1..] + rest;
      forall i | 0 <= i < |done[1..]| ensures Settled(b.records, logins, done[1..][i]) { assert done[1..][i] == done[i + 1]; }
      PlanSkipsTheSettled(b, logins, done[1..], rest);
    }
  }

  lemma RegisteringTwice(a: Accounts, h: Id, r: Record, login: Option<Login>)
    ensures Register(Register(a, h, r, login), h, r, login) == Register(a, h, r, login)
  {
    var b := Register(a, h, r, login);
    if b != a {
      assert Adopted(b.registry[|a.registry|], h, r);
    }
  }

  /** The record written next in a pass at `h`. */
  ghost predicate RecordWrite(before: Books, after: Books, logins: map<Id, Login>, h: Id) {
    PlanOne(after, logins, h) == PlanOne(before, logins, h)
    && forall g :: g != h ==> At(after.records, g) == At(before.records, g)
  }

  predicate HasRow(registry: seq<Row>, h: Id, r: Record) {
    exists i :: 0 <= i < |registry| && Adopted(registry[i], h, r)
  }

  /** The record at hand as the plan sees it. */
  predicate OpenRecord(b: Books, logins: map<Id, Login>, h: Id) {
    && h in b.records && !b.records[h].phase.Completed? && !b.records[h].phase.RollingBack?
    && (b.records[h].phase.Reserved? ==> h in logins)
  }

  lemma ReserveIsAWrite(b: Books, logins: map<Id, Login>, h: Id)
    requires h !in b.records && h in logins
    ensures RecordWrite(b, b.(records := b.records[h := Reservation(b.accounts, h, logins[h])]), logins, h)
  {
    var r := Reservation(b.accounts, h, logins[h]);
    assert b.records[h := r][h := r.(phase := Completed)] == b.records[h := r.(phase := Completed)];
  }

  lemma ClearIsAWrite(b: Books, logins: map<Id, Login>, h: Id)
    requires h in b.records && b.records[h].phase.Reserved? && h !in logins
    ensures RecordWrite(b, b.(records := Omit(b.records, h)), logins, h)
  {
  }

  lemma RegisterIsAWrite(b: Books, logins: map<Id, Login>, h: Id)
    requires OpenRecord(b, logins, h) && b.records[h].phase.Reserved?
    ensures RecordWrite(b, b.(accounts := Register(b.accounts, h, b.records[h], At(logins, h))), logins, h)
  {
    RegisteringTwice(b.accounts, h, b.records[h], At(logins, h));
  }

  lemma NextPhaseIsAWrite(b: Books, logins: map<Id, Login>, h: Id)
    requires OpenRecord(b, logins, h)
    requires b.records[h].phase.Reserved? ==> HasRow(b.accounts.registry, h, b.records[h])
    ensures RecordWrite(b, b.(records := b.records[h := b.records[h].(phase := NextPhase(b.records[h].phase))]), logins, h)
  {
    var r := b.records[h];
    assert b.records[h := r.(phase := NextPhase(r.phase))][h := r.(phase := Completed)] == b.records[h := r.(phase := Completed)];
  }

  lemma PlanStays(before: Books, after: Books, logins: map<Id, Login>, done: seq<Id>, h: Id, rest: seq<Id>)
    requires AllSettled(before.records, logins, done) && h !in done
    requires RecordWrite(before, after, logins, h)
    ensures Plan(after, logins, done + [h] + rest) == Plan(before, logins, done + [h] + rest)
    ensures AllSettled(after.records, logins, done)
  {
    forall i | 0 <= i < |done| ensures Settled(after.records, logins, done[i]) {
      assert Settled(before.records, logins, done[i]) && done[i] in done;
      assert At(after.records, done[i]) == At(before.records, done[i]);
    }
    assert done + [h] + rest == done + ([h] + rest);
    PlanSkipsTheSettled(before, logins, done, [h] + rest);
    PlanSkipsTheSettled(after, logins, done, [h] + rest);
    assert ([h] + rest)[1..] == rest;
  }

  lemma PlanOneKeepsRows(b: Books, logins: map<Id, Login>, g: Id, h: Id)
    requires h in b.records && !(b.records[h].phase.Reserved? && h !in logins)
    ensures var after := PlanOne(b, logins, g);
            h in after.records && after.records[h].rowId == b.records[h].rowId && !(after.records[h].phase.Reserved? && h !in logins)
  {
  }

  lemma {:induction false} PlanKeepsRows(b: Books, logins: map<Id, Login>, hs: seq<Id>, h: Id)
    requires h in b.records && !(b.records[h].phase.Reserved? && h !in logins)
    ensures RowOf(Plan(b, logins, hs), h) == b.records[h].rowId
    decreases |hs|
  {
    if hs != [] {
      PlanOneKeepsRows(b, logins, hs[0], h);
      PlanKeepsRows(PlanOne(b, logins, hs[0]), logins, hs[1..], h);
    }
  }

  // ---------------------------------------------------------------- the continuity target is stable

  /** Whatever is no longer on the work list has nothing left to move. */
  ghost predicate Emptied(c: Continuity, h: Id, row: Id, work: set<Unit>) {
    && (forall k: SessionKey :: k.harness == h && Sessions(k.partition) !in work ==> At(c.sessions, k) != Some(None))
    && (forall k: LaneKey :: k.harness == h && k.profile == Some(row) && Sessions(k.partition) !in work ==>
          TurnOf(Forwarded(At(c.lanes, k.(profile := None)), At(c.lanes, k), 0)) == TurnOf(At(c.lanes, k)))
    && (forall k: HomeKey :: k.harness == h && Home(k.slot) !in work ==>
          At(c.homes, k.(profile := None)) == None || At(c.homes, k.(profile := Some(row))).Some?)
  }

  ghost predicate WorkLeft(w: World, logins: map<Id, Login>, h: Id, work: set<Unit>) {
    h in w.records &&
    var r := w.records[h];
    match r.phase
    case Reserved => h in logins && work <= {Config} && (Config in work || HasRow(w.accounts.registry, h, r))
    case RegistryWritten => (forall u :: u in work ==> u.Sessions? || u.Home?) && Emptied(w.continuity, h, r.rowId, work)
    case ContinuityMigrated => work <= {Quota} && (Quota in work || Subject(h, None) !in w.quota)
    case Completed => false
    case RollingBack => false
  }

  lemma EverythingIsListed(c: Continuity, h: Id, row: Id)
    ensures Emptied(c, h, row, StoreUnits(c, h))
  {
    var work := StoreUnits(c, h);
    forall k: LaneKey | k.harness == h && k.profile == Some(row) && Sessions(k.partition) !in work
      ensures At(c.lanes, k.(profile := None)) == None
    {
      var d := k.(profile := None);
      assert Sessions(d.partition) !in work && d !in c.lanes;
    }
    forall k: HomeKey | k.harness == h && Home(k.slot) !in work ensures At(c.homes, k.(profile := None)) == None {
      var d := k.(profile := None);
      assert Home(d.slot) !in work && d !in c.homes;
    }
  }

  lemma MoveKeepsTargetSessions(c: Continuity, h: Id, row: Id, u: Unit, now: nat, k: SessionKey)
    ensures TargetSession(Move(c, h, row, u, now), k.harness == h, row, k) == TargetSession(c, k.harness == h, row, k)
    ensures k.harness != h ==> At(Move(c, h, row, u, now).sessions, k) == At(c.sessions, k)
  {
  }

  lemma MoveKeepsTargetLanes(c: Continuity, h: Id, row: Id, u: Unit, now: nat, k: LaneKey)
    ensures TargetTurn(Move(c, h, row, u, now), k.harness == h, row, k) == TargetTurn(c, k.harness == h, row, k)
    ensures k.harness != h ==> At(Move(c, h, row, u, now).lanes, k) == At(c.lanes, k)
  {
    var c' := Move(c, h, row, u, now);
    var d := k.(profile := None);
    assert At(c'.lanes, d) == At(c.lanes, d);
    if u.Sessions? {
      assert At(c'.lanes, k) == LaneMoved(c.lanes, k, h, row, u.partition, now);
      MovingTwiceIsMovingOnce(At(c.lanes, d), At(c.lanes, k), now, 0);
    }
  }

  lemma MoveKeepsTargetHomes(c: Continuity, h: Id, row: Id, u: Unit, now: nat, k: HomeKey)
    ensures TargetHome(Move(c, h, row, u, now), k.harness == h, row, k) == TargetHome(c, k.harness == h, row, k)
    ensures k.harness != h ==> At(Move(c, h, row, u, now).homes, k) == At(c.homes, k)
  {
    if u.Home? && k.harness == h {
      assert k.slot == u.slot <==> k.(profile := None) == HomeKey(h, u.slot, None);
      assert k.slot == u.slot <==> k.(profile := Some(row)) == HomeKey(h, u.slot, Some(row));
    }
  }

  lemma MoveKeepsTarget(w: World, logins: map<Id, Login>, hs: seq<Id>, plan: Books, h: Id, u: Unit, now: nat)
    requires h in hs && h in w.records && w.records[h].phase.RegistryWritten? && RowOf(plan, h) == w.records[h].rowId
    ensures SameTarget(w, w.(continuity := Move(w.continuity, h, w.records[h].rowId, u, now)), logins, hs, plan)
  {
    var c, row := w.continuity, w.records[h].rowId;
    var c' := Move(c, h, row, u, now);
    forall k: SessionKey
      ensures TargetSession(c', Moves(w.records, logins, hs, k.harness), RowOf(plan, k.harness), k)
           == TargetSession(c, Moves(w.records, logins, hs, k.harness), RowOf(plan, k.harness), k)
    {
      MoveKeepsTargetSessions(c, h, row, u, now, k);
    }
    forall k: LaneKey
      ensures TargetTurn(c', Moves(w.records, logins, hs, k.harness), RowOf(plan, k.harness), k)
           == TargetTurn(c, Moves(w.records, logins, hs, k.harness), RowOf(plan, k.harness), k)
    {
      MoveKeepsTargetLanes(c, h, row, u, now, k);
      if k.harness != h { MoveKeepsTargetLanes(c, h, row, u, now, k.(profile := None)); }
    }
    forall k: HomeKey
      ensures TargetHome(c', Moves(w.records, logins, hs, k.harness), RowOf(plan, k.harness), k)
           == TargetHome(c, Moves(w.records, logins, hs, k.harness), RowOf(plan, k.harness), k)
    {
      MoveKeepsTargetHomes(c, h, row, u, now, k);
      if k.harness != h {
        MoveKeepsTargetHomes(c, h, row, u, now, k.(profile := None));
        MoveKeepsTargetHomes(c, h, row, u, now, k.(profile := Some(RowOf(plan, k.harness))));
      }
    }
    forall k: Subject
      ensures TargetQuota(w.(continuity := c'), logins, hs, k) <==> TargetQuota(w, logins, hs, k)
    {
    }
  }

  lemma MoveEmpties(c: Continuity, h: Id, row: Id, u: Unit, now: nat, work: set<Unit>)
    requires Emptied(c, h, row, work) && u in work
    ensures Emptied(Move(c, h, row, u, now), h, row, work - {u})
  {
    var c' := Move(c, h, row, u, now);
    forall k: LaneKey | k.harness == h && k.profile == Some(row) && Sessions(k.partition) !in work - {u}
      ensures TurnOf(Forwarded(At(c'.lanes, k.(profile := None)), At(c'.lanes, k), 0)) == TurnOf(At(c'.lanes, k))
    {
      var d := k.(profile := None);
      assert At(c'.lanes, d) == At(c.lanes, d);
      if u.Sessions? { assert At(c'.lanes, k) == LaneMoved(c.lanes, k, h, row, u.partition, now); }
    }
    forall k: HomeKey | k.harness == h && Home(k.slot) !in work - {u}
      ensures At(c'.homes, k.(profile := None)) == None || At(c'.homes, k.(profile := Some(row))).Some?
    {
      if u.Home? {
        assert k.slot == u.slot <==> k.(profile := None) == HomeKey(h, u.slot, None);
        assert k.slot == u.slot <==> k.(profile := Some(row)) == HomeKey(h, u.slot, Some(row));
      }
    }
  }

  /** The record moves on: what it no longer promises to move is already moved. */
  lemma PhaseKeepsTarget(w: World, logins: map<Id, Login>, hs: seq<Id>, plan: Books, h: Id, records: map<Id, Record>)
    requires forall g :: g != h ==> At(records, g) == At(w.records, g)
    requires Moves(w.records, logins, hs, h) && !Moves(records, logins, hs, h) ==>
               h in records && records[h].phase.ContinuityMigrated? && Emptied(w.continuity, h, RowOf(plan, h), {})
    requires Moves(records, logins, hs, h) ==> Moves(w.records, logins, hs, h)
    requires h in records && records[h].phase.ContinuityMigrated? ==> h in w.records && (w.records[h].phase.RegistryWritten? || w.records[h] == records[h]) && h in hs
    requires h in w.records && w.records[h].phase.ContinuityMigrated? && !(h in records && records[h].phase.ContinuityMigrated?) ==> Subject(h, None) !in w.quota
    ensures SameTarget(w, w.(records := records), logins, hs, plan)
  {
    forall g | g != h ensures Moves(records, logins, hs, g) == Moves(w.records, logins, hs, g) {
      assert At(records, g) == At(w.records, g);
    }
    forall k: LaneKey
      ensures TargetTurn(w.continuity, Moves(records, logins, hs, k.harness), RowOf(plan, k.harness), k)
           == TargetTurn(w.continuity, Moves(w.records, logins, hs, k.harness), RowOf(plan, k.harness), k)
    {
    }
    forall k: Subject
      ensures TargetQuota(w.(records := records), logins, hs, k) <==> TargetQuota(w, logins, hs, k)
    {
      if k.harness == h && k.profile == None { assert k == Subject(h, None); }
      assert At(records, k.harness) == At(w.records, k.harness) || k.harness == h;
    }
  }

  // ---------------------------------------------------------------- runs of startups

  predicate StartupOnly(op: Op) { op.DoBoot? || op.DoCrash? || op.DoWrite? }

  predicate StartupsOnly(ops: seq<Op>) {
    forall i :: 0 <= i < |ops| ==> StartupOnly(ops[i])
  }

  /** The pass is somewhere in the list of harnesses: all before it are settled. */
  ghost predicate OnTrack(w: World, logins: map<Id, Login>, hs: seq<Id>, queue: seq<Id>, work: Option<set<Unit>>) {
    && |queue| <= |hs| && queue == hs[|hs| - |queue|..]
    && AllSettled(w.records, logins, hs[..|hs| - |queue|])
    && (queue != [] && work.Some? ==> WorkLeft(w, logins, queue[0], work.value))
  }

  ghost predicate Heading(s: State, hs: seq<Id>, plan: Books) {
    && Plan(BooksOf(s.w), s.logins, hs) == plan
    && (s.process.Pass? ==> s.process.forward && OnTrack(s.w, s.logins, hs, s.process.queue, s.process.work))
  }

  lemma Position(hs: seq<Id>, queue: seq<Id>)
    requires Distinct(hs) && queue != [] && |queue| <= |hs| && queue == hs[|hs| - |queue|..]
    ensures var done := hs[..|hs| - |queue|];
            && hs == done + [queue[0]] + queue[1..]
            && queue[0] in hs && queue[0] !in done
            && queue[1..] == hs[|hs| - |queue[1..]|..]
            && hs[..|hs| - |queue[1..]|] == done + [queue[0]]
  {
    var n := |hs| - |queue|;
    assert hs[n] == queue[0];
  }

  lemma SettledSoFar(records: map<Id, Record>, logins: map<Id, Login>, done: seq<Id>, h: Id)
    requires AllSettled(records, logins, done) && Settled(records, logins, h)
    ensures AllSettled(records, logins, done + [h])
  {
    forall i | 0 <= i < |done + [h]| ensures Settled(records, logins, (done + [h])[i]) {
      if i < |done| { assert Settled(records, logins, done[i]); }
    }
  }

  /** A write to the harness at hand that its plan absorbs. */
  lemma PlanAbsorbs(w: World, next: World, logins: map<Id, Login>, hs: seq<Id>, queue: seq<Id>, work: Option<set<Unit>>)
    requires Distinct(hs) && queue != [] && OnTrack(w, logins, hs, queue, work)
    requires RecordWrite(BooksOf(w), BooksOf(next), logins, queue[0])
    ensures Plan(BooksOf(next), logins, hs) == Plan(BooksOf(w), logins, hs)
    ensures AllSettled(next.records, logins, hs[..|hs| - |queue|])
    ensures Settled(next.records, logins, queue[0]) ==> OnTrack(next, logins, hs, queue[1..], None)
  {
    var done := hs[..|hs| - |queue|];
    Position(hs, queue);
    PlanStays(BooksOf(w), BooksOf(next), logins, done, queue[0], queue[1..]);
    if Settled(next.records, logins, queue[0]) { SettledSoFar(next.records, logins, done, queue[0]); }
  }

  lemma EnterHeads(s: State, op: Op, hs: seq<Id>, plan: Books)
    requires Heading(s, hs, plan) && Distinct(hs) && op.DoWrite?
    requires s.process.Pass? && s.process.queue != [] && s.process.work == None
    ensures Heading(Step(s, op), hs, plan) && SameTarget(s.w, Step(s, op).w, s.logins, hs, plan)
  {
    var h := s.process.queue[0];
    if h !in s.w.records && h in s.logins {
      ReserveHeads(s, op, hs, plan);
    } else if h in s.w.records && s.w.records[h].phase.Reserved? && h !in s.logins {
      ClearHeads(s, op, hs, plan);
    } else {
      LookHeads(s, op, hs, plan);
    }
  }

  lemma ReserveKeepsTarget(w: World, next: World, logins: map<Id, Login>, hs: seq<Id>, queue: seq<Id>, plan: Books)
    requires Distinct(hs) && queue != [] && OnTrack(w, logins, hs, queue, None) && Plan(BooksOf(w), logins, hs) == plan
    requires queue[0] !in w.records && queue[0] in logins
    requires next == w.(records := w.records[queue[0] := Reservation(w.accounts, queue[0], logins[queue[0]])])
    ensures Plan(BooksOf(next), logins, hs) == plan && SameTarget(w, next, logins, hs, plan)
    ensures OnTrack(next, logins, hs, queue, Some({Config}))
  {
    Position(hs, queue);
    ReserveIsAWrite(BooksOf(w), logins, queue[0]);
    PlanAbsorbs(w, next, logins, hs, queue, None);
    PhaseKeepsTarget(w, logins, hs, plan, queue[0], next.records);
    assert WorkLeft(next, logins, queue[0], {Config});
  }

  lemma ReserveHeads(s: State, op: Op, hs: seq<Id>, plan: Books)
    requires Heading(s, hs, plan) && Distinct(hs) && op.DoWrite?
    requires s.process.Pass? && s.process.queue != [] && s.process.work == None
    requires s.process.queue[0] !in s.w.records && s.process.queue[0] in s.logins
    ensures Heading(Step(s, op), hs, plan) && SameTarget(s.w, Step(s, op).w, s.logins, hs, plan)
  {
    ReserveKeepsTarget(s.w, Step(s, op).w, s.logins, hs, s.process.queue, plan);
  }

  lemma ClearHeads(s: State, op: Op, hs: seq<Id>, plan: Books)
    requires Heading(s, hs, plan) && Distinct(hs) && op.DoWrite?
    requires s.process.Pass? && s.process.queue != [] && s.process.work == None
    requires s.process.queue[0] in s.w.records && s.w.records[s.process.queue[0]].phase.Reserved? && s.process.queue[0] !in s.logins
    ensures Heading(Step(s, op), hs, plan) && SameTarget(s.w, Step(s, op).w, s.logins, hs, plan)
  {
    var h := s.process.queue[0];
    var next := s.w.(records := Omit(s.w.records, h));
    Position(hs, s.process.queue);
    ClearIsAWrite(BooksOf(s.w), s.logins, h);
    PlanAbsorbs(s.w, next, s.logins, hs, s.process.queue, None);
    PhaseKeepsTarget(s.w, s.logins, hs, plan, h, next.records);
    assert Step(s, op).w == next;
  }

  /** Looking at a record without writing: it is settled, or its work list is loaded. */
  lemma LookHeads(s: State, op: Op, hs: seq<Id>, plan: Books)
    requires Heading(s, hs, plan) && Distinct(hs) && op.DoWrite?
    requires s.process.Pass? && s.process.queue != [] && s.process.work == None
    requires var h := s.process.queue[0]; if h in s.w.records then s.w.records[h].phase.Reserved? ==> h in s.logins else h !in s.logins
    ensures Heading(Step(s, op), hs, plan) && SameTarget(s.w, Step(s, op).w, s.logins, hs, plan)
  {
    var h := s.process.queue[0];
    Position(hs, s.process.queue);
    assert Step(s, op).w == s.w;
    if Settled(s.w.records, s.logins, h) {
      PlanAbsorbs(s.w, s.w, s.logins, hs, s.process.queue, None);
    } else {
      EverythingIsListed(s.w.continuity, h, s.w.records[h].rowId);
      assert WorkLeft(s.w, s.logins, h, UnitsOf(s.w.continuity, h, s.w.records[h].phase));
    }
  }

  lemma NextPhaseKeepsTarget(w: World, next: World, logins: map<Id, Login>, hs: seq<Id>, queue: seq<Id>, plan: Books)
    requires Distinct(hs) && queue != [] && OnTrack(w, logins, hs, queue, Some({})) && Plan(BooksOf(w), logins, hs) == plan
    requires next == SetPhase(w, queue[0], NextPhase(w.records[queue[0]].phase))
    ensures SameTarget(w, next, logins, hs, plan)
  {
    Position(hs, queue);
    PlanKeepsRows(BooksOf(w), logins, hs, queue[0]);
    PhaseKeepsTarget(w, logins, hs, plan, queue[0], next.records);
  }

  lemma NextPhaseHeads(w: World, next: World, logins: map<Id, Login>, hs: seq<Id>, queue: seq<Id>, plan: Books)
    requires Distinct(hs) && queue != [] && OnTrack(w, logins, hs, queue, Some({})) && Plan(BooksOf(w), logins, hs) == plan
    requires next == SetPhase(w, queue[0], NextPhase(w.records[queue[0]].phase))
    ensures Plan(BooksOf(next), logins, hs) == plan
    ensures var phase := next.records[queue[0]].phase;
            if phase.Completed? then OnTrack(next, logins, hs, queue[1..], None)
            else OnTrack(next, logins, hs, queue, Some(UnitsOf(next.continuity, queue[0], phase)))
  {
    var h := queue[0];
    NextPhaseIsAWrite(BooksOf(w), logins, h);
    Position(hs, queue);
    PlanAbsorbs(w, next, logins, hs, queue, Some({}));
    EverythingIsListed(next.continuity, h, next.records[h].rowId);
    assert !next.records[h].phase.Completed? ==> WorkLeft(next, logins, h, UnitsOf(next.continuity, h, next.records[h].phase));
  }

  lemma FinishHeads(s: State, op: Op, hs: seq<Id>, plan: Books)
    requires Heading(s, hs, plan) && Distinct(hs) && op.DoWrite?
    requires s.process.Pass? && s.process.queue != [] && s.process.work == Some({})
    ensures Heading(Step(s, op), hs, plan) && SameTarget(s.w, Step(s, op).w, s.logins, hs, plan)
  {
    var h := s.process.queue[0];
    var next := SetPhase(s.w, h, NextPhase(s.w.records[h].phase));
    NextPhaseHeads(s.w, next, s.logins, hs, s.process.queue, plan);
    NextPhaseKeepsTarget(s.w, next, s.logins, hs, s.process.queue, plan);
  }

  /** A write of the work list that keeps the target, absorbed by the plan. */
  lemma WorkHeads(s: State, u: Unit, hs: seq<Id>, plan: Books, next: State)
    requires Heading(s, hs, plan) && Writes(s, u, next) && next.logins == s.logins
    requires Plan(BooksOf(next.w), s.logins, hs) == plan && next.w.records == s.w.records
    requires WorkLeft(next.w, s.logins, s.process.queue[0], s.process.work.value - {u})
    ensures Heading(next, hs, plan)
  {
  }

  lemma MoveHeads(s: State, u: Unit, hs: seq<Id>, plan: Books, next: State)
    requires Heading(s, hs, plan) && Distinct(hs) && Writes(s, u, next) && next.logins == s.logins && (u.Sessions? || u.Home?)
    ensures Heading(next, hs, plan) && SameTarget(s.w, next.w, s.logins, hs, plan)
  {
    var h := s.process.queue[0];
    var row := s.w.records[h].rowId;
    Position(hs, s.process.queue);
    PlanKeepsRows(BooksOf(s.w), s.logins, hs, h);
    MoveKeepsTarget(s.w, s.logins, hs, plan, h, u, s.clock);
    MoveEmpties(s.w.continuity, h, row, u, s.clock, s.process.work.value);
    WorkHeads(s, u, hs, plan, next);
  }

  lemma ConfigKeepsTarget(w: World, next: World, logins: map<Id, Login>, hs: seq<Id>, queue: seq<Id>, work: set<Unit>, plan: Books)
    requires Distinct(hs) && queue != [] && OnTrack(w, logins, hs, queue, Some(work)) && Plan(BooksOf(w), logins, hs) == plan && Config in work
    requires next == w.(accounts := Register(w.accounts, queue[0], w.records[queue[0]], At(logins, queue[0])))
    ensures Plan(BooksOf(next), logins, hs) == plan && SameTarget(w, next, logins, hs, plan)
    ensures WorkLeft(next, logins, queue[0], work - {Config})
  {
    var h := queue[0];
    var r := w.records[h];
    Position(hs, queue);
    RegisterIsAWrite(BooksOf(w), logins, h);
    PlanAbsorbs(w, next, logins, hs, queue, Some(work));
    if !HasRow(w.accounts.registry, h, r) {
      assert Adopted(next.accounts.registry[|w.accounts.registry|], h, r);
    }
  }

  lemma ConfigHeads(s: State, hs: seq<Id>, plan: Books, next: State)
    requires Heading(s, hs, plan) && Distinct(hs) && Writes(s, Config, next) && next.logins == s.logins
    ensures Heading(next, hs, plan) && SameTarget(s.w, next.w, s.logins, hs, plan)
  {
    ConfigKeepsTarget(s.w, next.w, s.logins, hs, s.process.queue, s.process.work.value, plan);
    WorkHeads(s, Config, hs, plan, next);
  }

  lemma QuotaHeads(s: State, hs: seq<Id>, plan: Books, next: State)
    requires Heading(s, hs, plan) && Distinct(hs) && Writes(s, Quota, next) && next.logins == s.logins
    ensures Heading(next, hs, plan) && SameTarget(s.w, next.w, s.logins, hs, plan)
  {
    assert next.w == s.w.(quota := s.w.quota - {Subject(s.process.queue[0], None)});
    WorkHeads(s, Quota, hs, plan, next);
    forall k: Subject ensures TargetQuota(next.w, s.logins, hs, k) <==> TargetQuota(s.w, s.logins, hs, k) {
    }
  }

  lemma WriteHeads(s: State, op: Op, hs: seq<Id>, plan: Books)
    requires Heading(s, hs, plan) && Distinct(hs) && op.DoWrite?
    ensures Heading(Step(s, op), hs, plan) && SameTarget(s.w, Step(s, op).w, s.logins, hs, plan)
  {
    if s.process.Pass? && s.process.queue != [] {
      if s.process.work == None {
        EnterHeads(s, op, hs, plan);
      } else if s.process.work == Some({}) {
        FinishHeads(s, op, hs, plan);
      } else if op.which in s.process.work.value {
        WriteStepWrites(s, op.which);
        LoginsStay(s, op);
        match op.which
        case Config => ConfigHeads(s, hs, plan, Step(s, op));
        case Quota => QuotaHeads(s, hs, plan, Step(s, op));
        case Sessions(_) => MoveHeads(s, op.which, hs, plan, Step(s, op));
        case Home(_) => MoveHeads(s, op.which, hs, plan, Step(s, op));
      }
    }
  }

  lemma RestartHeads(s: State, op: Op, plan: Books)
    requires Heading(s, HARNESSES, plan) && (op.DoBoot? || op.DoCrash?)
    ensures Heading(Step(s, op), HARNESSES, plan) && Step(s, op).w == s.w && Step(s, op).logins == s.logins
  {
    assert HARNESSES[..0] == [] && HARNESSES[0..] == HARNESSES;
  }

  lemma LoginsStay(s: State, op: Op)
    requires op.DoWrite?
    ensures Step(s, op).logins == s.logins
  {
  }

  lemma TargetIsReflexive(w: World, logins: map<Id, Login>, hs: seq<Id>, plan: Books)
    ensures SameTarget(w, w, logins, hs, plan)
  {
  }

  lemma StepHeads(s: State, op: Op, plan: Books)
    requires Heading(s, HARNESSES, plan) && StartupOnly(op)
    ensures Heading(Step(s, op), HARNESSES, plan) && SameTarget(s.w, Step(s, op).w, s.logins, HARNESSES, plan)
    ensures Step(s, op).logins == s.logins
  {
    if op.DoWrite? {
      LoginsStay(s, op);
      WriteHeads(s, op, HARNESSES, plan);
    } else {
      RestartHeads(s, op, plan);
      TargetIsReflexive(s.w, s.logins, HARNESSES, plan);
    }
  }

  lemma {:induction false} RunHeads(s: State, ops: seq<Op>, plan: Books)
    requires Heading(s, HARNESSES, plan) && StartupsOnly(ops)
    ensures var end := Run(s, ops);
            && Heading(end, HARNESSES, plan) && SameTarget(s.w, end.w, s.logins, HARNESSES, plan) && end.logins == s.logins
    decreases |ops|
  {
    if ops != [] {
      assert StartupOnly(ops[0]);
      forall i | 0 <= i < |ops[1..]| ensures StartupOnly(ops[1..][i]) { assert ops[1..][i] == ops[i + 1]; }
      StepHeads(s, ops[0], plan);
      RunHeads(Step(s, ops[0]), ops[1..], plan);
      Chain(s.w, Step(s, ops[0]).w, Run(s, ops).w, s.logins, plan);
    }
  }

  lemma Chain(u: World, v: World, w: World, logins: map<Id, Login>, plan: Books)
    requires SameTarget(u, v, logins, HARNESSES, plan) && SameTarget(v, w, logins, HARNESSES, plan)
    ensures SameTarget(u, w, logins, HARNESSES, plan)
  {
  }

  // ---------------------------------------------------------------- convergence

  /** Registry, switches, records, sessions, turns seen, lane homes and quota subjects agree;
      only the times at which lanes were written may differ. */
  ghost predicate SameOutcome(v: World, w: World) {
    && v.accounts == w.accounts && v.records == w.records && v.quota == w.quota
    && v.continuity.sessions == w.continuity.sessions
    && v.continuity.homes == w.continuity.homes
    && forall k: LaneKey :: TurnOf(At(v.continuity.lanes, k)) == TurnOf(At(w.continuity.lanes, k))
  }

  /** Where nothing is left to move, the target is the world itself. */
  lemma {:induction false} SettledIsItsOwnPlan(b: Books, logins: map<Id, Login>, hs: seq<Id>)
    requires AllSettled(b.records, logins, hs)
    ensures Plan(b, logins, hs) == b
  {
    PlanSkipsTheSettled(b, logins, hs, []);
    assert hs + [] == hs;
  }

  lemma SettledDoNotMove(records: map<Id, Record>, logins: map<Id, Login>, hs: seq<Id>, h: Id)
    requires AllSettled(records, logins, hs)
    ensures !Moves(records, logins, hs, h)
  {
    if h in hs {
      var i :| 0 <= i < |hs| && hs[i] == h;
      assert Settled(records, logins, hs[i]);
    }
  }

  /** A finished startup has reached the plan, and the target its first world was heading for. */
  lemma FinishedIsTheTarget(w: World, end: World, logins: map<Id, Login>, hs: seq<Id>, plan: Books)
    requires SameTarget(w, end, logins, hs, plan) && Plan(BooksOf(end), logins, hs) == plan
    requires AllSettled(end.records, logins, hs)
    ensures BooksOf(end) == plan
    ensures forall k: SessionKey ::
              At(end.continuity.sessions, k) == TargetSession(w.continuity, Moves(w.records, logins, hs, k.harness), RowOf(plan, k.harness), k)
    ensures forall k: LaneKey ::
              TurnOf(At(end.continuity.lanes, k)) == TargetTurn(w.continuity, Moves(w.records, logins, hs, k.harness), RowOf(plan, k.harness), k)
    ensures forall k: HomeKey ::
              At(end.continuity.homes, k) == TargetHome(w.continuity, Moves(w.records, logins, hs, k.harness), RowOf(plan, k.harness), k)
    ensures forall k: Subject :: k in end.quota <==> TargetQuota(w, logins, hs, k)
  {
    SettledIsItsOwnPlan(BooksOf(end), logins, hs);
    forall h ensures !Moves(end.records, logins, hs, h) { SettledDoNotMove(end.records, logins, hs, h); }
    forall k: Subject ensures k in end.quota <==> TargetQuota(w, logins, hs, k) {
      if k.harness in hs {
        var i :| 0 <= i < |hs| && hs[i] == k.harness;
        assert Settled(end.records, logins, hs[i]);
      }
      assert TargetQuota(end, logins, hs, k) <==> k in end.quota;
    }
  }

  lemma SameMaps<K, V>(a: map<K, V>, b: map<K, V>)
    requires forall k: K :: At(a, k) == At(b, k)
    ensures a == b
  {
    forall k: K ensures k in a <==> k in b { assert At(a, k) == At(b, k); }
    forall k | k in a ensures a[k] == b[k] { assert At(a, k) == At(b, k); }
  }

  /** Two schedules of startups from the same persisted state, each crashed between any two
      writes and restarted any number of times: once each has finished, registry, records, row
      ids, continuity keys and quota subjects are the same.  The uninterrupted startup is one. */
  lemma CrashedStartupsConverge(s: State, one: seq<Op>, other: seq<Op>)
    requires s.process.Idle? && StartupsOnly(one) && StartupsOnly(other)
    requires AllSettled(Run(s, one).w.records, s.logins, HARNESSES)
    requires AllSettled(Run(s, other).w.records, s.logins, HARNESSES)
    ensures SameOutcome(Run(s, one).w, Run(s, other).w)
  {
    var plan := Plan(BooksOf(s.w), s.logins, HARNESSES);
    var v, w := Run(s, one).w, Run(s, other).w;
    RunHeads(s, one, plan);
    RunHeads(s, other, plan);
    FinishedIsTheTarget(s.w, v, s.logins, HARNESSES, plan);
    FinishedIsTheTarget(s.w, w, s.logins, HARNESSES, plan);
    forall k: SessionKey ensures At(v.continuity.sessions, k) == At(w.continuity.sessions, k) { }
    forall k: HomeKey ensures At(v.continuity.homes, k) == At(w.continuity.homes, k) { }
    SameMaps(v.continuity.sessions, w.continuity.sessions);
    SameMaps(v.continuity.homes, w.continuity.homes);
    forall k: Subject ensures k in v.quota <==> k in w.quota { }
  }

  /** A startup whose list of harnesses is used up has finished. */
  lemma UsedUpIsFinished(s: State, ops: seq<Op>)
    requires s.process.Idle? && StartupsOnly(ops)
    requires Run(s, ops).process.Pass? && Run(s, ops).process.queue == []
    ensures AllSettled(Run(s, ops).w.records, s.logins, HARNESSES)
  {
    RunHeads(s, ops, Plan(BooksOf(s.w), s.logins, HARNESSES));
    assert HARNESSES[..|HARNESSES|] == HARNESSES;
  }
}
