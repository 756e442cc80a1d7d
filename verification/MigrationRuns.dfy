/** The migration as a system: startup passes and rollback passes made of single persistent
    writes, a crash possible between any two, and the runs of the harnesses in between. */
module MigrationRuns {
  import opened Knowledge
  import opened MigrationModel
  import opened RowIds

  const HARNESSES: seq<Id> := ["claude", "codex"]

  /** A persistent write of a phase: the config file, one partition's store, one lane home, or
      the quota registry. */
  datatype Unit = Config | Sessions(partition: Id) | Home(slot: Id) | Quota

  /** The pass in progress, in memory only.  `work` holds the writes the current phase of
      `queue[0]` still has to make; `None` means its record has not been looked at yet. */
  datatype Process = Idle | Pass(forward: bool, queue: seq<Id>, work: Option<set<Unit>>)

  /** The engine that never migrates: it is given the same turns, under the null subject. */
  datatype Twin = Twin(accounts: Accounts, continuity: Continuity)

  datatype State = State(w: World, process: Process, logins: map<Id, Login>, clock: nat, twin: Twin)

  /** A turn of a thread: it records its session, advances its lane and leaves its home. */
  datatype Turn = Turn(harness: Id, partition: Id, thread: Id, session: Id, turn: Id, slot: Id, content: Id)

  datatype Op =
    | DoBoot
    | DoRollback(targets: seq<Id>)
    | DoCrash
    | DoWrite(which: Unit)
    | DoLogin(harness: Id, login: Option<Login>)
    | DoTurn(t: Turn, pin: Option<Id>)
    | DoToggle(owner: Id, enabled: bool)

  // ---------------------------------------------------------------- one pass

  function StoreUnits(c: Continuity, harness: Id): set<Unit> {
    (set k | k in c.sessions && k.harness == harness :: Sessions(k.partition))
    + (set k | k in c.lanes && k.harness == harness :: Sessions(k.partition))
    + (set k | k in c.homes && k.harness == harness :: Home(k.slot))
  }

  function UnitsOf(c: Continuity, harness: Id, phase: Phase): set<Unit> {
    match phase
    case Reserved => {Config}
    case RegistryWritten => StoreUnits(c, harness)
    case ContinuityMigrated => {Quota}
    case Completed => {}
    case RollingBack => StoreUnits(c, harness) + {Quota, Config}
  }

  function NextPhase(phase: Phase): Phase {
    match phase
    case Reserved => RegistryWritten
    case RegistryWritten => ContinuityMigrated
    case ContinuityMigrated => Completed
    case Completed => Completed
    case RollingBack => RollingBack
  }

  function Reservation(a: Accounts, harness: Id, login: Login): Record {
    var row := FindLocator(a.registry, harness, login.locator);
    Record(Reserved, if row.Some? then row.value.id else ReservedId(a.registry, harness), login.locator)
  }

  function Move(c: Continuity, harness: Id, row: Id, u: Unit, now: nat): Continuity {
    match u
    case Sessions(p) => MovePartition(c, harness, row, p, now)
    case Home(slot) => MoveHome(c, harness, row, slot)
    case _ => c
  }

  function Return(c: Continuity, harness: Id, row: Id, u: Unit, now: nat): Continuity {
    match u
    case Sessions(p) => ReturnPartition(c, harness, row, p, now)
    case Home(slot) => ReturnHome(c, harness, row, slot)
    case _ => c
  }

  /** One persistent write of the work list. */
  function Perform(w: World, harness: Id, forward: bool, u: Unit, login: Option<Login>, now: nat): World
    requires harness in w.records
  {
    var record := w.records[harness];
    match u
    case Config => w.(accounts := if forward then Register(w.accounts, harness, record, login) else Unregister(w.accounts, harness, record))
    case Quota => w.(quota := w.quota - {Subject(harness, if forward then None else Some(record.rowId))})
    case _ => w.(continuity := if forward then Move(w.continuity, harness, record.rowId, u, now)
                               else Return(w.continuity, harness, record.rowId, u, now))
  }

  function SetPhase(w: World, harness: Id, phase: Phase): World
    requires harness in w.records
  {
    w.(records := w.records[harness := w.records[harness].(phase := phase)])
  }

  function Skip(s: State): State
    requires s.process.Pass? && s.process.queue != []
  {
    s.(process := s.process.(queue := s.process.queue[1..], work := None))
  }

  function Begin(s: State, phase: Phase): State
    requires s.process.Pass? && s.process.queue != []
  {
    s.(process := s.process.(work := Some(UnitsOf(s.w.continuity, s.process.queue[0], phase))))
  }

  /** The pass looks at the next harness's record. */
  function Enter(s: State): State
    requires s.process.Pass? && s.process.queue != [] && s.process.work == None
  {
    var h := s.process.queue[0];
    if s.process.forward then
      if h !in s.w.records then
        if h in s.logins
        then Begin(s.(w := s.w.(records := s.w.records[h := Reservation(s.w.accounts, h, s.logins[h])])), Reserved)
        else Skip(s)
      else if s.w.records[h].phase.Completed? || s.w.records[h].phase.RollingBack? then Skip(s)
      else if s.w.records[h].phase.Reserved? && h !in s.logins
      then Skip(s.(w := s.w.(records := Omit(s.w.records, h))))
      else Begin(s, s.w.records[h].phase)
    else
      if h !in s.w.records then Skip(s)
      else Begin(s.(w := SetPhase(s.w, h, RollingBack)), RollingBack)
  }

  /** All writes of the phase are made: the record moves on, or leaves. */
  function Finish(s: State): State
    requires s.process.Pass? && s.process.queue != [] && s.process.queue[0] in s.w.records
  {
    var h := s.process.queue[0];
    if !s.process.forward then Skip(s.(w := s.w.(records := Omit(s.w.records, h))))
    else
      var next := NextPhase(s.w.records[h].phase);
      var after := s.(w := SetPhase(s.w, h, next));
      if next.Completed? then Skip(after) else Begin(after, next)
  }

  function Advance(s: State, u: Unit): State {
    if s.process.Idle? then s
    else if s.process.queue == [] then s.(process := Idle)
    else if s.process.work == None then Enter(s)
    else if s.process.queue[0] !in s.w.records then s
    else if s.process.work.value == {} then Finish(s)
    else if u !in s.process.work.value then s
    else s.(w := Perform(s.w, s.process.queue[0], s.process.forward, u, At(s.logins, s.process.queue[0]), s.clock),
            process := s.process.(work := Some(s.process.work.value - {u})))
  }

  // ---------------------------------------------------------------- turns

  predicate GateOpen(w: World, harness: Id) {
    harness in w.records ==> w.records[harness].phase.Completed?
  }

  /** The subject an unpinned turn runs as. */
  function DefaultSubject(w: World, harness: Id): Option<Id> {
    if harness in w.records then Some(w.records[harness].rowId) else None
  }

  predicate Registered(registry: seq<Row>, harness: Id, id: Id) {
    exists i :: 0 <= i < |registry| && Owns(registry[i], harness, id)
  }

  function SubjectOf(w: World, harness: Id, pin: Option<Id>): Option<Id> {
    if pin.Some? then pin else DefaultSubject(w, harness)
  }

  function TwinSubject(w: World, harness: Id, pin: Option<Id>): Option<Id> {
    if SubjectOf(w, harness, pin) == DefaultSubject(w, harness) then None else pin
  }

  function Lane(t: Turn, subject: Option<Id>): LaneKey { LaneKey(t.harness, t.partition, t.thread, subject) }

  /** The gate is open, a pin names a registered row, and a session is resumed only as the
      subject it was recorded under. */
  predicate Runs(w: World, t: Turn, pin: Option<Id>) {
    && GateOpen(w, t.harness)
    && (pin.Some? ==> Registered(w.accounts.registry, t.harness, pin.value))
    && var key := SessionKey(t.harness, t.partition, t.session);
       key in w.continuity.sessions ==> w.continuity.sessions[key] == SubjectOf(w, t.harness, pin)
  }

  function Recorded(c: Continuity, t: Turn, subject: Option<Id>, now: nat): Continuity {
    Continuity(
      c.sessions[SessionKey(t.harness, t.partition, t.session) := subject],
      c.lanes[Lane(t, subject) := Checkpoint(t.turn, now)],
      c.homes[HomeKey(t.harness, t.slot, subject) := t.content])
  }

  // ---------------------------------------------------------------- runs

  /** The user enables or disables the migrated account. */
  function Toggle(s: State, harness: Id, enabled: bool): State {
    if harness !in s.w.records then s
    else
      var found := FindRow(s.w.accounts.registry, harness, s.w.records[harness].rowId);
      if found.None? then s
      else
        var row := s.w.accounts.registry[found.value].(enabled := enabled);
        s.(w := s.w.(accounts := s.w.accounts.(registry := s.w.accounts.registry[found.value := row])),
           twin := s.twin.(accounts := s.twin.accounts.(native := s.twin.accounts.native[harness := enabled])))
  }

  function Act(s: State, op: Op): State {
    match op
    case DoBoot => if s.process.Idle? then s.(process := Pass(true, HARNESSES, None)) else s
    case DoRollback(targets) => if s.process.Idle? then s.(process := Pass(false, targets, None)) else s
    case DoCrash => s.(process := Idle)
    case DoWrite(u) => Advance(s, u)
    case DoLogin(h, login) => s.(logins := if login.Some? then s.logins[h := login.value] else Omit(s.logins, h))
    case DoTurn(t, pin) =>
      if !Runs(s.w, t, pin) then s
      else s.(w := s.w.(continuity := Recorded(s.w.continuity, t, SubjectOf(s.w, t.harness, pin), s.clock)),
              twin := s.twin.(continuity := Recorded(s.twin.continuity, t, TwinSubject(s.w, t.harness, pin), s.clock)))
    case DoToggle(h, enabled) => Toggle(s, h, enabled)
  }

  /** A start: nothing under way, and a twin that is the same. */
  function Start(w: World, logins: map<Id, Login>, clock: nat): State {
    State(w, Idle, logins, clock, Twin(w.accounts, w.continuity))
  }

  function Step(s: State, op: Op): State {
    Act(s, op).(clock := s.clock + 1)
  }

  function Run(s: State, ops: seq<Op>): State
    decreases |ops|
  {
    if ops == [] then s else Run(Step(s, ops[0]), ops[1..])
  }

  lemma {:induction false} RunConcat(s: State, a: seq<Op>, b: seq<Op>)
    ensures Run(s, a + b) == Run(Run(s, a), b)
    decreases |a|
  {
    if a == [] {
      assert a + b == b;
    } else {
      assert (a + b)[1..] == a[1..] + b;
      RunConcat(Step(s, a[0]), a[1..], b);
    }
  }

  // ---------------------------------------------------------------- what a step writes

  /** Which records a step opens and closes. */
  lemma RecordsOfAStep(s: State, op: Op, h: Id)
    ensures h !in s.w.records && h in Step(s, op).w.records ==>
              && op.DoWrite? && s.process.Pass? && s.process.forward && s.process.queue != [] && s.process.queue[0] == h
              && s.process.work == None && h in s.logins
              && Step(s, op).w.records[h] == Reservation(s.w.accounts, h, s.logins[h])
    ensures Step(s, op).twin.accounts.registry == s.twin.accounts.registry
  {
  }

  /** Which stores a step writes. */
  lemma ContinuityOfAStep(s: State, op: Op)
    ensures var c, c' := s.w.continuity, Step(s, op).w.continuity;
            || c' == c
            || (op.DoTurn? && Runs(s.w, op.t, op.pin) && c' == Recorded(c, op.t, SubjectOf(s.w, op.t.harness, op.pin), s.clock))
            || (&& op.DoWrite? && s.process.Pass? && s.process.queue != [] && s.process.queue[0] in s.w.records
                && s.process.work.Some? && op.which in s.process.work.value
                && var h := s.process.queue[0];
                   var row := s.w.records[h].rowId;
                   c' == Move(c, h, row, op.which, s.clock) || c' == Return(c, h, row, op.which, s.clock))
  {
    match op
    case DoWrite(_) =>
    case DoTurn(_, _) =>
    case DoToggle(_, _) =>
    case DoBoot =>
    case DoRollback(_) =>
    case DoCrash =>
    case DoLogin(_, _) =>
  }

  /** What a write of the work list makes of the state. */
  predicate Writes(s: State, u: Unit, next: State) {
    && s.process.Pass? && s.process.queue != [] && s.process.work.Some? && u in s.process.work.value && s.process.queue[0] in s.w.records
    && next.w == Perform(s.w, s.process.queue[0], s.process.forward, u, At(s.logins, s.process.queue[0]), s.clock)
    && next.process == s.process.(work := Some(s.process.work.value - {u}))
    && next.twin == s.twin && next.clock == s.clock + 1
  }

  lemma WriteStepWrites(s: State, u: Unit)
    requires s.process.Pass? && s.process.queue != [] && s.process.work.Some? && u in s.process.work.value && s.process.queue[0] in s.w.records
    ensures Writes(s, u, Step(s, DoWrite(u)))
  {
  }

  // ---------------------------------------------------------------- a record's life

  /** From `before` to `after` a record keeps its row id and locator; once rolling back it only
      stays so or leaves; and only a rollback pass makes a record leave after `reserved`. */
  predicate LivesOn(before: map<Id, Record>, after: map<Id, Record>, h: Id) {
    h in before && h in after ==>
      && before[h].rowId == after[h].rowId && before[h].locator == after[h].locator
      && (before[h].phase.RollingBack? ==> after[h].phase.RollingBack?)
  }

  lemma RecordsLiveOn(s: State, op: Op, h: Id)
    ensures LivesOn(s.w.records, Step(s, op).w.records, h)
    ensures h in s.w.records && h !in Step(s, op).w.records ==>
              && op.DoWrite? && s.process.Pass? && s.process.queue != [] && s.process.queue[0] == h
              && (if s.process.forward then s.w.records[h].phase.Reserved? && h !in s.logins
                  else s.process.work == Some({}))
  {
  }
}
