/** The quota subjects over whole runs: which one each write retires, and what a finished rollback
    leaves of them. */
module MigrationQuota {
  import opened Knowledge
  import opened MigrationModel
  import opened MigrationRuns
  import opened MigrationTwin
  import opened MigrationGate
  import opened MigrationAgain

  /** The pass under way may retire the subject: the null one of a harness whose continuity has
      moved, or the row's one of a harness that is rolling back. */
  predicate MayRetire(s: State, k: Subject) {
    && s.process.Pass? && k.harness in s.w.records
    && var r := s.w.records[k.harness];
       if s.process.forward then k.profile == None && r.phase == ContinuityMigrated
       else k.profile == Some(r.rowId) && r.phase == RollingBack
  }

  lemma OnlyQuotaWritesRetire(s: State, op: Op, k: Subject)
    requires GateInv(s)
    ensures k in Step(s, op).w.quota ==> k in s.w.quota
    ensures k in s.w.quota && k !in Step(s, op).w.quota ==> MayRetire(s, k) && Step(s, op).w.records == s.w.records
  {
    if op.DoWrite? && op.which.Quota? && s.process.Pass? && s.process.queue != [] && s.process.work.Some? && Quota in s.process.work.value {
      assert PassAt(s.w, s.process.queue[0], s.process.work.value, s.process.forward);
    } else {
      assert Step(s, op).w.quota == s.w.quota;
    }
  }

  /** Over every run: no step adds a quota subject, and one leaves only as the null subject of a
      harness at continuity_migrated in a startup, or as the row's of a harness rolling back. */
  lemma SubjectsOnlyRetire(w: World, logins: map<Id, Login>, clock: nat, ops: seq<Op>, op: Op, k: Subject)
    requires w.records == map[] && Past(w.continuity, clock)
    ensures var s := Run(Start(w, logins, clock), ops);
            && (k in Step(s, op).w.quota ==> k in s.w.quota)
            && (k in s.w.quota && k !in Step(s, op).w.quota ==>
                  && s.process.Pass? && k.harness in s.w.records
                  && var r := s.w.records[k.harness];
                     || (s.process.forward && k == Subject(k.harness, None) && r.phase == ContinuityMigrated)
                     || (!s.process.forward && k == Subject(k.harness, Some(r.rowId)) && r.phase == RollingBack))
  {
    StartIsInEffect(w, logins, clock);
    RunKeepsGate(Start(w, logins, clock), ops);
    OnlyQuotaWritesRetire(Run(Start(w, logins, clock), ops), op, k);
  }

  // ---------------------------------------------------------------- a finished rollback

  /** The subject against the state the rollbacks began in. */
  predicate Tracks(first: State, s: State, k: Subject) {
    var h := k.harness;
    && (h in s.w.records ==> h in first.w.records && s.w.records[h].rowId == first.w.records[h].rowId)
    && (k in s.w.quota ==> k in first.w.quota)
    && (k in first.w.quota && k !in s.w.quota ==>
          && h in first.w.records && k.profile == Some(first.w.records[h].rowId)
          && (h in s.w.records ==> s.w.records[h].phase == RollingBack))
    && (h in first.w.records && h !in s.w.records ==> Subject(h, Some(first.w.records[h].rowId)) !in s.w.quota)
  }

  lemma StepTracks(first: State, s: State, op: Op, k: Subject)
    requires GateInv(s) && QuotaKept(s.w.records, s.w.quota, s.process) && Backward(s.process) && Tracks(first, s, k)
    requires op.DoRollback? || op.DoCrash? || op.DoWrite?
    ensures Tracks(first, Step(s, op), k)
  {
    var h := k.harness;
    var row := if h in first.w.records then Subject(h, Some(first.w.records[h].rowId)) else k;
    OnlyQuotaWritesRetire(s, op, k);
    OnlyQuotaWritesRetire(s, op, row);
    RecordsOfAStep(s, op, h);
    RecordsLiveOn(s, op, h);
    if h in s.w.records && h !in Step(s, op).w.records {
      assert PassAt(s.w, h, {}, false);
      assert QuotaDone(s.w.records[h], s.w.quota, h, false);
    }
  }

  lemma {:induction false} RunTracks(first: State, s: State, ops: seq<Op>, k: Subject)
    requires GateInv(s) && QuotaKept(s.w.records, s.w.quota, s.process) && Backward(s.process) && Tracks(first, s, k)
    requires PassesOnly(ops) && RollbacksOnly(ops)
    ensures Tracks(first, Run(s, ops), k)
    decreases |ops|
  {
    if ops != [] {
      PassesRest(ops);
      var next := Step(s, ops[0]);
      StepTracks(first, s, ops[0], k);
      StepKeepsGate(s, ops[0]);
      StepKeepsQuota(s, ops[0]);
      assert Backward(next.process);
      RunTracks(first, next, ops[1..], k);
    }
  }

  /** Rollbacks of any targets, crashed and rerun any number of times until no record is left half
      way: the quota subjects are the first ones without the rows' of the records they dropped. */
  lemma FinishedRollbacksLeaveTheOtherSubjects(w: World, logins: map<Id, Login>, clock: nat, before: seq<Op>, back: seq<Op>, k: Subject)
    requires w.records == map[] && Past(w.continuity, clock) && RollbacksOnly(back)
    requires var s := Run(Start(w, logins, clock), before);
             && s.process.Idle?
             && forall h :: h in Run(s, back).w.records ==> Run(s, back).w.records[h].phase != RollingBack
    ensures var s := Run(Start(w, logins, clock), before);
            var e := Run(s, back).w;
            k in e.quota <==>
              k in s.w.quota && !(k.harness in s.w.records && k.harness !in e.records && k.profile == Some(s.w.records[k.harness].rowId))
  {
    var s := Run(Start(w, logins, clock), before);
    StartIsInEffect(w, logins, clock);
    RunKeepsGate(Start(w, logins, clock), before);
    RunKeepsQuota(Start(w, logins, clock), before);
    RunTracks(s, s, back, k);
  }
}
