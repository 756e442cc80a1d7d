/** What the migration promises beside the engine that never migrates, over every sound run. */
module MigrationTheorems {
  import opened Knowledge
  import opened MigrationModel
  import opened MigrationRuns
  import opened MigrationTwin
  import opened MigrationFreshness
  import opened Sequences

  // ---------------------------------------------------------------- gate safety

  /** What an unpinned turn of this harness can see: the sessions it may resume, the last turn
      of its lane in every thread, and its lane home in every slot. */
  ghost predicate SeesTheSame(w: World, twin: Continuity, h: Id) {
    var subject := DefaultSubject(w, h);
    && (forall k: SessionKey :: k.harness == h ==>
          (At(w.continuity.sessions, k) == Some(subject) <==> At(twin.sessions, k) == Some(None)))
    && (forall k: LaneKey :: k.harness == h && k.profile == None ==>
          TurnOf(At(w.continuity.lanes, k.(profile := subject))) == TurnOf(At(twin.lanes, k)))
    && (forall k: HomeKey :: k.harness == h && k.profile == None ==>
          At(w.continuity.homes, k.(profile := subject)) == At(twin.homes, k))
  }

  /** Every migration step is in effect: no session and no lane home is left under the null
      subject, and the row is registered. */
  ghost predicate AllMoved(w: World, h: Id) {
    && h in w.records
    && Own(w.accounts.registry, h, w.records[h].rowId) != []
    && (forall k: SessionKey :: k.harness == h ==> At(w.continuity.sessions, k) != Some(None))
    && (forall k: HomeKey :: k.harness == h && k.profile == None ==> k !in w.continuity.homes)
  }

  /** No migration step is in effect: the stores are the never-migrating engine's. */
  ghost predicate NothingMoved(w: World, twin: Continuity, h: Id) {
    && h !in w.records
    && (forall k: SessionKey :: k.harness == h ==> At(w.continuity.sessions, k) == At(twin.sessions, k))
    && (forall k: LaneKey :: k.harness == h && k.profile == None ==> TurnOf(At(w.continuity.lanes, k)) == TurnOf(At(twin.lanes, k)))
    && (forall k: HomeKey :: k.harness == h && k.profile == None ==> At(w.continuity.homes, k) == At(twin.homes, k))
  }

  lemma OpenGateSeesTheSame(s: State, h: Id)
    requires Inv(s) && GateOpen(s.w, h)
    ensures SeesTheSame(s.w, s.twin.continuity, h)
    ensures AllMoved(s.w, h) || NothingMoved(s.w, s.twin.continuity, h)
  {
    var c, t := s.w.continuity, s.twin.continuity;
    assert ContinuityKept(c, t, s.twin.accounts.registry, h, At(s.w.records, h));
    if h in s.w.records {
      var row := s.w.records[h].rowId;
      assert RowKept(s.w.accounts, s.twin.accounts, h, s.w.records[h]);
      forall k: LaneKey | k.harness == h && k.profile == None
        ensures TurnOf(At(c.lanes, k.(profile := Some(row)))) == TurnOf(At(t.lanes, k))
      {
        assert LaneKept(At(c.lanes, k), At(c.lanes, k.(profile := Some(row))), At(t.lanes, k), Completed);
      }
      forall k: HomeKey | k.harness == h && k.profile == None
        ensures At(c.homes, k.(profile := Some(row))) == At(t.homes, k) && At(c.homes, k) == None
      {
        assert HomeKept(At(c.homes, k), At(c.homes, k.(profile := Some(row))), At(t.homes, k), Completed);
      }
    } else {
      assert forall k: LaneKey :: k.profile == None ==> k.(profile := None) == k;
      assert forall k: HomeKey :: k.profile == None ==> k.(profile := None) == k;
    }
  }

  /** Startups, rollbacks, crashes, login changes and turns in any order: whenever the gate lets
      a harness run, the run sees exactly what the engine that never migrates would see, and
      either every migration step is in effect or none is. */
  lemma GateIsTransparent(w: World, logins: map<Id, Login>, clock: nat, ops: seq<Op>, h: Id)
    requires Untouched(w, logins, clock) && SoundRun(Start(w, logins, clock), ops)
    ensures var s := Run(Start(w, logins, clock), ops);
            GateOpen(s.w, h) ==>
              SeesTheSame(s.w, s.twin.continuity, h) && (AllMoved(s.w, h) || NothingMoved(s.w, s.twin.continuity, h))
  {
    StartIsFresh(w, logins, clock);
    RunKeepsFresh(Start(w, logins, clock), ops);
    var s := Run(Start(w, logins, clock), ops);
    if GateOpen(s.w, h) { OpenGateSeesTheSame(s, h); }
  }

  // ---------------------------------------------------------------- the rollback round trip

  /** Once a harness's record is gone, everything that belongs to it is the never-migrating
      engine's: its sessions, its default lanes and homes, and its switch (absent is true).
      Once no record is left the registry is the original one. */
  lemma RollbackRoundTrip(w: World, logins: map<Id, Login>, clock: nat, ops: seq<Op>, h: Id)
    requires Untouched(w, logins, clock) && SoundRun(Start(w, logins, clock), ops)
    ensures var s := Run(Start(w, logins, clock), ops);
            && (h !in s.w.records ==>
                  NothingMoved(s.w, s.twin.continuity, h) && (NativeOn(s.w.accounts, h) <==> NativeOn(s.twin.accounts, h)))
            && (s.w.records == map[] ==> s.w.accounts.registry == w.accounts.registry)
  {
    var start := Start(w, logins, clock);
    StartIsFresh(w, logins, clock);
    RunKeepsFresh(start, ops);
    var s := Run(start, ops);
    if h !in s.w.records { OpenGateSeesTheSame(s, h); }
    if s.w.records == map[] {
      TwinKeepsItsRegistry(start, ops);
      FilterKeepsAll(s.w.accounts.registry, NotCreated(s.w.records));
    }
  }

  /** The registry, the switches (absent is true), the sessions, the turns the default lanes have
      seen and the default homes are those before. */
  ghost predicate Restored(before: World, after: World) {
    && after.accounts.registry == before.accounts.registry
    && (forall h :: NativeOn(after.accounts, h) <==> NativeOn(before.accounts, h))
    && after.continuity.sessions == before.continuity.sessions
    && (forall k: LaneKey :: k.profile == None ==> TurnOf(At(after.continuity.lanes, k)) == TurnOf(At(before.continuity.lanes, k)))
    && (forall k: HomeKey :: k.profile == None ==> At(after.continuity.homes, k) == At(before.continuity.homes, k))
  }

  predicate MaintenanceOnly(ops: seq<Op>) {
    forall i :: 0 <= i < |ops| ==> !ops[i].DoTurn? && !ops[i].DoToggle?
  }

  lemma {:induction false} TwinSleeps(s: State, ops: seq<Op>)
    requires MaintenanceOnly(ops)
    ensures Run(s, ops).twin == s.twin
    decreases |ops|
  {
    if ops != [] {
      assert !ops[0].DoTurn? && !ops[0].DoToggle?;
      forall i | 0 <= i < |ops[1..]| ensures !ops[1..][i].DoTurn? && !ops[1..][i].DoToggle? {
        assert ops[1..][i] == ops[i + 1];
      }
      TwinSleeps(Step(s, ops[0]), ops[1..]);
    }
  }

  /** Migrations and rollbacks without turns in between, crashed and rerun any number of times:
      when no record is left, the world is the one before. */
  lemma RollbackRestoresTheOriginal(w: World, logins: map<Id, Login>, clock: nat, ops: seq<Op>)
    requires Untouched(w, logins, clock) && SoundRun(Start(w, logins, clock), ops) && MaintenanceOnly(ops)
    requires Run(Start(w, logins, clock), ops).w.records == map[]
    ensures Restored(w, Run(Start(w, logins, clock), ops).w)
  {
    var start := Start(w, logins, clock);
    var s := Run(start, ops);
    TwinSleeps(start, ops);
    forall h ensures NothingMoved(s.w, w.continuity, h) && (NativeOn(s.w.accounts, h) <==> NativeOn(w.accounts, h)) {
      RollbackRoundTrip(w, logins, clock, ops, h);
    }
    RollbackRoundTrip(w, logins, clock, ops, "");
    forall k: SessionKey ensures At(s.w.continuity.sessions, k) == At(w.continuity.sessions, k) {
      assert NothingMoved(s.w, w.continuity, k.harness);
    }
    forall k: SessionKey ensures k in s.w.continuity.sessions <==> k in w.continuity.sessions {
      assert At(s.w.continuity.sessions, k) == At(w.continuity.sessions, k);
    }
    forall k | k in w.continuity.sessions ensures s.w.continuity.sessions[k] == w.continuity.sessions[k] {
      assert At(s.w.continuity.sessions, k) == At(w.continuity.sessions, k);
    }
    forall k: LaneKey | k.profile == None ensures TurnOf(At(s.w.continuity.lanes, k)) == TurnOf(At(w.continuity.lanes, k)) {
      assert NothingMoved(s.w, w.continuity, k.harness);
    }
    forall k: HomeKey | k.profile == None ensures At(s.w.continuity.homes, k) == At(w.continuity.homes, k) {
      assert NothingMoved(s.w, w.continuity, k.harness);
    }
  }
}
