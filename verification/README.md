# A verified model of Claudexor's financial and account authorities

This project models, in Dafny, the parts of Claudexor that decide about money and accounts, and
proves what they promise over whole runs.  It has four parts.

**The budget authority.**  `LedgerModel` gives every operation of the budget ledger as a function
on values; `Ledger` is the stateful ledger, root and task views over one shared financial state,
each method proved equal to its function.  `LedgerRuns` and `LedgerTotals` prove what any
interleaving of operations through any number of views keeps: the exposure bound, exact admission
conditions, the single unknown debt, latches, released views, conservation across tasks,
independence of settlement order.  `LedgerAdmission` reads admission, holds and debts off the cost
evidence and the history of a run, without the ledger's own classification.  `UsageEvidence` is the usage tracker; `UsageTrace` gives its
flags a meaning over the whole event trace and proves the incremental flags equal to it;
`UsageMeaning` has what that evidence means, field by field;
`Settlements` carries a trace through settlement into the ledger.

**The crash-recoverable accounts migration.**  `MigrationModel` has the persisted records, the
account registry and the continuity stores, and each persistent write; `MigrationRuns` makes a
system of them, with a crash possible between any two writes and turns of the harnesses in
between.  `MigrationGate` proves what holds over every run of that system without exception: what
an open gate means, and what a dropped record leaves.  `MigrationTwin`, `MigrationSafety`,
`MigrationFreshness` and `MigrationTheorems` run it beside an engine that never migrates and is
given the same turns: behind an open gate both show a run the same, and a finished rollback leaves
the same state.  `MigrationConvergence` proves that crashed and restarted startups reach one
outcome, `MigrationAgain` that a migration after rollbacks from any phase reaches it again.
`MigrationRows` and `MigrationRoundTrip` follow the registry over a record's life and say exactly
when it is what it was; `MigrationStartup` writes out whom a startup migrates, what it leaves and
when the gate opens and closes, `MigrationQuota` which quota subjects survive; `MigrationLimits` has concrete runs on which things are not restored.
`AccountsMigration` is the startup and the rollback as loops and writes, each write one step of the
system; `RowIds` is the search for the reserved row id.

**Ranking with a truthful explanation.**  `Quota`, `Router` and `Arbitration`, over
`StableSorting`: the comparators are total preorders, the result is the only stable one, and the
published reasons and records explain the order that was taken.

**Three smaller step systems.**  `WorkerPool` (bounded probes with a rate-limit stop),
`AccountObservations` (the display cache with its generation fences) and `OauthRejections` (the
memory of rejected tokens), each as a class and as a system over every interleaving.

Dollars and ratios are `real`.  Estimates and caps are non-negative, as the schemas demand.  Maps
and sets of the source that are only looked up by key are Dafny maps and sets; the rejected-token
memory is a sequence because its insertion order matters.

## Where the code differs from its own documentation

- Routing (`packages/budget/src/router.ts:331-341`): the comment says entitlement decided when an
  entitled route was weighed against a paid one.  The code also publishes
  `subscription_entitlement_first` when every paid candidate was unavailable or cooling down.
  `Router.EntitlementFirstIsTruthfulWhen` has the exact condition, `Router.EntitlementFirstCanMislead`
  an input.
- Rollback (`packages/cli/src/accounts-unified-migration.ts:452-463`): the comment says every phase
  is surgically reversed.  A rollback of a migration that has not moved a partition yet re-seeds
  that partition's default lanes from row lanes an earlier cycle left behind, even older ones
  (`MigrationLimits.StaleLaneRegresses` is such a run).  It restores the default lanes of a
  partition if and only if no row lane of it was stale when it began
  (`MigrationGate.RollbackRestoresLanesExactlyWhen`).  It also removes a row the migration only
  adopted: the registry is restored if and only if no row was at the login's locator
  (`MigrationRoundTrip.RegistryRoundTripExactlyWhen`).
- Cleared reservation (same file, lines 342-345): the comment says the reserved phase mutated
  nothing but the record.  After a crash between the config write and the phase write the row is
  registered too, and clearing the reservation leaves it
  (`MigrationLimits.ClearedReservationLeavesItsRow` is such a run).  Clearing leaves the harness's
  rows as they were at the reservation if and only if a row was already at the locator (adopted, so
  nothing was added) or the record's row is not registered (`MigrationRows.ClearingIsCleanExactlyWhen`).

Gate safety, what a dropped record leaves, the rows of a harness over a record's life, the default
lanes after a rollback and crash convergence are stated over every run.  The comparison with the engine that
never migrates starts from a world no migration has touched (`MigrationFreshness.Untouched`) and
asks, at the one step concerned, that these cases do not occur (`MigrationFreshness.Sound`): a
login that appears is not at a row of its harness, a cleared reservation has not registered its
row, and a rollback from before the continuity move meets no stale row lane.  Each is a fact a
caller can check before the step.  That the reserved id is the same over a whole run and the ground
under it stays fresh is proved (`MigrationFreshness.TheGroundStaysFresh`), and with no stale lane
to begin with startups and rollbacks without turns in between meet these conditions by themselves
(`MigrationAgain.PassesAreSound`).

In the table below, a row that begins with "One step:" is a consequence of a single step or
definition, which Dafny sees without a proof; the others are proved by induction over runs, traces
or data, or need the lemmas they stand on.

## Model

| member | source | states |
|---|---|---|
| `MigrationGate.GateSafety` | packages/cli/src/accounts-unified-migration.ts:152-180 | over every run of startups, rollbacks, crashes, login changes and turns, adopted rows and stale lanes included: whenever the gate lets a harness with a record run, its whole migration is in effect: no session under null, no default home without a row home, no row lane behind its default lane, a row with the record's id or locator registered, the null quota subject retired |
| `MigrationGate.DroppedRecordsLeaveNothing` | packages/cli/src/accounts-unified-migration.ts:464-511 | over the same runs, at the write by which a rollback drops a record: no session under the row, every row lane at its default lane's turn, every row home gone or beside a default home, and the row's quota subject retired |
| `MigrationGate.NoSecondRow` | packages/cli/src/accounts-unified-migration.ts:421-443 | over every run from any state: the rows of a harness at a locator never become more than they were, or than one |
| `MigrationGate.RollbackRestoresLanesExactlyWhen` | packages/cli/src/accounts-unified-migration.ts:475-483 | over every run, from a rollback's first look at a record through crashes, reruns and anything else to the write that drops it: the default lanes of any set of partitions are at the turns they had if and only if no row lane of these partitions was stale |
| `MigrationGate.DefaultLanesWait` | packages/cli/src/accounts-unified-migration.ts:357-383 | over every run: from the reservation on and up to registry_written the default lanes keep their checkpoints, so a rollback that begins there meets the turns from before the migration |
| `MigrationTheorems.GateIsTransparent` | packages/cli/src/accounts-unified-migration.ts:152-180 | over every sound run from an untouched world: whenever the gate lets a harness run, its sessions, lanes and homes under its current subject are those of an engine that never migrates, and either every migration step is in effect or none is |
| `MigrationTheorems.RollbackRoundTrip` | packages/cli/src/accounts-unified-migration.ts:452-524 | over the same sound runs: once a harness has no record, its sessions, default lanes, default homes and native switch (absent is true) are the never-migrating engine's, turns included; with no record left the registry is the original |
| `MigrationTheorems.RollbackRestoresTheOriginal` | packages/cli/src/accounts-unified-migration.ts:464-524 | the same without turns in between: with no record left the registry, the switches, the sessions, the default lanes and the default homes are those of the first world |
| `MigrationAgain.PassesAreSound` | packages/cli/src/accounts-unified-migration.ts:319-340 | with no stale lane to begin with, every interleaving of startups, rollbacks and crashes meets the conditions by itself |
| `MigrationAgain.PassesRestoreTheOriginal` | packages/cli/src/accounts-unified-migration.ts:464-524 | so from an untouched world with no stale lane, however often migrations and rollbacks crash and rerun, from any phase: with no record left the world is the first one, with no condition on the run |
| `MigrationAgain.MigratesAgainToTheSame` | packages/cli/src/accounts-unified-migration.ts:452-463 | from an untouched world, startups, rollbacks and crashes in any order, the rollbacks begun at any phase, that end with no record left (no rollback from before the continuity move meeting a stale lane): a startup from there ends with the records, row ids, registry, switches (absent is true), sessions, turns seen and homes of a startup from the first world, each crashed and rerun any number of times |
| `MigrationAgain.MigratesAgainFromAnyPhase` | packages/cli/src/accounts-unified-migration.ts:452-463 | the same with nothing asked of the startups, rollbacks and crashes, from an untouched world with no stale lane |
| `MigrationAgain.MigratesAgainAfterAStartup` | packages/cli/src/accounts-unified-migration.ts:332-340 | the same with nothing asked but that the rollback begins after a finished startup, stale lanes or not |
| `MigrationFreshness.TheGroundStaysFresh` | packages/cli/src/accounts-unified-migration.ts:332-340 | over every sound run, turns and other harnesses' migrations included: an open record holds the id its harness reserves in the first world; where no record is open that id is still the one to be reserved and nothing lies under it but lanes that are not ahead |
| `MigrationFreshness.HarnessesReserveApart` | packages/cli/src/accounts-unified-migration.ts:248-255 | two harnesses never reserve the same id, whatever their names and suffixes |
| `MigrationRows.OneRowAtTheLocator` | packages/cli/src/accounts-unified-migration.ts:421-443 | over every run, from the reservation of a record through any operations, adopted rows included: from registry_written to completed the harness has as many rows at the record's locator as at the reservation, or one where it had none, and the first of them is the record's own |
| `MigrationConvergence.CrashedStartupsConverge` | packages/cli/src/accounts-unified-migration.ts:319-413 | from any persisted state with stable logins, two finished schedules of startups, each crashed between any two writes and restarted any number of times, have the same registry, records, row ids, sessions, turns seen, homes and quota subjects |
| `MigrationConvergence.UsedUpIsFinished` | packages/cli/src/accounts-unified-migration.ts:319-340 | a startup pass that has used up its list of harnesses leaves every harness settled: completed, rolling back, or without record and login |
| `MigrationConvergence.FinishedIsTheTarget` | packages/cli/src/accounts-unified-migration.ts:319-413 | what a finished startup must hold, computed from the first world alone: plan of accounts and records, and the moved sessions, turns, homes and quota subjects |
| `MigrationStartup.StartupCoversBothHarnesses` | packages/cli/src/accounts-unified-migration.ts:46-47 | from any persisted state, once a startup pass has used up its queue, claude and codex, each with a login, have a record that is completed or rolling back |
| `MigrationStartup.FirstStartupLeaves` | packages/cli/src/accounts-unified-migration.ts:319-377 | what a finished startup leaves in a world without records: completed records for claude and codex where they had a login and for no other harness, each with its row at the login's locator: the one that was there, or a new one named after the login and switched as the native login was |
| `MigrationStartup.ReservedIdSpelled` | packages/cli/src/accounts-unified-migration.ts:245-255 | the reserved id is the harness's name and "-default", or that with the least free number from 2 on |
| `MigrationStartup.DecimalReadsBack` | packages/cli/src/accounts-unified-migration.ts:250-252 | the number in a reserved id reads back as itself, without leading zeros |
| `MigrationStartup.AfterAStartupHarnessesRun` | packages/cli/src/accounts-unified-migration.ts:152-166 | the gate opens: after any run, once startups have used up their queue, a new session of every harness that is not rolling back runs, whatever the switches, rows and logins are; as the row with a record, as the engine default without |
| `MigrationStartup.WithoutARecordItRuns` | packages/cli/src/accounts-unified-migration.ts:162 | One step: a new session of a harness without a record, as after a finished rollback, runs |
| `MigrationStartup.SessionsResumeAsTheirSubject` | packages/daemon/src/thread-lane-checkpoints.ts:80-90 | One step: behind an open gate a recorded session runs on as exactly the subject it was recorded under; as any other the turn changes nothing |
| `MigrationStartup.UnderWayNothingRuns` | packages/cli/src/accounts-unified-migration.ts:163-180 | the gate closes: from the reserving to the completing write, and from the rolling_back to the dropping write, no turn of the harness changes anything |
| `MigrationStartup.ReservingAndRollingBackAreUnderWay` | packages/cli/src/accounts-unified-migration.ts:368-377 | One step: those stretches begin with the reserving write and with the rolling_back write |
| `MigrationQuota.SubjectsOnlyRetire` | packages/cli/src/accounts-unified-migration.ts:388-394 | over every run no step adds a quota subject, and one leaves only as a harness's null subject at continuity_migrated in a startup, or as its row's subject while rolling back |
| `MigrationQuota.FinishedRollbacksLeaveTheOtherSubjects` | packages/cli/src/accounts-unified-migration.ts:464-486 | rollbacks of any targets, crashed and rerun until no record is left half way, leave the first quota subjects without the rows' of the records they dropped, and no less |
| `MigrationRuns.RecordsLiveOn` | packages/cli/src/accounts-unified-migration.ts:332-372 | One step: no step changes a record's row id or locator; a rolling_back record never goes forward; a record leaves only at the end of a rollback, or when reserved and its login is gone |
| `MigrationModel.MovePartition` | packages/daemon/src/thread-lane-checkpoints.ts:163-187 | one partition's forward transaction, key by key: null sessions of the harness take the row id, row lanes are created or brought forward, everything else keeps its value |
| `MigrationModel.ReturnPartition` | packages/daemon/src/thread-lane-checkpoints.ts:195-213 | the reverse transaction, key by key: the row's sessions return to null and every row lane re-seeds the default lane at its turn |
| `MigrationModel.Rename` | packages/workspace/src/lanes.ts:219-238 | a lane home is renamed exactly when it exists and the target does not; every other home is untouched |
| `MigrationModel.MovingTwiceIsMovingOnce` | packages/daemon/src/thread-lane-checkpoints.ts:148-162 | One step: a second forward pass over a lane changes nothing, whatever the clock says |
| `MigrationModel.TheRowLaneCatchesUpExactlyWhen` | packages/daemon/src/thread-lane-checkpoints.ts:155-162 | One step: after the migration the row lane has the default lane's turn if and only if it was not ahead of it |
| `MigrationModel.RollbackRestoresTheLaneExactlyWhen` | packages/daemon/src/thread-lane-checkpoints.ts:190-194 | One step: rolling back restores the default lane if and only if the row lane was not ahead (migrated lane), or was not stale (lane not migrated yet) |
| `MigrationRoundTrip.RegistryRoundTripExactlyWhen` | packages/cli/src/accounts-unified-migration.ts:494-511 | a finished startup and a finished rollback of all its records, each crashed and rerun any number of times, restore the registry if and only if no harness that migrated had a row at its login's locator: an adopted row leaves with the rollback |
| `MigrationRoundTrip.FreeLocatorsComeBack` | packages/cli/src/accounts-unified-migration.ts:464-511 | with no row at the locators, startups, rollbacks and crashes in any order that end with no record left restore the registry |
| `MigrationRows.RollbackRestoresRowsExactlyWhen` | packages/cli/src/accounts-unified-migration.ts:487-511 | over every run, from the reservation of a record through any operations to the write by which a rollback drops it: the harness's rows (switches aside) are those at the reservation if and only if the first row with the record's id was not at its locator |
| `MigrationLimits.StaleLaneRegresses` | packages/cli/src/accounts-unified-migration.ts:478-483 | a concrete run from a world with one default lane and no row lane: a migration, its rollback, one more turn, a second migration that crashes before its continuity move and its rollback to the end; the default lane is back at the older turn |
| `MigrationRows.ClearingIsCleanExactlyWhen` | packages/cli/src/accounts-unified-migration.ts:341-368 | over every run, from the reservation of a record through any operations to the write by which a startup clears it: the harness's rows (switches aside) are those at the reservation if and only if a row was already at the locator or the record's row is not registered |
| `MigrationLimits.ClearedReservationLeavesItsRow` | packages/cli/src/accounts-unified-migration.ts:341-356 | a concrete run: a crash between config write and phase write, then the login vanishes; the reservation is cleared but the row it registered stays |
| `RowIds.ReserveRowId` | packages/cli/src/accounts-unified-migration.ts:245-255 | the search ends; it returns the least free suffix in its order, within one candidate more than there are rows, used by no row of any harness |
| `RowIds.SomeCandidateIsFree` | packages/cli/src/accounts-unified-migration.ts:248-255 | pigeonhole: one of the first n+1 candidates is free in a registry of n rows |
| `RowIds.CandidatesDiffer` | packages/cli/src/accounts-unified-migration.ts:249-253 | two suffixes never give the same id |
| `AccountsMigration.MigratedSessions` | packages/daemon/src/thread-lane-checkpoints.ts:170-172 | the session loop moves exactly the null sessions of the harness and partition |
| `AccountsMigration.MigratedLanes` | packages/daemon/src/thread-lane-checkpoints.ts:173-185 | the checkpoint loop leaves each row lane as the migration of its pair says |
| `AccountsMigration.RolledBackSessions` | packages/daemon/src/thread-lane-checkpoints.ts:202-204 | the session loop returns exactly the row's sessions |
| `AccountsMigration.RolledBackLanes` | packages/daemon/src/thread-lane-checkpoints.ts:205-211 | the checkpoint loop re-seeds exactly the default lanes that have a row lane |
| `AccountsMigration.AccountsMigration.RegisterMigratedRow` | packages/cli/src/accounts-unified-migration.ts:421-443 | the config write is the registration step: adopt an existing row or append the record's row, enabled as the native switch |
| `AccountsMigration.MigratedStores` | packages/daemon/src/thread-lane-checkpoints.ts:163-187 | both loops of the forward transaction together are the partition's forward step |
| `AccountsMigration.RolledBackStores` | packages/daemon/src/thread-lane-checkpoints.ts:195-213 | both loops of the reverse transaction together are the partition's reverse step |
| `AccountsMigration.AccountsMigration.MigratePartition` | packages/cli/src/accounts-unified-migration.ts:383 | the store call is the forward step of that partition |
| `AccountsMigration.AccountsMigration.RollBackPartition` | packages/cli/src/accounts-unified-migration.ts:483 | the store call is the reverse step of that partition |
| `AccountsMigration.AccountsMigration.RenameHome` | packages/workspace/src/lanes.ts:206-238 | one rename is the forward or reverse step of that lane home |
| `AccountsMigration.AccountsMigration.Reserve` | packages/cli/src/accounts-unified-migration.ts:357-377 | the reservation persists before any mutation: the same-locator row's id, or the least free id |
| `AccountsMigration.AccountsMigration.Look` | packages/cli/src/accounts-unified-migration.ts:328-377 | the record decides: completed and rolling_back are passed over, a reservation without login is cleared, anything else is resumed or reserved |
| `AccountsMigration.AccountsMigration.MigrateHarness` | packages/cli/src/accounts-unified-migration.ts:328-413 | one harness's pass is a sequence of single persistent writes that uses up its place in the queue |
| `AccountsMigration.AccountsMigration.RunAccountsUnifiedMigration` | packages/cli/src/accounts-unified-migration.ts:319-413 | the uninterrupted startup is one schedule of the step system, to the end of its list |
| `AccountsMigration.TheStartupIsTheReference` | packages/cli/src/accounts-unified-migration.ts:313-321 | the uninterrupted startup settles every harness, and every finished crashed schedule from the same state has its outcome |
| `AccountsMigration.AccountsMigration.StartRollingBack` | packages/cli/src/accounts-unified-migration.ts:475-482 | rolling_back is persisted before the first reverse step |
| `AccountsMigration.AccountsMigration.UnregisterRow` | packages/cli/src/accounts-unified-migration.ts:487-508 | only the row at the record's own locator leaves, and the switch takes its enabled state |
| `AccountsMigration.AccountsMigration.DropRecord` | packages/cli/src/accounts-unified-migration.ts:509-511 | the record is deleted after every reverse step |
| `AccountsMigration.AccountsMigration.RollbackAccountsUnifiedMigration` | packages/cli/src/accounts-unified-migration.ts:464-524 | the uninterrupted rollback is one schedule of the step system; exactly the targeted records are gone |
| `LedgerRuns.ExposureBound` | packages/budget/src/ledger.ts:141-340 | over every run on a finite cap: settled cash plus outstanding holds stays below the cap plus the overruns, strictly for a positive cap; a run without overruns never overshoots |
| `LedgerRuns.GrantLeavesHeadroom` | packages/budget/src/ledger.ts:171-270 | a granted positive paid reservation or reprice leaves exposure strictly below the cap |
| `LedgerRuns.ReserveGrantedExactlyWhen` | packages/budget/src/ledger.ts:171-198 | One step: a reservation is granted if and only if zero-cash, unlimited, or positive cap, not hard, no unknown debt in the way, and estimate strictly inside the room left |
| `LedgerRuns.RepriceGrantedExactlyWhen` | packages/budget/src/ledger.ts:200-270 | One step: the same for a reprice, whose own hold is exchanged for the new one |
| `LedgerRuns.BelowHardIsBelowCap` | packages/budget/src/ledger.ts:152-162 | One step: with a hard threshold of at most one, a tier below hard means exposure below the cap, so the clamp at zero never hides a deficit |
| `LedgerAdmission.TiersInDollars` | packages/budget/src/ledger.ts:153-163 | One step: on a positive cap each tier begins where exposure reaches its threshold's share of the cap, in dollars |
| `LedgerAdmission.TiersAtTheEdges` | packages/budget/src/ledger.ts:153-169 | without a cap the tier is always ok, an overshot budget is always hard, a zero cap is hard from the first cent; what remains is the cap minus exposure, never below zero |
| `LedgerAdmission.TerminalMeans` | packages/budget/src/ledger.ts:380-386 | One step: overshot once cash is over the cap, else unverifiable once controllable cash is unknown, else exhausted at the hard tier; never without a cap |
| `LedgerAdmission.DeniedForTheFirstReason` | packages/budget/src/ledger.ts:223-271 | One step: which of the four reasons a paid reservation is denied for, each if and only if, in their order |
| `LedgerAdmission.FreeWorkIsAdmitted` | packages/budget/src/ledger.ts:223-271 | One step: free work is admitted on any budget and only adds its lease; paid work on a zero cap is refused |
| `LedgerAdmission.GrantHoldsTheQuote` | packages/budget/src/ledger.ts:171-196 | a granted reservation raises exposure by exactly the quote of paid work, records the lease as asked for, and touches nothing else |
| `LedgerAdmission.RepriceHoldsTheQuote` | packages/budget/src/ledger.ts:198-221 | One step: a granted reprice keeps what streamed, holds the new quote on top, and touches no other lease |
| `LedgerAdmission.HoldIsTheMostStreamed` | packages/budget/src/ledger.ts:273-279 | while a lease is live, what counts as streamed for it is the most the run has reported for it |
| `LedgerAdmission.LowerStreamsChangeNothing` | packages/budget/src/ledger.ts:273-279 | One step: streamed cash no more than what counted before changes nothing |
| `LedgerAdmission.TaskViewsStayInTheirTask` | packages/budget/src/ledger.ts:396-421 | One step: no operation through a task view touches another task's leases, holds, debts or totals |
| `LedgerAdmission.OutsideItsTaskAViewIsRefused` | packages/budget/src/ledger.ts:396-421 | One step: outside its task, or released, a view gets a refusal that names the reason, and nothing changes |
| `LedgerAdmission.MissingAndClosedLeases` | packages/budget/src/ledger.ts:200-205 | One step: what each operation answers for a lease that does not exist or is closed |
| `LedgerAdmission.CancelIsExact` | packages/budget/src/ledger.ts:334-340 | One step: cancelling a live lease closes it, frees its hold and debt, and moves no money |
| `LedgerAdmission.ClosingForgetsTheLease` | packages/budget/src/ledger.ts:281-340 | One step: however a lease closes, nothing is held, owed or under way for it any more |
| `LedgerAdmission.PlainSettlementFollowsTheBilling` | packages/budget/src/ledger.ts:288-310 | One step: a settlement without components follows the lease: free work that owes nothing takes no cash and its amount is valuation, anything else is charged |
| `LedgerAdmission.BlankIds` | packages/budget/src/ledger.ts:128-129 | a task id is blank exactly when it consists of the characters trimming removes |
| `LedgerRuns.StepKeepsInv` | packages/budget/src/ledger.ts:89-340 | every operation through every view keeps: holds and unknown debts only on reserved leases, one unknown debt at most, sane totals, exact latches |
| `LedgerRuns.ReachableInv` | packages/budget/src/ledger.ts:89-340 | the invariant holds in every reachable state, the budget never changes |
| `LedgerRuns.DebtSurvives` | packages/budget/src/ledger.ts:205-220 | an unknown debt that physically started survives every sequence of operations until its lease closes |
| `LedgerAdmission.OneUnpricedLease` | packages/budget/src/ledger.ts:171-196 | in every state a family on a finite budget can reach at most one live lease is of paid work nobody can price, and it is on record as the debt |
| `LedgerAdmission.SecondUnpricedIsDenied` | packages/budget/src/ledger.ts:240-253 | while such a lease is live a second reservation, or a reprice of another lease to such work, is denied as unknown_paid_in_flight and changes nothing, unless the tier is hard |
| `LedgerAdmission.SentMeansSent` | packages/budget/src/ledger.ts:90-98 | a live lease counts as sent exactly when, at some point of the run, it was handed to a send while it was not free work |
| `LedgerAdmission.SentDebtSurvives` | packages/budget/src/ledger.ts:205-220 | from the reservation: unpriced work that is granted and then sent stays a debt through any operations, reprices included, until its lease closes |
| `LedgerAdmission.FreeRepriceClearsUnsentDebt` | packages/budget/src/ledger.ts:216-219 | One step: a reprice to free work is granted, and clears the lease's debt exactly when it was not sent |
| `LedgerRuns.OnlyClosingCloses` | packages/budget/src/ledger.ts:281-340 | One step: only its own settle or cancel, or the release of its task, closes a lease |
| `LedgerRuns.DebtIsCharged` | packages/budget/src/ledger.ts:286-297 | settling a debt that survived any run charges its cash in full, whatever billing it was last priced under |
| `LedgerRuns.ClosedForever` | packages/budget/src/ledger.ts:281-340 | a closed lease never reopens or changes |
| `LedgerRuns.TerminalIsSticky` | packages/budget/src/ledger.ts:380-386 | overshoot is never left; unverifiable is left only for overshoot |
| `LedgerRuns.ReleasedViewIsInert` | packages/budget/src/ledger.ts:396-421 | One step: through a released view nothing is reserved, repriced, held, settled or cancelled |
| `LedgerRuns.ReleasedForever` | packages/budget/src/ledger.ts:388-411 | a released view stays released |
| `LedgerRuns.ReleaseIsExact` | packages/budget/src/ledger.ts:388-394 | One step: release cancels exactly its own task's reserved leases, drops exactly their holds and debts, moves no money |
| `LedgerRuns.RepriceHoldsStreamedPlusEstimate` | packages/budget/src/ledger.ts:205-219 | One step: a granted reprice keeps streamed cash and holds the new estimate on top of it, never less than before |
| `LedgerRuns.HoldNeverShrinks` | packages/budget/src/ledger.ts:205-279 | while a lease is live nothing lowers what is held for it |
| `LedgerTotals.JoinIsLeastUpperBound` | packages/budget/src/shared-financial-state.ts:155-160 | One step: merging knowledge is the least upper bound on null < exact < estimated < unknown |
| `LedgerTotals.TotalsAreTheLog` | packages/budget/src/shared-financial-state.ts:76-135 | in every reachable state the family totals and each task's totals are the sums of the settlement log |
| `LedgerTotals.SettlementOrderIsIrrelevant` | packages/budget/src/shared-financial-state.ts:76-135 | runs that settle the same entries in any order end with the same totals and knowledge |
| `LedgerTotals.Conservation` | packages/budget/src/shared-financial-state.ts:76-135 | family cash and valuation are the sums over tasks, each knowledge value is the join of the tasks', and reported knowledge is never below controllable knowledge |
| `LedgerTotals.OneEntryPerSettledLease` | packages/budget/src/ledger.ts:281-333 | the log names every settled lease exactly once and no other, and family totals are its sum |
| `Ledger.BudgetLedger.OutstandingHolds` | packages/budget/src/ledger.ts:141-146 | the loop over holds computes their sum of max(reserved, observed) |
| `Ledger.BudgetLedger.CurrentTier` | packages/budget/src/ledger.ts:152-162 | refines `LedgerModel.Tier`, the exposure computed by the loop over holds |
| `Ledger.BudgetLedger.Remaining` | packages/budget/src/ledger.ts:164-169 | what is left, clamped at zero |
| `Ledger.BudgetLedger.DenialFor` | packages/budget/src/ledger.ts:222-270 | refines `LedgerModel.ReservationDenial`: four reasons in order, a reprice's own hold and debt set aside |
| `Ledger.BudgetLedger.ReserveLease` | packages/budget/src/ledger.ts:171-198 | refines `LedgerModel.Reserve`: a fresh lease with its hold and its unknown debt, or one of the denials with nothing changed |
| `Ledger.BudgetLedger.RepriceReservedLease` | packages/budget/src/ledger.ts:200-220 | refines `LedgerModel.Reprice`: the lease keeps streamed cash, exchanges its estimate and settles its debt flag, or is denied or refused with nothing changed |
| `Ledger.BudgetLedger.RaiseHold` | packages/budget/src/ledger.ts:273-279 | a hold rises to streamed cash, never falls |
| `Ledger.BudgetLedger.SettleLease` | packages/budget/src/ledger.ts:281-333 | refines `LedgerModel.Settle`: closes a reserved lease, drops its hold and debt, records one entry; a second settle changes nothing |
| `Ledger.BudgetLedger.ContributionOf` | packages/budget/src/ledger.ts:286-318 | what the settlement contributes, component evidence outranking the reserved billing |
| `Ledger.BudgetLedger.RecordSharedSettlement` | packages/budget/src/shared-financial-state.ts:76-116 | one settlement in the task's and the family's totals, and the latches |
| `Ledger.BudgetLedger.CancelLease` | packages/budget/src/ledger.ts:334-340 | refines `LedgerModel.Cancel`: closes a reserved lease without an entry; a second cancel changes no lease |
| `Ledger.BudgetLedger.MarkDispatchStarted` | packages/budget/src/ledger.ts:90-98 | marks a paid lease; checks neither state nor scope |
| `Ledger.BudgetLedger.Release` | packages/budget/src/ledger.ts:388-394 | refines `LedgerModel.ReleaseTask`: the loop cancels exactly the task's reserved leases one by one and seals the view |
| `Ledger.BudgetLedger.ScopedToTask` | packages/budget/src/ledger.ts:128-139 | a fresh view of the same finances; a task id that is empty or all whitespace is refused |
| `Ledger.BudgetLedger.Terminate` | packages/budget/src/ledger.ts:380-386 | refines `LedgerModel.TerminalOf`: overshoot before unverifiable before exhausted |
| `Ledger.BudgetLedger.Spend` | packages/budget/src/ledger.ts:341-345 | the family's cash for the root, the task's for a task view |
| `UsageTrace.CashKnowledgeMeans` | packages/budget/src/usage-evidence.ts:94-228 | for every trace: cash is unknown exactly for the four stated reasons over the trace, otherwise estimated exactly when a cash receipt was |
| `UsageTrace.AllowanceDebitMeans` | packages/budget/src/usage-evidence.ts:84-228 | an allowance debit is unobserved exactly when some key-delimited interval ran on an unreported allowance and no cash receipt fell into it |
| `UsageTrace.ValuationKnowledgeMeans` | packages/budget/src/usage-evidence.ts:199-228 | valuation knowledge and observed amounts are what the trace reported, zeros included |
| `UsageTrace.TotalsAreSums` | packages/budget/src/usage-evidence.ts:157-186 | the dollar totals are the sums of the reported amounts by their meaning |
| `UsageTrace.FlagsAlways` | packages/budget/src/usage-evidence.ts:125-197 | after every prefix the incremental flags are their meaning over that prefix |
| `UsageMeaning.UnlabelledSubscriptionUsage` | packages/budget/src/usage-evidence.ts:45-80 | One step: an unlabelled amount on a native session, for every tariff and every processing receipt: valuation or unknown, never cash |
| `UsageMeaning.OtherUsage` | packages/budget/src/usage-evidence.ts:45-54 | One step: a labelled amount is what its label says; unlabelled it is cash on an API key and unknown without a route |
| `UsageMeaning.PaidWork` | packages/budget/src/usage-evidence.ts:56-91 | One step: the work a receipt is owed for is the work whose unlabelled amounts are not included; an allowance debit is unobserved only on included work that says so |
| `UsageMeaning.IntervalsDiffer` | packages/budget/src/usage-evidence.ts:143 | One step: two routed events are in different billing intervals exactly when route, tariff or debit differ |
| `UsageMeaning.ReceiptInForce` | packages/budget/src/usage-evidence.ts:125-139 | the receipt in force is that of the latest event that carried one, or started the attempt |
| `UsageMeaning.TariffInForce` | packages/budget/src/usage-evidence.ts:125-139 | and so is the tariff in force |
| `UsageMeaning.OwnEvidenceFirst` | packages/budget/src/usage-evidence.ts:158-167 | One step: a usage event is read by its own receipt and tariff where it has them, by those in force otherwise |
| `UsageMeaning.UnknownPaidIsTheSum` | packages/budget/src/usage-evidence.ts:176-184 | the unknown paid amount is the sum of what was reported without a meaning on work no subscription includes |
| `UsageMeaning.PlainSubscriptionIsVerifiable` | packages/budget/src/usage-evidence.ts:79 | a plain subscription attempt (native sessions without receipts or tariffs, no amount of unknown meaning) has known cash and no missing debit, and settling it never makes a finite budget unverifiable |
| `UsageEvidence.UsageAmountKind` | packages/budget/src/usage-evidence.ts:45-54 | an unlabelled amount is cash exactly on an API key, valuation exactly on included work |
| `UsageEvidence.UsageCostTracker.Start` | packages/budget/src/usage-evidence.ts:125-135 | refines the fold `UsageTrace` gives a meaning to: an attempt still running is finished first, then the interval is fresh |
| `UsageEvidence.UsageCostTracker.Event` | packages/budget/src/usage-evidence.ts:137-155 | refines that fold: evidence in force, route sighting and interval of a streamed event |
| `UsageEvidence.UsageCostTracker.Enter` | packages/budget/src/usage-evidence.ts:143-154 | a changed key closes the open interval and latches what it owes |
| `UsageEvidence.UsageCostTracker.Usage` | packages/budget/src/usage-evidence.ts:157-186 | refines that fold: the amount lands in exactly one of cash, valuation and unknown, with its flags |
| `UsageEvidence.UsageCostTracker.Finish` | packages/budget/src/usage-evidence.ts:188-197 | refines that fold: what the open interval owes, or an attempt without route, is latched |
| `UsageEvidence.UsageCostTracker.TakeSnapshot` | packages/budget/src/usage-evidence.ts:199-228 | reads the knowledge off the fold, the open interval included |
| `Settlements.TraceToLedger` | packages/budget/src/settlements.ts:80-123 | a tracker run over any trace and settled on any live lease adds exactly the trace's cash and valuation to the task and the family, joins exactly its knowledge, and makes a finite budget unverifiable when cash is unknown |
| `Settlements.SettlingATrackerIsHonest` | packages/budget/src/settlements.ts:80-123 | One step: the same for any tracker state, whatever billing the lease was reserved under and whatever total the caller passes |
| `Settlements.ReviewSettlesAlike` | packages/budget/src/settlements.ts:39-73 | One step: an attempt and a review with the same evidence contribute the same entry |
| `Settlements.UnsplitUsageIsHonest` | packages/budget/src/settlements.ts:124-140 | One step: without a split, native-session usage is valuation and never cash, other usage is cash; without a positive total the native route has no valuation, and any other route's cash is unknown unless the lease was reserved as zero-cash with no debt |
| `Settlements.UnsplitSettlement` | packages/budget/src/settlements.ts:124-140 | One step: field by field what an attempt without a split hands over |
| `Settlements.SplitWithoutKnowledgeIsHonest` | packages/budget/src/settlements.ts:91-123 | One step: a split that reports amounts but no knowledge is as certain as its amounts were measured, and unknown once an amount of unknown meaning was reported |
| `Settlements.SilentSplitIsNoSplit` | packages/budget/src/settlements.ts:86-92 | One step: a split that says nothing is no split |
| `Settlements.OverallKnowledgeIsTheWorst` | packages/budget/src/settlements.ts:75-78 | a settlement's overall knowledge is the least certain of its cash and its valuation |
| `Quota.QuotaEvidence.Observe` | packages/budget/src/ledger.ts:423-426 | an observation is appended to the view's list |
| `Quota.QuotaEvidence.ObserveQuotaSnapshot` | packages/budget/src/ledger.ts:428-430 | a snapshot replaces the one under its identity |
| `Quota.QuotaEvidence.Cooling` | packages/budget/src/ledger.ts:436-493 | the loops over observations and snapshots report cooling exactly when some applicable observation or fresh snapshot window says so |
| `Quota.SomeWindowCools` | packages/budget/src/ledger.ts:471-490 | the loop over a snapshot's windows finds one that cools exactly when there is one |
| `Quota.QuotaEvidence.PaceSlack` | packages/budget/src/ledger.ts:495-571 | the minimum slack over the latest observation per (route, subject, window) and the fresh snapshots |
| `Quota.QuotaEvidence.LatestWindows` | packages/budget/src/ledger.ts:502-528 | the loop keeps exactly the latest observation of every window |
| `Quota.OtherSubjectsNeverInterfere` | packages/budget/src/ledger.ts:436-591 | any reports for other credential subjects leave cooldown and pace slack of a caller that names its subject unchanged |
| `Quota.PaceSlackIsTheTightest` | packages/budget/src/ledger.ts:495-571 | the binding slack is the least that any window says, as its last observed word or in a snapshot that counts; none exactly when no window says one |
| `Quota.SlackReads` | packages/budget/src/ledger.ts:531-545 | One step: the slack of an open window is what has elapsed of it minus what was used of it, in milliseconds, without a division |
| `Quota.IncompleteWindowsHaveNoSlack` | packages/budget/src/ledger.ts:531-545 | One step: a window without use, length or reset has no slack |
| `Quota.CoolsExactlyUntil` | packages/budget/src/ledger.ts:474-490 | One step: a window that applies cools until its cooldown or, used up, until its reset, whichever is later, and at no other time |
| `Quota.OneReasonCools` | packages/budget/src/ledger.ts:436-493 | One step: one live cooldown or one cooling window of a snapshot that counts is enough, and nothing else is |
| `Quota.WhoseObservationsCount` | packages/budget/src/ledger.ts:450-468 | One step: live evidence counts for its harness, request kind and model; for its subject and route unless the question or the stamp names none |
| `Quota.WhoseSnapshotsCount` | packages/budget/src/ledger.ts:573-591 | One step: snapshots count while fresh, for exactly the route asked about, and for their subject |
| `Quota.ModelsInScope` | packages/budget/src/quota-model-scope.ts:5-17 | which models a scope covers: all when it names none, else the listed ones, those under a listed prefix, and the vendor default where it says so |
| `Quota.SameWindow` | packages/budget/src/ledger.ts:523-526 | One step: two observations are of the same window exactly when route, subject and constraint agree |
| `Quota.SameSnapshot` | packages/schema/src/quota.ts:280-294 | One step: two snapshots are of one identity exactly when harness, route, subject and slot agree, a missing subject and an empty one being the same |
| `Router.OtherSubjectsNeverRerank` | packages/budget/src/router.ts:136-242 | and leave the whole ranking unchanged |
| `Router.ComparatorsAreConsistent` | packages/budget/src/router.ts:199-242 | One step: all three comparators are antisymmetric total preorders |
| `Router.EligibleIsKept` | packages/budget/src/router.ts:136-154 | the filter keeps exactly the ready candidates the paid-fallback policy allows |
| `Router.RankingIsSortedPool` | packages/budget/src/router.ts:215-242 | the ranking is the eligible pool, stably sorted, nothing lost |
| `Router.RankingPutsBestFirst` | packages/budget/src/router.ts:199-242 | earlier is never worse by what each goal means |
| `Router.RankingReason` | packages/budget/src/router.ts:306-347 | the published reason is the specification's; the adjacent walk collects its axes in a loop |
| `Router.AdjacentWalkSeesEveryAxis` | packages/budget/src/router.ts:306-330 | in a sorted pool the adjacent walk finds exactly the axes that separate any pair |
| `Router.AutoReasonIsTruthful` | packages/budget/src/router.ts:306-347 | under auto: slack named if and only if it separates a pair, tiers if and only if slack separates nobody and tiers somebody, declared order only for the declared order |
| `Router.EconomyReasonIsTruthful` | packages/budget/src/router.ts:283-347 | under economy: an axis is named only when all earlier axes tie across the pool and it separates somebody; unknown cash means unknown for all and the declared order |
| `Router.EntitlementFirstIsTruthfulWhen` | packages/budget/src/router.ts:331-341 | entitlement-first is truthful if and only if some paid candidate was ready |
| `Router.EntitlementFirstCanMislead` | packages/budget/src/router.ts:331-341 | a concrete pool where it is published though the only paid candidate was unavailable |
| `Router.RecordedSplitIsExactWhen` | packages/budget/src/router.ts:259-281 | the recorded split is exact if and only if no dropped candidate shares its harness id with a kept one |
| `Router.DistinctIdsRecordExactly` | packages/budget/src/router.ts:259-281 | distinct harness ids among the candidates are enough for the recorded split to be exact |
| `Router.TierIndex` | packages/budget/src/router.ts:88-101 | the first declared tier that lists the candidate's exact route |
| `Router.OrderingsSpelled` | packages/budget/src/router.ts:156-213 | One step: when each goal puts one candidate before another: by slack, and by tier only where neither has one; by tier; free before paid, then cheaper, then by tier |
| `Router.TracedAxisSpelled` | packages/budget/src/router.ts:156-197 | One step: the axis the auto ordering names is the one that separated the two |
| `Router.BillingOfACandidate` | packages/budget/src/router.ts:34-44 | One step: what a candidate costs: its own cost evidence, else its credential, else what is known of its billing, else unknown |
| `Router.ListedInATier` | packages/budget/src/router.ts:88-97 | One step: listed in a tier means harness, named model and effort, all three |
| `Router.WhoIsRanked` | packages/budget/src/router.ts:136-154 | every available candidate that is not cooling is ranked, unless it is paid and the policy is never to pay, or to pay only when no free candidate is ready |
| `Router.RefusedExactlyWhen` | packages/budget/src/router.ts:215-242 | ranking is refused exactly under quality when nothing it could rank is listed in a tier |
| `Router.EntitlementIsPublishedExactlyWhen` | packages/budget/src/router.ts:331-341 | One step: under economy entitlement is published exactly when a free candidate is ranked and a paid one was asked for |
| `StableSorting.StableSortSorts` | packages/budget/src/router.ts:215-242 | the sort is a sorted permutation that keeps ties in order |
| `StableSorting.StableSortIsUnique` | packages/budget/src/router.ts:215-242 | there is only one stable result, so any stable algorithm gives it |
| `Arbitration.Arbitrate` | packages/arbitration/src/arbitration.ts:304-544 | ranking, pairwise records, decisive axis, tie disclosure, scorecard and score axes, with one set of keys |
| `Arbitration.Scorecard` | packages/arbitration/src/arbitration.ts:470-474 | one card per ranked candidate, with the value of every axis |
| `Arbitration.TopOfRanking` | packages/arbitration/src/arbitration.ts:340-442 | the decisive axis and the tie of the top pair: a tie exactly when no axis decides, none with fewer than two candidates |
| `Arbitration.PairwiseExplainsTheRanking` | packages/arbitration/src/arbitration.ts:282-302 | for every i < j the record is all ties, or its first non-tie axis is won by the earlier candidate |
| `Arbitration.RankingIsTheStableOrder` | packages/arbitration/src/arbitration.ts:230-242 | the ranking is the only stable sorted permutation of the candidates |
| `Arbitration.DecisiveAxisMatchesTopPair` | packages/arbitration/src/arbitration.ts:214-228 | the decisive axis is the first non-tie axis of the top pair's record |
| `Arbitration.RankingOrderIsTotal` | packages/arbitration/src/arbitration.ts:230-242 | the order is a total preorder whose ties are the level candidates |
| `Arbitration.ValuesReadAsEvidence` | packages/arbitration/src/arbitration.ts:149-201 | each axis value orders candidates the way its evidence reads, shares by cross-multiplication |
| `Arbitration.CompareTuples` | packages/arbitration/src/arbitration.ts:230-238 | the loop compares lexicographically, missing entries as zero |
| `Arbitration.MissingIsZero` | packages/arbitration/src/arbitration.ts:230-238 | One step: appending a zero to a tuple makes no difference |
| `Arbitration.CompareCandidates` | packages/arbitration/src/arbitration.ts:240-242 | the comparison of score tuples is the ranking order |
| `Arbitration.DecisiveAxis` | packages/arbitration/src/arbitration.ts:214-228 | the loop returns the first differing axis, none exactly for level candidates |
| `Arbitration.ComparePair` | packages/arbitration/src/arbitration.ts:282-302 | one winner per axis of the registry |
| `Arbitration.AllPairs` | packages/arbitration/src/arbitration.ts:536-541 | every pair of positions is recorded, and nothing else |
| `Arbitration.RankingPrecedence` | packages/arbitration/src/arbitration.ts:149-201 | the precedence written out: required gates, acceptance coverage, blockers, tests, clean review, tool warnings, diff size, cost; the first that is not even decides |
| `Arbitration.OneMoreGate` | packages/arbitration/src/arbitration.ts:74-78 | one more gate matters exactly when it is required, and then it has to have passed |
| `WorkerPool.BoundedMap.TakeNext` | packages/cli/src/agy-quota-source.ts:258-270 | refines the take step on the shared result array: the worker stops, skips its index, or starts a probe |
| `WorkerPool.BoundedMap.Settle` | packages/cli/src/agy-quota-source.ts:270-276 | refines the finish step: the result lands at the worker's index, a rate limit latches |
| `WorkerPool.StepKeepsInv` | packages/cli/src/agy-quota-source.ts:251-278 | every step keeps: taken indices stored or probed, never both; the flag means a stored rate limit; skips only after it |
| `WorkerPool.WrittenOnce` | packages/cli/src/agy-quota-source.ts:251-278 | a stored result is final |
| `WorkerPool.BoundedConcurrency` | packages/cli/src/agy-quota-source.ts:251-278 | at most max(1, limit) probes are in flight |
| `WorkerPool.NoProbeAfterRateLimit` | packages/cli/src/agy-quota-source.ts:251-278 | once a rate limit is stored no probe starts and every later index is skipped |
| `WorkerPool.FinishedPool` | packages/cli/src/agy-quota-source.ts:251-278 | when all workers stop every candidate has a slot, the skipped ones a suffix, all probed if nothing was rate limited |
| `WorkerPool.EveryScheduleEnds` | packages/cli/src/agy-quota-source.ts:251-278 | no schedule is longer than two steps per candidate plus one per worker |
| `WorkerPool.NeverStuck` | packages/cli/src/agy-quota-source.ts:251-278 | One step: until a worker stops, one of its steps is enabled |
| `WorkerPool.SlotsHoldWhatWasProbed` | packages/cli/src/agy-quota-source.ts:270-276 | over every schedule a slot holds a result exactly when the probe of its index settled with that result |
| `WorkerPool.LimitIsUsedInFull` | packages/cli/src/agy-quota-source.ts:251-256 | some schedule has as many probes in flight as the smaller of limit and candidates |
| `AccountObservations.AcceptedValuesAreFresh` | packages/cli/src/account-observations.ts:26-105 | over every interleaving: a delivered acquisition, a retained probe and whatever a read joins began after the last invalidation of its key |
| `AccountObservations.NoStampRepeats` | packages/cli/src/account-observations.ts:35-50 | two moments carry the same stamp of a harness if and only if nothing invalidated it in between |
| `AccountObservations.StampsOnlyRise` | packages/cli/src/account-observations.ts:35-50 | stamps move strictly up with each invalidation |
| `AccountObservations.AcquiredAtMostOnce` | packages/cli/src/account-observations.ts:79-104 | without refresh, invalidation or profile change a key is acquired at most once, failures included, from any state |
| `AccountObservations.StepKeepsInv` | packages/cli/src/account-observations.ts:26-105 | every operation keeps the freshness of entries and the meaning of probe stamps |
| `AccountObservations.ReadsJoinOrStart` | packages/cli/src/account-observations.ts:79-104 | One step: a read joins what is cached unless it refreshes a settled entry, the profile changed or nothing is cached; then it starts an acquisition under a new pending entry |
| `AccountObservations.EndingSettles` | packages/cli/src/account-observations.ts:88-101 | One step: an acquisition that ends leaves its entry settled while it is cached, and changes nothing once it is gone or replaced |
| `AccountObservations.ReceiptsAreRetainedExactlyWhen` | packages/cli/src/account-observations.ts:57-77 | over every run a probe's receipt is retained exactly when its harness was not invalidated since it began, no acquisition of the profile is pending and the receipt matches |
| `AccountObservations.InvalidationsDropExactly` | packages/cli/src/account-observations.ts:35-55 | One step: each invalidation drops everything, one harness's entries, or everything but profiles, and nothing else |
| `AccountObservations.AccountObservations.InvalidateAll` | packages/cli/src/account-observations.ts:35-39 | clears entries and harness stamps, raises the generation |
| `AccountObservations.AccountObservations.InvalidateOne` | packages/cli/src/account-observations.ts:46-50 | raises the harness stamp and drops exactly its entries |
| `AccountObservations.AccountObservations.InvalidateAllCatalogs` | packages/cli/src/account-observations.ts:52-55 | drops exactly the non-profile entries |
| `AccountObservations.AccountObservations.DeleteWhere` | packages/cli/src/account-observations.ts:48-49 | the deletion loop drops exactly the matching keys |
| `AccountObservations.AccountObservations.StampFor` | packages/cli/src/account-observations.ts:41-43 | the stamp of a harness |
| `AccountObservations.AccountObservations.Retain` | packages/cli/src/account-observations.ts:57-77 | a late or shadowed receipt changes nothing; otherwise it becomes the settled entry |
| `AccountObservations.AccountObservations.Acquire` | packages/cli/src/account-observations.ts:79-104 | joins the entry there is or starts one acquisition under a new entry |
| `AccountObservations.AccountObservations.Settle` | packages/cli/src/account-observations.ts:92-101 | a value is delivered exactly while its entry is still the cached one |
| `OauthRejections.RejectionIsForgotten` | packages/cli/src/claude-oauth-usage.ts:66-92 | from the recording on: a rejection recorded at t, with k others recorded before it or at that instant, is gone after k+1 cycles that start at t + TTL or later, unless rejected again |
| `OauthRejections.EntryIsForgotten` | packages/cli/src/claude-oauth-usage.ts:84-92 | the same of any entry held at any moment, counting the entries recorded no later than it |
| `OauthRejections.ReleaseIsMinimal` | packages/cli/src/claude-oauth-usage.ts:84-92 | One step: a cycle releases at most one entry, the first of the oldest expired |
| `OauthRejections.ForgetFencesOlderCycles` | packages/cli/src/claude-oauth-usage.ts:76-82 | after a credential change nothing an older cycle reports is stored |
| `OauthRejections.RejectionIsKeptForSixHours` | packages/cli/src/claude-oauth-usage.ts:66-92 | a rejection is remembered through every cycle that begins within six hours of it, whatever else is remembered and forgotten meanwhile |
| `OauthRejections.AcceptingForgetsTheTokenAlone` | packages/cli/src/claude-oauth-usage.ts:468 | One step: an accepted token is forgotten and no other; a credential change forgets all |
| `OauthRejections.RejectionMemory.ReleaseExpiredRejection` | packages/cli/src/claude-oauth-usage.ts:84-92 | the loop finds and drops the oldest expired entry |
| `OauthRejections.RejectionMemory.ForgetClaudeOauthRejections` | packages/cli/src/claude-oauth-usage.ts:76-79 | empties the memory and raises the epoch |
| `OauthRejections.RejectionMemory.Remember` | packages/cli/src/claude-oauth-usage.ts:538-542 | a rejection is stored only in the epoch its cycle began in |
| `OauthRejections.RejectionMemory.NoteAccepted` | packages/cli/src/claude-oauth-usage.ts:468 | an accepted token is forgotten |
| `OauthRejections.OldestExpired` | packages/cli/src/claude-oauth-usage.ts:84-92 | the position the release loop computes |

## Left out

- The lease record's fields other than task, cost and state, and the callback after a settlement: they decide nothing in the ledger.
- A granted reservation returns the lease as it then is, not the live lease object.
- NaN, infinities and rounding: amounts are mathematical reals; a missing cost or slack is an explicit last or absent value, which is what the comparisons with infinity amount to.
- The usage tracker's kind of the latest amount, its sharing of a totals object with its caller, and the source and provenance texts of settlements; `unknownCostSettlement`.
- The tracker's flags are grouped into three records; each names the source's field.
- Evidence keys are assumed free of the separator the source joins them with.
- A quota snapshot's identity is harness, route, subject and one further slot; that it separates subjects is an assumption about the schema. Whether a quota window applies to a request kind is a field.
- Prompt-loop counts, averages, rendering and argument parsing: easy members.
- The lifecycle, check, review and apply parts of `arbitrate` and its texts: each falls to reading one branch. The scorecard carries axis values instead of their labels; which findings block is a count.
- `selectAgyCycleCandidates`, probe rejections (a probe is assumed to settle with a result) and the vendor payload parsers.
- In the worker pool a worker that skips after a rate limit may be interleaved with others between two skips; the source does not yield there, so it has fewer interleavings.
- The entries of the observation cache are numbered to stand for object identity; the config path in its keys is constant; observed values and their ages are not modelled.
- In the rejected-token memory the skip of a remembered token, foreground cycles and rejections without freshness proof.
- The migration's file formats, backups, display surfaces, receipts and logs; a corrupt phase file (the gate then refuses).
- A turn of a harness is one step: a run admitted before a rollback begins and ending after it is not modelled, nor are hand edits of the registry, removed profiles, quarantined partitions, lane homes that cannot be renamed, or projects whose threads cannot be listed.
- An unpinned turn runs as the migrated row once the record is completed and as the engine default without a record; how account bindings choose among several accounts is not modelled.
- Locators are compared after normalisation, so two spellings of one directory are equal strings here.
- Lane ids and lane directories are keyed by (harness, thread, profile or null); the source spells null as "default", so an adopted row with exactly that id would share its keys.
- Time: every write happens at a later instant than the one before; the update times of sessions and the contents and times of quota subjects are not compared.
- The writes of one phase may happen in any order here; the source has a fixed one.
- AccountsMigration.AccountsMigration.RunAccountsUnifiedMigration: the outcome itself is stated by AccountsMigration.TheStartupIsTheReference and MigrationConvergence.FinishedIsTheTarget, not by the method.
- MigrationTheorems.GateIsTransparent: compares with the engine that never migrates under `MigrationFreshness.Untouched` and `MigrationFreshness.Sound`; a run that adopts a row, clears a registered reservation or rolls back over a stale lane differs from that engine, as the exact conditions above say. What an open gate means in such runs is stated by MigrationGate.GateSafety.
- MigrationTheorems.RollbackRoundTrip: the same; over every run MigrationGate.DroppedRecordsLeaveNothing and MigrationGate.RollbackRestoresLanesExactlyWhen stand in its place.
- MigrationAgain.MigratesAgainToTheSame: the times of lane checkpoints are not compared, nor quota subjects.
