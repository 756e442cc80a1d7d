/** Runs of the ledger: any interleaving of operations through the root view and any number
    of task views.  Proves what every operation keeps, the exposure bound, the single unknown
    debt, the latches, and the life cycle of a lease. */
module LedgerRuns {
  import opened Knowledge
  import opened LedgerModel

  datatype Op =
    | OpenView(task: Id)
    | DoReserve(view: nat, id: Id, task: Id, cost: CostEvidence)
    | DoReprice(view: nat, id: Id, cost: CostEvidence)
    | DoUpdateHold(view: nat, id: Id, streamedCashUsd: real)
    | DoSettle(view: nat, id: Id, settlement: Settlement)
    | DoCancel(view: nat, id: Id)
    | DoMark(id: Id)
    | DoRelease(view: nat)

  /** The shared finances and every view handed out so far; view 0 is the root. */
  datatype Family = Family(f: Financial, views: seq<View>)

  function NewFamily(budget: PaidBudget, thresholds: Thresholds): Family {
    Family(NewFinancial(budget, thresholds), [View(None, false)])
  }

  /** An operation somebody can issue: the view exists, and a new lease gets a fresh id. */
  predicate Issuable(s: Family, op: Op) {
    match op
    case OpenView(task) => !Blank(task)
    case DoReserve(v, id, _, _) => v < |s.views| && id !in s.f.leases
    case DoMark(_) => true
    case _ => op.view < |s.views|
  }

  ghost function Step(s: Family, op: Op): Family {
    if !Issuable(s, op) then s
    else match op
      case OpenView(task) => s.(views := s.views + [View(Some(task), false)])
      case DoReserve(v, id, task, cost) => s.(f := Reserve(s.f, s.views[v], id, task, cost).0)
      case DoReprice(v, id, cost) => s.(f := Reprice(s.f, s.views[v], id, cost).0)
      case DoUpdateHold(v, id, usd) => s.(f := UpdateHold(s.f, s.views[v], id, usd).0)
      case DoSettle(v, id, settlement) => s.(f := Settle(s.f, s.views[v], id, settlement).0)
      case DoCancel(v, id) => s.(f := Cancel(s.f, s.views[v], id).0)
      case DoMark(id) => s.(f := MarkPhysicalDispatchStarted(s.f, id))
      case DoRelease(v) =>
        var (f, view) := ReleaseTask(s.f, s.views[v]);
        Family(f, s.views[v := view])
  }

  ghost function Run(s: Family, ops: seq<Op>): Family
    decreases |ops|
  {
    if ops == [] then s else Run(Step(s, ops[0]), ops[1..])
  }

  // ---------------------------------------------------------------- sums of holds

  lemma HoldSumRemove(holds: map<Id, Hold>, k: Id)
    requires k in holds
    ensures HoldSum(holds) == holds[k].Amount() + HoldSum(holds - {k})
    decreases |holds|
  {
    var j :| j in holds && HoldSum(holds) == holds[j].Amount() + HoldSum(holds - {j});
    if j != k {
      HoldSumRemove(holds - {j}, k);
      HoldSumRemove(holds - {k}, j);
      assert holds - {j} - {k} == holds - {k} - {j};
    }
  }

  lemma HoldSumSet(holds: map<Id, Hold>, k: Id, h: Hold)
    ensures HoldSum(holds[k := h])
         == HoldSum(holds) - (if k in holds then holds[k].Amount() else 0.0) + h.Amount()
  {
    HoldSumRemove(holds[k := h], k);
    assert holds[k := h] - {k} == holds - {k};
    if k in holds { HoldSumRemove(holds, k); } else { assert holds - {k} == holds; }
  }

  ghost predicate NonNegativeHolds(holds: map<Id, Hold>) {
    forall id :: id in holds ==> 0.0 <= holds[id].reservedUsd && 0.0 <= holds[id].observedUsd
  }

  lemma {:induction false} HoldSumNonNegative(holds: map<Id, Hold>)
    requires NonNegativeHolds(holds)
    ensures 0.0 <= HoldSum(holds)
    decreases |holds|
  {
    if holds != map[] {
      var k :| k in holds;
      HoldSumRemove(holds, k);
      HoldSumNonNegative(holds - {k});
    }
  }

  /** Dropping holds never raises the sum. */
  lemma {:induction false} HoldSumMonotone(holds: map<Id, Hold>, ids: set<Id>)
    requires NonNegativeHolds(holds)
    ensures 0.0 <= HoldSum(holds - ids) <= HoldSum(holds)
    decreases |ids|
  {
    HoldSumNonNegative(holds - ids);
    if ids == {} {
      assert holds - ids == holds;
    } else {
      var k :| k in ids;
      HoldSumMonotone(holds - {k}, ids - {k});
      assert holds - {k} - (ids - {k}) == holds - ids;
      if k in holds { HoldSumRemove(holds, k); } else { assert holds - {k} == holds; }
    }
  }

  // ---------------------------------------------------------------- what every operation keeps

  ghost predicate IsReserved(f: Financial, id: Id) {
    id in f.leases && f.leases[id].state.Reserved?
  }

  /** Holds and unknown debt belong to live leases, and there is one unknown debt at most. */
  ghost predicate DebtsAreLive(f: Financial) {
    && (forall id :: id in f.holds ==> IsReserved(f, id))
    && (forall id :: id in f.unknownPaidInFlight ==> IsReserved(f, id))
    && (forall a, b :: a in f.unknownPaidInFlight && b in f.unknownPaidInFlight ==> a == b)
    && (f.unknownPaidInFlight != {} ==> f.budget.Finite? && f.budget.maxUsd > 0.0)
  }

  ghost predicate SaneTotals(t: Totals) {
    && 0.0 <= t.cashUsd && 0.0 <= t.valuationUsd
    && t.cashEstimated == (t.cash.Some? && !t.cash.value.Exact?)
    && AtMost(t.controllable, t.cash)
    && (t.cash.None? <==> t.controllable.None?)
  }

  /** The latches say exactly what the totals say. */
  ghost predicate LatchesExact(f: Financial) {
    && (f.overshot <==> f.budget.Finite? && f.family.cashUsd > f.budget.maxUsd)
    && (f.unverifiable <==> f.budget.Finite? && f.family.controllable == Some(Unknown))
  }

  ghost predicate Inv(f: Financial) {
    && NonNegativeHolds(f.holds)
    && DebtsAreLive(f)
    && SaneTotals(f.family)
    && (forall t :: t in f.totalsByTask ==> SaneTotals(f.totalsByTask[t]))
    && LatchesExact(f)
  }

  lemma RecordKeepsSane(t: Totals, e: Entry)
    requires SaneTotals(t) && 0.0 <= e.cashUsd && 0.0 <= e.valuationUsd
    requires AtMost(Some(e.controllable), Some(e.reported))
    ensures SaneTotals(Record(t, e))
  {
  }

  lemma SettleKeepsInv(f: Financial, v: View, id: Id, s: Settlement)
    requires Inv(f)
    ensures Inv(Settle(f, v, id, s).0)
  {
    var g := Settle(f, v, id, s).0;
    if g != f {
      var e := EntryOf(f, id, s);
      RecordKeepsSane(f.family, e);
      RecordKeepsSane(TaskTotals(f, e.task), e);
    }
  }

  lemma RepriceKeepsInv(f: Financial, v: View, id: Id, cost: CostEvidence)
    requires Inv(f)
    ensures Inv(Reprice(f, v, id, cost).0)
  {
  }

  lemma CancelKeepsInv(f: Financial, ids: set<Id>)
    requires Inv(f)
    ensures Inv(CancelAll(f, ids))
  {
  }

  lemma ReserveKeepsInv(f: Financial, v: View, id: Id, task: Id, cost: CostEvidence)
    requires Inv(f) && id !in f.leases
    ensures Inv(Reserve(f, v, id, task, cost).0)
  {
  }

  /** Every operation through every view keeps the ledger invariant. */
  lemma StepKeepsInv(s: Family, op: Op)
    requires Inv(s.f)
    ensures Inv(Step(s, op).f)
  {
    if !Issuable(s, op) { return; }
    match op
    case DoReserve(v, id, task, cost) => ReserveKeepsInv(s.f, s.views[v], id, task, cost);
    case DoReprice(v, id, cost) => RepriceKeepsInv(s.f, s.views[v], id, cost);
    case DoSettle(v, id, settlement) => SettleKeepsInv(s.f, s.views[v], id, settlement);
    case DoCancel(v, id) => CancelKeepsInv(s.f, {id});
    case DoRelease(v) =>
      if s.views[v].taskScope.Some? { CancelKeepsInv(s.f, ReservedOf(s.f, s.views[v].taskScope.value)); }
    case _ =>
  }

  lemma {:induction false} RunKeepsInv(s: Family, ops: seq<Op>)
    requires Inv(s.f)
    ensures Inv(Run(s, ops).f)
    decreases |ops|
  {
    if ops != [] {
      StepKeepsInv(s, ops[0]);
      RunKeepsInv(Step(s, ops[0]), ops[1..]);
    }
  }

  /** In every state a fresh family can reach, the invariant holds. */
  lemma ReachableInv(budget: PaidBudget, thresholds: Thresholds, ops: seq<Op>)
    ensures Inv(Run(NewFamily(budget, thresholds), ops).f)
    ensures Run(NewFamily(budget, thresholds), ops).f.budget == budget
  {
    RunKeepsInv(NewFamily(budget, thresholds), ops);
    RunKeepsBudget(NewFamily(budget, thresholds), ops);
  }

  lemma {:induction false} RunKeepsBudget(s: Family, ops: seq<Op>)
    ensures Run(s, ops).f.budget == s.f.budget && Run(s, ops).f.thresholds == s.f.thresholds
    decreases |ops|
  {
    if ops != [] { RunKeepsBudget(Step(s, ops[0]), ops[1..]); }
  }

  // ---------------------------------------------------------------- the exposure bound

  /** Money an operation brings in beyond what was held for it: streamed cash above the
      current hold, and settled cash above the lease's hold.  Nothing else is overrun. */
  ghost function Overrun(s: Family, op: Op): real {
    if !Issuable(s, op) then 0.0
    else match op
      case DoUpdateHold(v, id, usd) =>
        if Step(s, op) == s then 0.0 else Max(0.0, usd - HoldOf(s.f, id).Amount())
      case DoSettle(v, id, settlement) =>
        if Step(s, op) == s then 0.0
        else Max(0.0, EntryOf(s.f, id, settlement).cashUsd - HoldOf(s.f, id).Amount())
      case _ => 0.0
  }

  ghost function TotalOverrun(s: Family, ops: seq<Op>): real
    decreases |ops|
  {
    if ops == [] then 0.0 else Overrun(s, ops[0]) + TotalOverrun(Step(s, ops[0]), ops[1..])
  }

  ghost predicate Covered(f: Financial, overrun: real) {
    f.budget.Finite? ==>
      && Exposure(f) <= f.budget.maxUsd + overrun
      && (f.budget.maxUsd > 0.0 ==> Exposure(f) < f.budget.maxUsd + overrun)
  }

  lemma ReserveLeavesHeadroom(f: Financial, v: View, id: Id, task: Id, cost: CostEvidence)
    requires Inv(f) && f.budget.Finite? && !cost.ZeroCash() && id !in f.leases && cost.Estimate() > 0.0
    ensures var (g, r) := Reserve(f, v, id, task, cost);
            r.Ok? && r.value.Granted? ==> Exposure(g) == Exposure(f) + cost.Estimate() < f.budget.maxUsd
  {
    HoldSumSet(f.holds, id, Hold(cost.Estimate(), 0.0));
  }

  lemma RepriceLeavesHeadroom(f: Financial, v: View, id: Id, cost: CostEvidence)
    requires Inv(f) && f.budget.Finite? && !cost.ZeroCash() && RequiredHold(f, id, cost) > 0.0
    ensures var (g, r) := Reprice(f, v, id, cost);
            r.Ok? && r.value.Granted? ==> Exposure(f) <= Exposure(g) < f.budget.maxUsd
  {
    HoldSumSet(f.holds, id, HoldOf(f, id).(reservedUsd := RequiredHold(f, id, cost)));
  }

  /** A granted reservation or reprice that puts paid money on hold leaves the exposure
      strictly below the cap, whatever the thresholds are: the clamp in the remaining
      headroom never lets anything through. */
  lemma GrantLeavesHeadroom(f: Financial, v: View, id: Id, task: Id, cost: CostEvidence)
    requires Inv(f) && f.budget.Finite? && !cost.ZeroCash()
    ensures id !in f.leases && cost.Estimate() > 0.0 ==>
      var (g, r) := Reserve(f, v, id, task, cost);
      r.Ok? && r.value.Granted? ==> Exposure(g) == Exposure(f) + cost.Estimate() < f.budget.maxUsd
    ensures RequiredHold(f, id, cost) > 0.0 ==>
      var (g, r) := Reprice(f, v, id, cost);
      r.Ok? && r.value.Granted? ==> Exposure(f) <= Exposure(g) < f.budget.maxUsd
  {
    if id !in f.leases && cost.Estimate() > 0.0 { ReserveLeavesHeadroom(f, v, id, task, cost); }
    if RequiredHold(f, id, cost) > 0.0 { RepriceLeavesHeadroom(f, v, id, cost); }
  }

  lemma RepriceStaysCovered(f: Financial, v: View, id: Id, cost: CostEvidence, overrun: real)
    requires Inv(f) && Covered(f, overrun) && 0.0 <= overrun
    ensures Covered(Reprice(f, v, id, cost).0, overrun)
  {
    HoldSumSet(f.holds, id, HoldOf(f, id).(reservedUsd := RequiredHold(f, id, cost)));
    if f.budget.Finite? && !cost.ZeroCash() { if RequiredHold(f, id, cost) > 0.0 { RepriceLeavesHeadroom(f, v, id, cost); } }
  }

  lemma SettleStaysCovered(f: Financial, v: View, id: Id, settlement: Settlement, overrun: real)
    requires Inv(f) && Covered(f, overrun) && LeaseError(f, v, id).None?
    ensures Covered(Settle(f, v, id, settlement).0,
                    overrun + Max(0.0, EntryOf(f, id, settlement).cashUsd - HoldOf(f, id).Amount()))
  {
    if id in f.holds { HoldSumRemove(f.holds, id); } else { assert f.holds - {id} == f.holds; }
  }

  lemma CancelStaysCovered(f: Financial, ids: set<Id>, overrun: real)
    requires Inv(f) && Covered(f, overrun)
    ensures Covered(CancelAll(f, ids), overrun)
  {
    HoldSumMonotone(f.holds, ids);
  }

  lemma ReserveStaysCovered(f: Financial, v: View, id: Id, task: Id, cost: CostEvidence, overrun: real)
    requires Inv(f) && Covered(f, overrun) && 0.0 <= overrun && id !in f.leases
    ensures Covered(Reserve(f, v, id, task, cost).0, overrun)
  {
    if f.budget.Finite? && !cost.ZeroCash() && cost.Estimate() > 0.0 { ReserveLeavesHeadroom(f, v, id, task, cost); }
  }

  lemma UpdateHoldStaysCovered(f: Financial, v: View, id: Id, usd: real, overrun: real)
    requires Inv(f) && Covered(f, overrun)
    ensures var g := UpdateHold(f, v, id, usd).0;
            Covered(g, overrun + if g == f then 0.0 else Max(0.0, usd - HoldOf(f, id).Amount()))
  {
    HoldSumSet(f.holds, id, HoldOf(f, id).(observedUsd := usd));
  }

  lemma StepStaysCovered(s: Family, op: Op, overrun: real)
    requires Inv(s.f) && Covered(s.f, overrun) && 0.0 <= overrun
    ensures 0.0 <= Overrun(s, op)
    ensures Covered(Step(s, op).f, overrun + Overrun(s, op))
  {
    var f := s.f;
    if !Issuable(s, op) { return; }
    match op
    case DoReserve(v, id, task, cost) => ReserveStaysCovered(f, s.views[v], id, task, cost, overrun);
    case DoReprice(v, id, cost) => RepriceStaysCovered(f, s.views[v], id, cost, overrun);
    case DoUpdateHold(v, id, usd) => UpdateHoldStaysCovered(f, s.views[v], id, usd, overrun);
    case DoSettle(v, id, settlement) =>
      if LeaseError(f, s.views[v], id).None? { SettleStaysCovered(f, s.views[v], id, settlement, overrun); }
    case DoCancel(v, id) => CancelStaysCovered(f, {id}, overrun);
    case DoRelease(v) =>
      if s.views[v].taskScope.Some? { CancelStaysCovered(f, ReservedOf(f, s.views[v].taskScope.value), overrun); }
    case _ =>
  }

  lemma {:induction false} RunStaysCovered(s: Family, ops: seq<Op>, overrun: real)
    requires Inv(s.f) && Covered(s.f, overrun) && 0.0 <= overrun
    ensures Covered(Run(s, ops).f, overrun + TotalOverrun(s, ops))
    decreases |ops|
  {
    if ops != [] {
      StepKeepsInv(s, ops[0]);
      StepStaysCovered(s, ops[0], overrun);
      RunStaysCovered(Step(s, ops[0]), ops[1..], overrun + Overrun(s, ops[0]));
    }
  }

  /** The exposure bound over every run: settled cash plus outstanding holds stays below the
      cap plus the run's overruns, so a run without overruns never overshoots. */
  lemma ExposureBound(cap: Usd, thresholds: Thresholds, ops: seq<Op>)
    ensures var start := NewFamily(Finite(cap), thresholds);
            var f := Run(start, ops).f;
            && Exposure(f) <= cap + TotalOverrun(start, ops)
            && (cap > 0.0 ==> Exposure(f) < cap + TotalOverrun(start, ops))
            && (TotalOverrun(start, ops) == 0.0 ==> !f.overshot)
  {
    var start := NewFamily(Finite(cap), thresholds);
    RunStaysCovered(start, ops, 0.0);
    ReachableInv(Finite(cap), thresholds, ops);
    HoldSumMonotone(Run(start, ops).f.holds, {});
    assert Run(start, ops).f.holds - {} == Run(start, ops).f.holds;
  }

  // ---------------------------------------------------------------- the single unknown debt

  /** The lease was physically sent while its cost was an unknown paid debt. */
  ghost predicate Owed(f: Financial, id: Id) {
    id in f.unknownPaidInFlight && id in f.physicalDispatchStarted && IsReserved(f, id)
  }

  ghost predicate Closed(f: Financial, id: Id) {
    id in f.leases && !f.leases[id].state.Reserved?
  }

  lemma ClosedStep(s: Family, op: Op, id: Id)
    requires Closed(s.f, id)
    ensures id in Step(s, op).f.leases && Step(s, op).f.leases[id] == s.f.leases[id]
  {
  }

  /** A closed lease never changes again. */
  lemma {:induction false} ClosedForever(s: Family, ops: seq<Op>, id: Id)
    requires Closed(s.f, id)
    ensures id in Run(s, ops).f.leases && Run(s, ops).f.leases[id] == s.f.leases[id]
    decreases |ops|
  {
    if ops != [] {
      ClosedStep(s, ops[0], id);
      ClosedForever(Step(s, ops[0]), ops[1..], id);
    }
  }

  lemma DebtStep(s: Family, op: Op, id: Id)
    requires Owed(s.f, id)
    ensures Owed(Step(s, op).f, id) || Closed(Step(s, op).f, id)
  {
  }

  /** Once an unknown debt has physically started, no sequence of operations clears it short
      of closing the lease; in particular no sequence of reprices does. */
  lemma {:induction false} DebtSurvives(s: Family, ops: seq<Op>, id: Id)
    requires Owed(s.f, id)
    ensures Owed(Run(s, ops).f, id) || Closed(Run(s, ops).f, id)
    decreases |ops|
  {
    if ops != [] {
      DebtStep(s, ops[0], id);
      if Closed(Step(s, ops[0]).f, id) { ClosedForever(Step(s, ops[0]), ops[1..], id); }
      else { DebtSurvives(Step(s, ops[0]), ops[1..], id); }
    }
  }

  /** Only settling it, cancelling it, or releasing its task closes a lease. */
  lemma OnlyClosingCloses(s: Family, op: Op, id: Id)
    requires IsReserved(s.f, id) && Closed(Step(s, op).f, id)
    ensures || (op.DoSettle? && op.id == id)
            || (op.DoCancel? && op.id == id)
            || (op.DoRelease? && op.view < |s.views| && s.views[op.view].taskScope == Some(s.f.leases[id].task))
  {
  }

  /** Settling a debt that survived any run charges its cash in full, whatever billing the
      lease was last priced under. */
  lemma DebtIsCharged(s: Family, ops: seq<Op>, id: Id, v: View, settlement: Settlement)
    requires Owed(s.f, id) && !Closed(Run(s, ops).f, id)
    requires LeaseError(Run(s, ops).f, v, id).None?
    ensures var f := Run(s, ops).f;
            Settle(f, v, id, settlement).0.family.cashUsd
              == f.family.cashUsd + Max(0.0, settlement.cashUsd.GetOr(0.0))
  {
    DebtSurvives(s, ops, id);
  }

  // ---------------------------------------------------------------- latches

  /** Overshoot is never left, and an unverifiable ledger only ever becomes an overshot one. */
  lemma TerminalIsSticky(s: Family, ops: seq<Op>)
    requires Inv(s.f)
    ensures TerminalOf(s.f).BudgetOvershoot? ==> TerminalOf(Run(s, ops).f).BudgetOvershoot?
    ensures TerminalOf(s.f).CostUnverifiable? ==>
              TerminalOf(Run(s, ops).f).CostUnverifiable? || TerminalOf(Run(s, ops).f).BudgetOvershoot?
  {
    LatchesMonotone(s, ops);
  }

  lemma LatchStep(s: Family, op: Op)
    ensures s.f.overshot ==> Step(s, op).f.overshot
    ensures s.f.unverifiable ==> Step(s, op).f.unverifiable
  {
  }

  lemma {:induction false} LatchesMonotone(s: Family, ops: seq<Op>)
    ensures s.f.overshot ==> Run(s, ops).f.overshot
    ensures s.f.unverifiable ==> Run(s, ops).f.unverifiable
    decreases |ops|
  {
    if ops != [] {
      LatchStep(s, ops[0]);
      LatchesMonotone(Step(s, ops[0]), ops[1..]);
    }
  }

  // ---------------------------------------------------------------- released views

  ghost predicate SameBooks(f: Financial, g: Financial) {
    f == g.(physicalDispatchStarted := f.physicalDispatchStarted)
  }

  /** Through a released view nothing can be reserved, repriced, held, settled or cancelled. */
  lemma ReleasedViewIsInert(s: Family, op: Op, v: nat)
    requires Inv(s.f) && v < |s.views| && s.views[v].released
    requires !op.OpenView? && !op.DoMark? && op.view == v
    ensures SameBooks(Step(s, op).f, s.f) && Step(s, op).views == s.views
  {
    if op.DoCancel? && op.id !in s.f.leases {
      var f := s.f;
      assert op.id !in f.holds && op.id !in f.unknownPaidInFlight;
      var g := Step(s, op).f;
      assert g.leases == f.leases;
      assert g.holds == f.holds;
    }
  }

  /** A view stays released for ever. */
  lemma {:induction false} ReleasedForever(s: Family, ops: seq<Op>, v: nat)
    requires v < |s.views| && s.views[v].released
    ensures v < |Run(s, ops).views| && Run(s, ops).views[v] == s.views[v]
    decreases |ops|
  {
    if ops != [] { ReleasedForever(Step(s, ops[0]), ops[1..], v); }
  }

  /** Releasing a task view cancels exactly that task's reserved leases, drops exactly their
      holds and debts, moves no money, and seals the view. */
  lemma ReleaseIsExact(s: Family, v: nat)
    requires Inv(s.f) && v < |s.views| && s.views[v].taskScope.Some? && !s.views[v].released
    ensures var t := Step(s, DoRelease(v));
            var task := s.views[v].taskScope.value;
            && t.views == s.views[v := View(Some(task), true)]
            && t.f.leases.Keys == s.f.leases.Keys
            && (forall id :: id in s.f.leases ==>
                  t.f.leases[id] == (if s.f.leases[id].task == task && s.f.leases[id].state.Reserved?
                                     then s.f.leases[id].(state := Cancelled) else s.f.leases[id]))
            && (forall id :: id in t.f.holds <==> id in s.f.holds && s.f.leases[id].task != task)
            && (forall id :: id in t.f.holds ==> t.f.holds[id] == s.f.holds[id])
            && (forall id :: id in t.f.unknownPaidInFlight <==>
                  id in s.f.unknownPaidInFlight && s.f.leases[id].task != task)
            && t.f.family == s.f.family && t.f.totalsByTask == s.f.totalsByTask
  {
  }

  // ---------------------------------------------------------------- admission, stated without the clamp

  /** When a reservation is granted: zero-cash work and unlimited budgets always; otherwise
      on a positive cap, below the hard tier, with no other unknown debt in flight, and with the
      estimate fitting strictly under the cap beside everything already spent or held. */
  lemma ReserveGrantedExactlyWhen(f: Financial, v: View, id: Id, task: Id, cost: CostEvidence)
    requires Inv(f) && ScopeError(v, task).None?
    ensures var r := Reserve(f, v, id, task, cost).1;
            r.Ok? && (r.value.Granted? <==>
              || cost.ZeroCash()
              || f.budget.Unlimited?
              || (&& f.budget.maxUsd > 0.0
                  && !Tier(f).TierHard?
                  && (cost.UnknownPaid() ==> f.unknownPaidInFlight == {})
                  && (cost.Estimate() > 0.0 ==> Exposure(f) + cost.Estimate() < f.budget.maxUsd)))
  {
    if f.unknownPaidInFlight != {} {
      var d :| d in f.unknownPaidInFlight;
      assert None != Some(d);
    }
  }

  /** The same for a reprice of a live lease, whose own hold is exchanged for the new one. */
  lemma RepriceGrantedExactlyWhen(f: Financial, v: View, id: Id, cost: CostEvidence)
    requires Inv(f) && LeaseError(f, v, id).None? && IsReserved(f, id)
    ensures var r := Reprice(f, v, id, cost).1;
            var required := RequiredHold(f, id, cost);
            r.Ok? && (r.value.Granted? <==>
              || cost.ZeroCash()
              || f.budget.Unlimited?
              || (&& f.budget.maxUsd > 0.0
                  && !Tier(f).TierHard?
                  && (cost.UnknownPaid() ==> f.unknownPaidInFlight <= {id})
                  && (required > 0.0 ==>
                        Exposure(f) - HoldOf(f, id).Amount() + required < f.budget.maxUsd)))
  {
    assert (exists d :: d in f.unknownPaidInFlight && Some(id) != Some(d)) <==> !(f.unknownPaidInFlight <= {id});
  }

  /** With a hard threshold of at most one, leaving the hard tier means room under the cap. */
  lemma BelowHardIsBelowCap(f: Financial)
    requires f.budget.Finite? && f.budget.maxUsd > 0.0 && f.thresholds.hard <= 1.0 && !Tier(f).TierHard?
    ensures Exposure(f) < f.budget.maxUsd
  {
    assert Exposure(f) == (Exposure(f) / f.budget.maxUsd) * f.budget.maxUsd;
  }

  // ---------------------------------------------------------------- holds of a live lease

  /** A granted reprice keeps every streamed dollar and holds the new estimate on top of it. */
  lemma RepriceHoldsStreamedPlusEstimate(f: Financial, v: View, id: Id, cost: CostEvidence)
    requires Inv(f) && Reprice(f, v, id, cost).1.Ok? && Reprice(f, v, id, cost).1.value.Granted?
    ensures var h := HoldOf(Reprice(f, v, id, cost).0, id);
            && h.observedUsd == HoldOf(f, id).observedUsd
            && h.observedUsd + cost.Estimate() <= h.Amount()
            && HoldOf(f, id).Amount() <= h.Amount()
            && (h.Amount() == HoldOf(f, id).Amount() || h.Amount() == h.observedUsd + cost.Estimate())
  {
  }

  lemma HoldStep(s: Family, op: Op, id: Id)
    requires Inv(s.f) && IsReserved(s.f, id)
    ensures || Closed(Step(s, op).f, id)
            || (&& IsReserved(Step(s, op).f, id)
                && HoldOf(s.f, id).Amount() <= HoldOf(Step(s, op).f, id).Amount()
                && HoldOf(s.f, id).observedUsd <= HoldOf(Step(s, op).f, id).observedUsd)
  {
    if op.DoReprice? && op.id == id && op.view < |s.views| {
      var r := Reprice(s.f, s.views[op.view], id, op.cost).1;
      if r.Ok? && r.value.Granted? { RepriceHoldsStreamedPlusEstimate(s.f, s.views[op.view], id, op.cost); }
    }
  }

  /** While a lease is live, no sequence of operations lowers what is held for it. */
  lemma {:induction false} HoldNeverShrinks(s: Family, ops: seq<Op>, id: Id)
    requires Inv(s.f) && IsReserved(s.f, id) && !Closed(Run(s, ops).f, id)
    ensures HoldOf(s.f, id).Amount() <= HoldOf(Run(s, ops).f, id).Amount()
    ensures HoldOf(s.f, id).observedUsd <= HoldOf(Run(s, ops).f, id).observedUsd
    decreases |ops|
  {
    if ops != [] {
      HoldStep(s, ops[0], id);
      StepKeepsInv(s, ops[0]);
      if Closed(Step(s, ops[0]).f, id) {
        ClosedForever(Step(s, ops[0]), ops[1..], id);
      } else {
        HoldNeverShrinks(Step(s, ops[0]), ops[1..], id);
      }
    }
  }
}
