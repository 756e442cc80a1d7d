/** The budget authority as a function on values: what each ledger operation makes of
    the shared financial state.  `Ledger.dfy` proves the stateful ledger against these
    functions; the theorems about whole runs are in `LedgerRuns.dfy` and `LedgerTotals.dfy`. */
module LedgerModel {
  import opened Knowledge

  type Id = string

  /** The schema only admits non-negative estimates and caps. */
  type Usd = r: real | 0.0 <= r witness 0.0

  datatype Billing = ProvenZero | SubscriptionEntitlement | Metered | UnknownBilling

  datatype CostEvidence = CostEvidence(knowledge: CostKnowledge, billing: Billing, estimatedUsd: Option<Usd>) {
    predicate ZeroCash() { billing.ProvenZero? || billing.SubscriptionEntitlement? }
    predicate UnknownPaid() { !ZeroCash() && knowledge.Unknown? }
    function Estimate(): Usd { if ZeroCash() then 0.0 else estimatedUsd.GetOr(0.0) }
  }

  datatype LeaseState = Reserved | Settled | Cancelled

  datatype Lease = Lease(task: Id, cost: CostEvidence, state: LeaseState)

  datatype Hold = Hold(reservedUsd: real, observedUsd: real) {
    function Amount(): real { Max(reservedUsd, observedUsd) }
  }

  datatype PaidBudget = Unlimited | Finite(maxUsd: Usd)

  datatype Thresholds = Thresholds(soft: real, downgrade: real, hard: real)

  datatype Totals = Totals(
    cashUsd: real,
    valuationUsd: real,
    cashEstimated: bool,
    cash: Option<CostKnowledge>,
    controllable: Option<CostKnowledge>,
    valuation: Option<CostKnowledge>)

  const ZERO_TOTALS := Totals(0.0, 0.0, false, None, None, None)

  /** The family's finances, shared by the root view and every task view. */
  datatype Financial = Financial(
    budget: PaidBudget,
    thresholds: Thresholds,
    leases: map<Id, Lease>,
    holds: map<Id, Hold>,
    unknownPaidInFlight: set<Id>,
    physicalDispatchStarted: set<Id>,
    totalsByTask: map<Id, Totals>,
    family: Totals,
    overshot: bool,
    unverifiable: bool)

  datatype Settlement = Settlement(
    knowledge: CostKnowledge,
    cashKnowledge: Option<CostKnowledge>,
    valuationKnowledge: Option<CostKnowledge>,
    allowanceDebitUnobserved: bool,
    cashUsd: Option<real>,
    valuationUsd: Option<real>)

  datatype CircuitTier = TierOk | TierSoft | TierDowngrade | TierHard

  datatype Denial = HardCap | EstimateHeadroom | FiniteZero | UnknownPaidInFlight

  datatype ReserveResult = Granted(tier: CircuitTier, lease: Lease) | Denied(tier: CircuitTier, why: Denial)

  datatype Terminal = Running | BudgetExhausted | BudgetOvershoot | CostUnverifiable

  datatype LedgerError = ScopeReleased | ScopeViolation | UnknownLease | ClosedLease | EmptyScope

  datatype Outcome<+T> = Ok(value: T) | Thrown(error: LedgerError)

  /** A ledger view: the root sees every task; a scoped view acts for one task until released. */
  datatype View = View(taskScope: Option<Id>, released: bool)

  /** The characters the source's trimming removes. */
  predicate IsSpace(c: char) {
    var n := c as int;
    0x09 <= n <= 0x0D || n == 0x20 || n == 0xA0 || n == 0x1680 || 0x2000 <= n <= 0x200A || n == 0x2028 || n == 0x2029
    || n == 0x202F || n == 0x205F || n == 0x3000 || n == 0xFEFF
  }

  predicate Blank(s: string) {
    forall i :: 0 <= i < |s| ==> IsSpace(s[i])
  }

  function NewFinancial(budget: PaidBudget, thresholds: Thresholds): Financial {
    Financial(budget, thresholds, map[], map[], {}, {}, map[], ZERO_TOTALS, false, false)
  }

  /** Sum of the outstanding holds. */
  ghost function HoldSum(holds: map<Id, Hold>): real
    decreases |holds|
  {
    if holds == map[] then 0.0
    else
      var k :| k in holds;
      holds[k].Amount() + HoldSum(holds - {k})
  }

  /** Everything the cap has to cover: settled cash plus outstanding holds. */
  ghost function Exposure(f: Financial): real {
    f.family.cashUsd + HoldSum(f.holds)
  }

  ghost function Tier(f: Financial): CircuitTier {
    if f.budget.Unlimited? then TierOk
    else if f.overshot then TierHard
    else if f.budget.maxUsd == 0.0 then
      if f.family.cashUsd > 0.0 || HoldSum(f.holds) > 0.0 then TierHard else TierOk
    else
      var ratio := Exposure(f) / f.budget.maxUsd;
      if ratio >= f.thresholds.hard then TierHard
      else if ratio >= f.thresholds.downgrade then TierDowngrade
      else if ratio >= f.thresholds.soft then TierSoft
      else TierOk
  }

  ghost function RemainingUsd(f: Financial): Option<real> {
    if f.budget.Unlimited? then None
    else Some(Max(0.0, f.budget.maxUsd - f.family.cashUsd - HoldSum(f.holds)))
  }

  ghost function TerminalOf(f: Financial): Terminal {
    if f.overshot then BudgetOvershoot
    else if f.unverifiable then CostUnverifiable
    else if Tier(f).TierHard? then BudgetExhausted
    else Running
  }

  function HoldOf(f: Financial, id: Id): Hold {
    if id in f.holds then f.holds[id] else Hold(0.0, 0.0)
  }

  /** The admission rule.  `own` names the lease being repriced, `required` its new hold. */
  ghost function ReservationDenial(f: Financial, cost: CostEvidence, own: Option<Id>, required: Option<real>)
    : Option<ReserveResult>
  {
    if f.budget == Finite(0.0) && !cost.ZeroCash() then Some(Denied(TierHard, FiniteZero))
    else if Tier(f).TierHard? && !cost.ZeroCash() then Some(Denied(TierHard, HardCap))
    else if f.budget.Finite? && f.budget.maxUsd > 0.0 && cost.UnknownPaid()
            && exists id :: id in f.unknownPaidInFlight && own != Some(id)
    then Some(Denied(Tier(f), UnknownPaidInFlight))
    else
      var estimate := required.GetOr(cost.Estimate());
      if !cost.ZeroCash() && estimate > 0.0 && f.budget.Finite?
         && estimate >= RemainingUsd(f).value
                        + (if own.Some? && own.value in f.holds then f.holds[own.value].Amount() else 0.0)
      then Some(Denied(Tier(f), EstimateHeadroom))
      else None
  }

  function ScopeError(v: View, task: Id): Option<LedgerError> {
    if v.released then Some(ScopeReleased)
    else if v.taskScope.Some? && v.taskScope.value != task then Some(ScopeViolation)
    else None
  }

  /** Why a view may not mutate a lease, if it may not. */
  function LeaseError(f: Financial, v: View, id: Id): Option<LedgerError> {
    if id !in f.leases then Some(UnknownLease) else ScopeError(v, f.leases[id].task)
  }

  ghost function Reserve(f: Financial, v: View, id: Id, task: Id, cost: CostEvidence)
    : (Financial, Outcome<ReserveResult>)
  {
    var error := ScopeError(v, task);
    if error.Some? then (f, Thrown(error.value))
    else
      var denied := ReservationDenial(f, cost, None, None);
      if denied.Some? then (f, Ok(denied.value))
      else
        var lease := Lease(task, cost, Reserved);
        var g := f.(
          leases := f.leases[id := lease],
          holds := if cost.Estimate() > 0.0 then f.holds[id := Hold(cost.Estimate(), 0.0)] else f.holds,
          unknownPaidInFlight := f.unknownPaidInFlight + if cost.UnknownPaid() && f.budget.Finite? then {id} else {});
        (g, Ok(Granted(Tier(g), lease)))
  }

  function RequiredHold(f: Financial, id: Id, cost: CostEvidence): real {
    Max(HoldOf(f, id).reservedUsd, HoldOf(f, id).observedUsd + cost.Estimate())
  }

  ghost function Reprice(f: Financial, v: View, id: Id, cost: CostEvidence)
    : (Financial, Outcome<ReserveResult>)
  {
    var error := LeaseError(f, v, id);
    if error.Some? then (f, Thrown(error.value))
    else if !f.leases[id].state.Reserved? then (f, Thrown(ClosedLease))
    else
      var required := RequiredHold(f, id, cost);
      var denied := ReservationDenial(f, cost, Some(id), Some(required));
      if denied.Some? then (f, Ok(denied.value))
      else
        var lease := f.leases[id].(cost := cost);
        var g := f.(
          leases := f.leases[id := lease],
          holds := if required > 0.0 then f.holds[id := HoldOf(f, id).(reservedUsd := required)] else f.holds,
          unknownPaidInFlight :=
            if cost.UnknownPaid() && f.budget.Finite? then f.unknownPaidInFlight + {id}
            else if cost.ZeroCash() && id !in f.physicalDispatchStarted then f.unknownPaidInFlight - {id}
            else f.unknownPaidInFlight);
        (g, Ok(Granted(Tier(g), lease)))
  }

  function UpdateHold(f: Financial, v: View, id: Id, streamedCashUsd: real): (Financial, Outcome<()>) {
    if id !in f.leases then (f, Ok(()))
    else
      var error := ScopeError(v, f.leases[id].task);
      if error.Some? then (f, Thrown(error.value))
      else if !f.leases[id].state.Reserved? then (f, Ok(()))
      else if streamedCashUsd > HoldOf(f, id).observedUsd then
        (f.(holds := f.holds[id := HoldOf(f, id).(observedUsd := streamedCashUsd)]), Ok(()))
      else (f, Ok(()))
  }

  /** What one settlement adds to its task and to the family. */
  datatype Entry = Entry(
    lease: Id,
    task: Id,
    cashUsd: real,
    valuationUsd: real,
    reported: CostKnowledge,
    valuation: Option<CostKnowledge>,
    controllable: CostKnowledge)

  /** Reported cash certainty: controllable knowledge, unless an included route reported no debit. */
  function ReportedCashKnowledge(controllable: CostKnowledge, allowanceDebitUnobserved: bool): CostKnowledge {
    if allowanceDebitUnobserved then Unknown else controllable
  }

  function EntryOf(f: Financial, id: Id, s: Settlement): Entry
    requires id in f.leases
  {
    var lease := f.leases[id];
    var zeroCash := id !in f.unknownPaidInFlight && lease.cost.ZeroCash()
                    && !(s.cashKnowledge.Some? && s.cashUsd.Some?);
    var controllable := if zeroCash then Exact else s.cashKnowledge.GetOr(s.knowledge);
    var valuationReported := s.valuationUsd.Some? || s.valuationKnowledge.Some? || (zeroCash && s.cashUsd.Some?);
    Entry(id, lease.task,
          if zeroCash then 0.0 else Max(0.0, s.cashUsd.GetOr(0.0)),
          Max(0.0, s.valuationUsd.GetOr(if zeroCash then s.cashUsd.GetOr(0.0) else 0.0)),
          ReportedCashKnowledge(controllable, s.allowanceDebitUnobserved),
          if valuationReported then Some(s.valuationKnowledge.GetOr(s.knowledge)) else None,
          controllable)
  }

  /** One settlement recorded in one set of totals. */
  function Record(t: Totals, e: Entry): Totals {
    var cash := MergeKnowledge(t.cash, e.reported);
    Totals(t.cashUsd + e.cashUsd, t.valuationUsd + e.valuationUsd, !cash.Exact?, Some(cash),
           Some(MergeKnowledge(t.controllable, e.controllable)),
           if e.valuation.Some? then Some(MergeKnowledge(t.valuation, e.valuation.value)) else t.valuation)
  }

  function TaskTotals(f: Financial, task: Id): Totals {
    if task in f.totalsByTask then f.totalsByTask[task] else ZERO_TOTALS
  }

  /** Drops the bookkeeping of closed leases. */
  function Forget(f: Financial, ids: set<Id>): Financial {
    f.(holds := f.holds - ids,
       unknownPaidInFlight := f.unknownPaidInFlight - ids,
       physicalDispatchStarted := f.physicalDispatchStarted - ids)
  }

  function RecordEntry(f: Financial, e: Entry): Financial {
    var family := Record(f.family, e);
    f.(family := family,
       totalsByTask := f.totalsByTask[e.task := Record(TaskTotals(f, e.task), e)],
       unverifiable := f.unverifiable || (f.budget.Finite? && e.controllable.Unknown?),
       overshot := f.overshot || (f.budget.Finite? && family.cashUsd > f.budget.maxUsd))
  }

  function Settle(f: Financial, v: View, id: Id, s: Settlement): (Financial, Outcome<()>) {
    var error := LeaseError(f, v, id);
    if error.Some? then (f, Thrown(error.value))
    else if !f.leases[id].state.Reserved? then (f, Ok(()))
    else
      var g := Forget(f.(leases := f.leases[id := f.leases[id].(state := Settled)]), {id});
      (RecordEntry(g, EntryOf(f, id, s)), Ok(()))
  }

  /** Closes every listed reserved lease without a settlement. */
  function CancelAll(f: Financial, ids: set<Id>): Financial {
    Forget(f.(leases := map id | id in f.leases ::
                          if id in ids && f.leases[id].state.Reserved? then f.leases[id].(state := Cancelled)
                          else f.leases[id]),
           ids)
  }

  function Cancel(f: Financial, v: View, id: Id): (Financial, Outcome<()>) {
    if id in f.leases && ScopeError(v, f.leases[id].task).Some?
    then (f, Thrown(ScopeError(v, f.leases[id].task).value))
    else (CancelAll(f, {id}), Ok(()))
  }

  /** The lease was handed to a paid physical send; checks neither state nor scope. */
  function MarkPhysicalDispatchStarted(f: Financial, id: Id): Financial {
    if id in f.leases && !f.leases[id].cost.ZeroCash()
    then f.(physicalDispatchStarted := f.physicalDispatchStarted + {id})
    else f
  }

  function ReservedOf(f: Financial, task: Id): set<Id> {
    set id | id in f.leases && f.leases[id].task == task && f.leases[id].state.Reserved?
  }

  /** Release of a task view: cancels what the task still holds, then seals the view. */
  function ReleaseTask(f: Financial, v: View): (Financial, View) {
    if v.taskScope.None? || v.released then (f, v)
    else (CancelAll(f, ReservedOf(f, v.taskScope.value)), v.(released := true))
  }
}
