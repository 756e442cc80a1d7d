/** The stateful ledger: one shared financial state, updated in place through the root view
    and any number of task views.  Every method is proved to do exactly what `LedgerModel`
    says, and to touch nothing else. */
module Ledger {
  import opened Knowledge
  import opened LedgerModel
  import opened LedgerRuns

  /** `SharedFinancialState`: aliased by every view of one family. */
  class SharedFinancialState {
    const budget: PaidBudget
    const thresholds: Thresholds
    var leases: map<Id, Lease>
    var holds: map<Id, Hold>
    var unknownPaidInFlight: set<Id>
    var physicalDispatchStarted: set<Id>
    var totalsByTask: map<Id, Totals>
    var family: Totals
    var overshot: bool
    var unverifiable: bool

    constructor (budget: PaidBudget, thresholds: Thresholds)
      ensures Value() == NewFinancial(budget, thresholds)
    {
      this.budget, this.thresholds := budget, thresholds;
      leases, holds, totalsByTask := map[], map[], map[];
      unknownPaidInFlight, physicalDispatchStarted := {}, {};
      family := ZERO_TOTALS;
      overshot, unverifiable := false, false;
    }

    ghost function Value(): Financial
      reads this
    {
      Financial(budget, thresholds, leases, holds, unknownPaidInFlight, physicalDispatchStarted,
                totalsByTask, family, overshot, unverifiable)
    }
  }

  class BudgetLedger {
    const financial: SharedFinancialState
    const taskScope: Option<Id>
    var released: bool

    constructor Root(budget: PaidBudget, thresholds: Thresholds)
      ensures fresh(financial) && financial.Value() == NewFinancial(budget, thresholds)
      ensures AsView() == View(None, false)
    {
      financial := new SharedFinancialState(budget, thresholds);
      taskScope := None;
      released := false;
    }

    constructor Scoped(financial: SharedFinancialState, task: Id)
      ensures this.financial == financial && AsView() == View(Some(task), false)
    {
      this.financial := financial;
      taskScope := Some(task);
      released := false;
    }

    ghost function AsView(): View
      reads this
    {
      View(taskScope, released)
    }

    /** A view of the same finances for one task; an empty or all-whitespace id is refused. */
    method ScopedToTask(task: Id) returns (r: Outcome<BudgetLedger>)
      ensures r.Ok? <==> !Blank(task)
      ensures r.Ok? ==> fresh(r.value) && r.value.financial == financial
                        && r.value.AsView() == View(Some(task), false)
    {
      if Blank(task) { return Thrown(EmptyScope); }
      var view := new BudgetLedger.Scoped(financial, task);
      r := Ok(view);
    }

    method OutstandingHolds() returns (sum: real)
      ensures sum == HoldSum(financial.holds)
    {
      sum := 0.0;
      var rest := financial.holds;
      while rest != map[]
        invariant sum + HoldSum(rest) == HoldSum(financial.holds)
        decreases |rest|
      {
        var id :| id in rest;
        HoldSumRemove(rest, id);
        sum := sum + rest[id].Amount();
        rest := rest - {id};
      }
    }

    method CurrentTier() returns (tier: CircuitTier)
      ensures tier == Tier(financial.Value())
    {
      if financial.budget.Unlimited? { return TierOk; }
      if financial.overshot { return TierHard; }
      var holds := OutstandingHolds();
      if financial.budget.maxUsd == 0.0 {
        return if financial.family.cashUsd > 0.0 || holds > 0.0 then TierHard else TierOk;
      }
      var ratio := (financial.family.cashUsd + holds) / financial.budget.maxUsd;
      if ratio >= financial.thresholds.hard { return TierHard; }
      if ratio >= financial.thresholds.downgrade { return TierDowngrade; }
      if ratio >= financial.thresholds.soft { return TierSoft; }
      return TierOk;
    }

    method Remaining() returns (r: Option<real>)
      ensures r == RemainingUsd(financial.Value())
    {
      if financial.budget.Unlimited? { return None; }
      var holds := OutstandingHolds();
      r := Some(Max(0.0, financial.budget.maxUsd - financial.family.cashUsd - holds));
    }

    method DenialFor(cost: CostEvidence, own: Option<Id>, required: Option<real>)
      returns (r: Option<ReserveResult>)
      ensures r == ReservationDenial(financial.Value(), cost, own, required)
    {
      var paid := !cost.ZeroCash();
      if financial.budget == Finite(0.0) && paid { return Some(Denied(TierHard, FiniteZero)); }
      var tier := CurrentTier();
      if tier.TierHard? && paid { return Some(Denied(TierHard, HardCap)); }
      if financial.budget.Finite? && financial.budget.maxUsd > 0.0 && cost.UnknownPaid()
         && exists id :: id in financial.unknownPaidInFlight && own != Some(id)
      {
        return Some(Denied(tier, UnknownPaidInFlight));
      }
      var estimate := required.GetOr(cost.Estimate());
      var remaining := Remaining();
      if paid && estimate > 0.0 && remaining.Some?
         && estimate >= remaining.value
                        + (if own.Some? && own.value in financial.holds
                           then financial.holds[own.value].Amount() else 0.0)
      {
        return Some(Denied(tier, EstimateHeadroom));
      }
      return None;
    }

    /** Reserves before work.  `id` is the freshly minted lease id. */
    method ReserveLease(id: Id, task: Id, cost: CostEvidence) returns (r: Outcome<ReserveResult>)
      requires id !in financial.leases
      modifies financial
      ensures (financial.Value(), r) == Reserve(old(financial.Value()), AsView(), id, task, cost)
    {
      var error := ScopeError(View(taskScope, released), task);
      if error.Some? { return Thrown(error.value); }
      var denied := DenialFor(cost, None, None);
      if denied.Some? { return Ok(denied.value); }
      var lease := Lease(task, cost, Reserved);
      financial.leases := financial.leases[id := lease];
      if cost.Estimate() > 0.0 {
        financial.holds := financial.holds[id := Hold(cost.Estimate(), 0.0)];
      }
      if cost.UnknownPaid() && financial.budget.Finite? {
        financial.unknownPaidInFlight := financial.unknownPaidInFlight + {id};
      }
      assert old(financial.unknownPaidInFlight) + {} == old(financial.unknownPaidInFlight);
      var tier := CurrentTier();
      r := Ok(Granted(tier, lease));
    }

    method RepriceReservedLease(id: Id, cost: CostEvidence) returns (r: Outcome<ReserveResult>)
      modifies financial
      ensures (financial.Value(), r) == Reprice(old(financial.Value()), AsView(), id, cost)
    {
      if id !in financial.leases { return Thrown(UnknownLease); }
      var error := ScopeError(View(taskScope, released), financial.leases[id].task);
      if error.Some? { return Thrown(error.value); }
      if !financial.leases[id].state.Reserved? { return Thrown(ClosedLease); }
      var previous := if id in financial.holds then financial.holds[id] else Hold(0.0, 0.0);
      var required := Max(previous.reservedUsd, previous.observedUsd + cost.Estimate());
      var denied := DenialFor(cost, Some(id), Some(required));
      if denied.Some? { return Ok(denied.value); }
      var lease := financial.leases[id].(cost := cost);
      financial.leases := financial.leases[id := lease];
      if required > 0.0 {
        financial.holds := financial.holds[id := previous.(reservedUsd := required)];
      }
      if cost.UnknownPaid() && financial.budget.Finite? {
        financial.unknownPaidInFlight := financial.unknownPaidInFlight + {id};
      } else if cost.ZeroCash() && id !in financial.physicalDispatchStarted {
        financial.unknownPaidInFlight := financial.unknownPaidInFlight - {id};
      }
      var tier := CurrentTier();
      r := Ok(Granted(tier, lease));
    }

    method RaiseHold(id: Id, streamedCashUsd: real) returns (r: Outcome<()>)
      modifies financial
      ensures (financial.Value(), r) == UpdateHold(old(financial.Value()), AsView(), id, streamedCashUsd)
    {
      if id !in financial.leases { return Ok(()); }
      var error := ScopeError(View(taskScope, released), financial.leases[id].task);
      if error.Some? { return Thrown(error.value); }
      if !financial.leases[id].state.Reserved? { return Ok(()); }
      var current := if id in financial.holds then financial.holds[id] else Hold(0.0, 0.0);
      if streamedCashUsd > current.observedUsd {
        financial.holds := financial.holds[id := current.(observedUsd := streamedCashUsd)];
      }
      r := Ok(());
    }

    /** Deletes what is tracked beside a live lease. */
    method DropBookkeeping(id: Id)
      modifies financial
      ensures financial.Value() == Forget(old(financial.Value()), {id})
    {
      financial.holds := financial.holds - {id};
      financial.unknownPaidInFlight := financial.unknownPaidInFlight - {id};
      financial.physicalDispatchStarted := financial.physicalDispatchStarted - {id};
    }

    method SettleLease(id: Id, settlement: Settlement) returns (r: Outcome<()>)
      modifies financial
      ensures (financial.Value(), r) == Settle(old(financial.Value()), AsView(), id, settlement)
    {
      if id !in financial.leases { return Thrown(UnknownLease); }
      var lease := financial.leases[id];
      var error := ScopeError(View(taskScope, released), lease.task);
      if error.Some? { return Thrown(error.value); }
      if !lease.state.Reserved? { return Ok(()); }
      var entry := ContributionOf(id, settlement);
      financial.leases := financial.leases[id := lease.(state := Settled)];
      DropBookkeeping(id);
      RecordSharedSettlement(entry);
      r := Ok(());
    }

    /** What the settlement of a live lease contributes.  Component evidence from the actual
        usage outranks the billing the lease was reserved under. */
    method ContributionOf(id: Id, settlement: Settlement) returns (entry: Entry)
      requires id in financial.leases
      ensures entry == EntryOf(financial.Value(), id, settlement)
    {
      var lease := financial.leases[id];
      var previousPaidUnresolved := id in financial.unknownPaidInFlight;
      var reservedZeroCash := !previousPaidUnresolved && lease.cost.ZeroCash();
      var settledCashComponent := settlement.cashKnowledge.Some? && settlement.cashUsd.Some?;
      var zeroCash := reservedZeroCash && !settledCashComponent;
      var cashUsd := if zeroCash then 0.0 else Max(0.0, settlement.cashUsd.GetOr(0.0));
      var valuationUsd :=
        Max(0.0, settlement.valuationUsd.GetOr(if zeroCash then settlement.cashUsd.GetOr(0.0) else 0.0));
      var cashKnowledge := if zeroCash then Exact else settlement.cashKnowledge.GetOr(settlement.knowledge);
      var valuationReported := settlement.valuationUsd.Some? || settlement.valuationKnowledge.Some?
                               || (zeroCash && settlement.cashUsd.Some?);
      entry := Entry(id, lease.task, cashUsd, valuationUsd,
                     ReportedCashKnowledge(cashKnowledge, settlement.allowanceDebitUnobserved),
                     if valuationReported then Some(settlement.valuationKnowledge.GetOr(settlement.knowledge))
                     else None,
                     cashKnowledge);
    }

    /** Adds one settlement to its task's totals and to the family's, and sets the latches. */
    method RecordSharedSettlement(entry: Entry)
      modifies financial
      ensures financial.Value() == RecordEntry(old(financial.Value()), entry)
    {
      var task := if entry.task in financial.totalsByTask then financial.totalsByTask[entry.task] else ZERO_TOTALS;
      financial.family := Record(financial.family, entry);
      financial.totalsByTask := financial.totalsByTask[entry.task := Record(task, entry)];
      if financial.budget.Finite? {
        if entry.controllable == Unknown { financial.unverifiable := true; }
        if financial.family.cashUsd > financial.budget.maxUsd { financial.overshot := true; }
      }
    }

    method CancelLease(id: Id) returns (r: Outcome<()>)
      modifies financial
      ensures (financial.Value(), r) == Cancel(old(financial.Value()), AsView(), id)
    {
      if id in financial.leases {
        var lease := financial.leases[id];
        var error := ScopeError(View(taskScope, released), lease.task);
        if error.Some? { return Thrown(error.value); }
        if lease.state.Reserved? {
          financial.leases := financial.leases[id := lease.(state := Cancelled)];
        }
      }
      DropBookkeeping(id);
      assert financial.leases == CancelAll(old(financial.Value()), {id}).leases;
      r := Ok(());
    }

    method MarkDispatchStarted(id: Id)
      modifies financial
      ensures financial.Value() == MarkPhysicalDispatchStarted(old(financial.Value()), id)
    {
      if id in financial.leases && !financial.leases[id].cost.ZeroCash() {
        financial.physicalDispatchStarted := financial.physicalDispatchStarted + {id};
      }
    }

    /** Cancels every lease this task still holds and seals the view. */
    method Release()
      modifies this, financial
      ensures (financial.Value(), AsView()) == ReleaseTask(old(financial.Value()), old(AsView()))
    {
      if taskScope.None? || released { return; }
      var task := taskScope.value;
      var todo := financial.leases.Keys;
      ghost var before := financial.Value();
      ghost var own := ReservedOf(before, task);
      ReleaseStart(before, own);
      while todo != {}
        invariant todo <= before.leases.Keys
        invariant financial.Value() == CancelAll(before, own - todo)
        invariant !released
        decreases |todo|
      {
        var id :| id in todo;
        ReleaseStep(before, task, todo, id);
        if financial.leases[id].task == task && financial.leases[id].state.Reserved? {
          var _ := CancelLease(id);
        }
        todo := todo - {id};
      }
      assert own - todo == own;
      released := true;
    }

    method Terminate() returns (t: Terminal)
      ensures t == TerminalOf(financial.Value())
    {
      if financial.overshot { return BudgetOvershoot; }
      if financial.unverifiable { return CostUnverifiable; }
      var tier := CurrentTier();
      t := if tier.TierHard? then BudgetExhausted else Running;
    }

    /** Cash spent so far: the family's for the root, the task's own for a task view. */
    method Spend() returns (usd: real)
      ensures usd == if taskScope.None? then financial.family.cashUsd
                     else TaskTotals(financial.Value(), taskScope.value).cashUsd
    {
      if taskScope.None? { return financial.family.cashUsd; }
      usd := if taskScope.value in financial.totalsByTask
             then financial.totalsByTask[taskScope.value].cashUsd else 0.0;
    }
  }

  lemma ReleaseStart(f: Financial, own: set<Id>)
    requires own <= f.leases.Keys
    ensures CancelAll(f, own - f.leases.Keys) == f
  {
    assert own - f.leases.Keys == {};
  }

  lemma CancelOneMore(f: Financial, ids: set<Id>, id: Id)
    ensures CancelAll(CancelAll(f, ids), {id}) == CancelAll(f, ids + {id})
  {
    var f1, f2 := CancelAll(CancelAll(f, ids), {id}), CancelAll(f, ids + {id});
    assert f1.leases == f2.leases;
    assert f1.holds == f2.holds;
  }

  /** One turn of the release loop: a visited lease is still as it was before the loop, and
      cancelling it extends the cancelled set by exactly it. */
  lemma ReleaseStep(f: Financial, task: Id, todo: set<Id>, id: Id)
    requires id in todo && todo <= f.leases.Keys
    ensures var own := ReservedOf(f, task);
            && CancelAll(f, own - todo).leases[id] == f.leases[id]
            && CancelAll(f, own - (todo - {id}))
               == (if id in own then CancelAll(CancelAll(f, own - todo), {id}) else CancelAll(f, own - todo))
  {
    var own := ReservedOf(f, task);
    CancelOneMore(f, own - todo, id);
    if id in own { assert own - (todo - {id}) == own - todo + {id}; }
    else { assert own - (todo - {id}) == own - todo; }
  }
}
