/** What the ledger admits, holds and owes, read off the evidence of a cost and the history of a
    run: nothing here is stated through the ledger's own classification of costs. */
module LedgerAdmission {
  import opened Knowledge
  import opened LedgerModel
  import opened LedgerRuns

  // ---------------------------------------------------------------- costs, read off their fields

  /** Work that takes no cash. */
  predicate Free(c: CostEvidence) {
    match c.billing
    case ProvenZero => true
    case SubscriptionEntitlement => true
    case Metered => false
    case UnknownBilling => false
  }

  /** Work that takes cash nobody can name. */
  predicate Unpriced(c: CostEvidence) {
    match c.billing
    case ProvenZero => false
    case SubscriptionEntitlement => false
    case Metered => c.knowledge.Unknown?
    case UnknownBilling => c.knowledge.Unknown?
  }

  /** What a cost puts on hold. */
  function Quoted(c: CostEvidence): real {
    if Free(c) || c.estimatedUsd.None? then 0.0 else c.estimatedUsd.value
  }

  // ---------------------------------------------------------------- the single unknown debt

  /** On a finite budget every live lease of unpriced work is on record as a debt. */
  ghost predicate DebtsAreRecorded(f: Financial) {
    f.budget.Finite? ==> forall id :: IsReserved(f, id) && Unpriced(f.leases[id].cost) ==> id in f.unknownPaidInFlight
  }

  /** Free work owes nothing, unless it was sent while it was paid for. */
  ghost predicate FreeWorkOwesNothing(f: Financial) {
    forall id :: id in f.unknownPaidInFlight ==> id in f.leases && (Free(f.leases[id].cost) ==> id in f.physicalDispatchStarted)
  }

  lemma StepKeepsDebts(s: Family, op: Op)
    requires DebtsAreRecorded(s.f) && FreeWorkOwesNothing(s.f)
    ensures DebtsAreRecorded(Step(s, op).f) && FreeWorkOwesNothing(Step(s, op).f)
  {
    match op
    case OpenView(_) =>
    case DoReserve(_, _, _, _) =>
    case DoReprice(_, _, _) =>
    case DoUpdateHold(_, _, _) =>
    case DoSettle(_, _, _) =>
    case DoCancel(_, _) =>
    case DoMark(_) =>
    case DoRelease(_) =>
  }

  lemma {:induction false} RunKeepsDebts(s: Family, ops: seq<Op>)
    requires DebtsAreRecorded(s.f) && FreeWorkOwesNothing(s.f)
    ensures DebtsAreRecorded(Run(s, ops).f) && FreeWorkOwesNothing(Run(s, ops).f)
    decreases |ops|
  {
    if ops != [] {
      StepKeepsDebts(s, ops[0]);
      RunKeepsDebts(Step(s, ops[0]), ops[1..]);
    }
  }

  /** In every state a family on a finite budget can reach, at most one live lease in the whole
      family is unpriced, and it is on record. */
  lemma OneUnpricedLease(cap: Usd, thresholds: Thresholds, ops: seq<Op>)
    ensures var f := Run(NewFamily(Finite(cap), thresholds), ops).f;
            && (forall a, b :: IsReserved(f, a) && IsReserved(f, b) && Unpriced(f.leases[a].cost) && Unpriced(f.leases[b].cost) ==> a == b)
            && (forall a :: IsReserved(f, a) && Unpriced(f.leases[a].cost) ==> f.unknownPaidInFlight == {a})
  {
    var f := Run(NewFamily(Finite(cap), thresholds), ops).f;
    RunKeepsDebts(NewFamily(Finite(cap), thresholds), ops);
    ReachableInv(Finite(cap), thresholds, ops);
    forall a | IsReserved(f, a) && Unpriced(f.leases[a].cost) ensures f.unknownPaidInFlight == {a} {
      assert a in f.unknownPaidInFlight;
      assert forall d :: d in f.unknownPaidInFlight ==> d == a;
    }
  }

  /** The view may act for the task. */
  predicate Allowed(v: View, task: Id) {
    !v.released && (v.taskScope == None || v.taskScope == Some(task))
  }

  /** While an unpriced lease is live a second one is denied, by reservation or by reprice, unless
      an earlier reason denies it anyway. */
  lemma SecondUnpricedIsDenied(cap: Usd, thresholds: Thresholds, ops: seq<Op>, first: Id, v: View, id: Id, task: Id, cost: CostEvidence)
    requires var f := Run(NewFamily(Finite(cap), thresholds), ops).f;
             IsReserved(f, first) && Unpriced(f.leases[first].cost) && Tier(f) != TierHard
    requires Unpriced(cost) && id != first
    ensures var f := Run(NewFamily(Finite(cap), thresholds), ops).f;
            var denied := Ok(Denied(Tier(f), UnknownPaidInFlight));
            && (Allowed(v, task) ==> Reserve(f, v, id, task, cost) == (f, denied))
            && (IsReserved(f, id) && Allowed(v, f.leases[id].task) ==> Reprice(f, v, id, cost) == (f, denied))
  {
    var f := Run(NewFamily(Finite(cap), thresholds), ops).f;
    OneUnpricedLease(cap, thresholds, ops);
    ReachableInv(Finite(cap), thresholds, ops);
    assert first in f.unknownPaidInFlight && Some(id) != Some(first);
  }

  // ---------------------------------------------------------------- what was physically sent

  ghost predicate StartedAreLeases(f: Financial) {
    forall id :: id in f.physicalDispatchStarted ==> id in f.leases
  }

  /** The operation hands a lease to a physical send while it is not free work. */
  ghost predicate Sends(s: Family, op: Op, id: Id) {
    op == DoMark(id) && id in s.f.leases && !Free(s.f.leases[id].cost)
  }

  ghost predicate SentDuring(s: Family, ops: seq<Op>, id: Id)
    decreases |ops|
  {
    ops != [] && (Sends(s, ops[0], id) || SentDuring(Step(s, ops[0]), ops[1..], id))
  }

  lemma StepSends(s: Family, op: Op, id: Id)
    requires StartedAreLeases(s.f)
    ensures StartedAreLeases(Step(s, op).f)
    ensures IsReserved(Step(s, op).f, id) ==>
              (id in Step(s, op).f.physicalDispatchStarted <==> id in s.f.physicalDispatchStarted || Sends(s, op, id))
    ensures Closed(s.f, id) ==> Closed(Step(s, op).f, id)
  {
    match op
    case OpenView(_) =>
    case DoReserve(_, _, _, _) =>
    case DoReprice(_, _, _) =>
    case DoUpdateHold(_, _, _) =>
    case DoSettle(_, _, _) =>
    case DoCancel(_, _) =>
    case DoMark(_) =>
    case DoRelease(_) =>
  }

  lemma StepLosesNoLease(s: Family, op: Op, id: Id)
    requires id in s.f.leases
    ensures id in Step(s, op).f.leases
  {
  }

  lemma {:induction false} RunSends(s: Family, ops: seq<Op>, id: Id)
    requires StartedAreLeases(s.f) && IsReserved(Run(s, ops).f, id)
    ensures id in Run(s, ops).f.physicalDispatchStarted <==> id in s.f.physicalDispatchStarted || SentDuring(s, ops, id)
    decreases |ops|
  {
    if ops != [] {
      var next := Step(s, ops[0]);
      StepSends(s, ops[0], id);
      RunSends(next, ops[1..], id);
      if Closed(next.f, id) { ClosedForever(next, ops[1..], id); }
      if id in s.f.leases { StepLosesNoLease(s, ops[0], id); }
    }
  }

  /** A live lease counts as sent exactly when it was handed to a send, at some point of the run,
      while it was not free work. */
  lemma SentMeansSent(budget: PaidBudget, thresholds: Thresholds, ops: seq<Op>, id: Id)
    requires IsReserved(Run(NewFamily(budget, thresholds), ops).f, id)
    ensures id in Run(NewFamily(budget, thresholds), ops).f.physicalDispatchStarted <==> SentDuring(NewFamily(budget, thresholds), ops, id)
  {
    RunSends(NewFamily(budget, thresholds), ops, id);
  }

  ghost predicate NeverRepriced(ops: seq<Op>, id: Id) {
    forall i :: 0 <= i < |ops| ==> !(ops[i].DoReprice? && ops[i].id == id)
  }

  lemma UnpricedStays(s: Family, op: Op, id: Id)
    requires IsReserved(s.f, id) && Unpriced(s.f.leases[id].cost) && !(op.DoReprice? && op.id == id)
    ensures Closed(Step(s, op).f, id) || (IsReserved(Step(s, op).f, id) && Step(s, op).f.leases[id] == s.f.leases[id])
  {
  }

  lemma {:induction false} UnpricedUntilClosed(s: Family, ops: seq<Op>, id: Id)
    requires IsReserved(s.f, id) && Unpriced(s.f.leases[id].cost) && NeverRepriced(ops, id)
    ensures Closed(Run(s, ops).f, id) || (IsReserved(Run(s, ops).f, id) && Run(s, ops).f.leases[id] == s.f.leases[id])
    decreases |ops|
  {
    if ops != [] {
      var next := Step(s, ops[0]);
      UnpricedStays(s, ops[0], id);
      if Closed(next.f, id) {
        ClosedForever(next, ops[1..], id);
      } else {
        forall i | 0 <= i < |ops[1..]| ensures !(ops[1..][i].DoReprice? && ops[1..][i].id == id) { assert ops[1..][i] == ops[i + 1]; }
        UnpricedUntilClosed(next, ops[1..], id);
      }
    }
  }

  /** From the reservation: unpriced work that is granted on a finite budget and then sent stays a
      debt through any operations, reprices included, until its lease closes. */
  lemma SentDebtSurvives(cap: Usd, thresholds: Thresholds, start: seq<Op>, v: nat, id: Id, task: Id, cost: CostEvidence,
                         between: seq<Op>, after: seq<Op>)
    requires var s := Run(NewFamily(Finite(cap), thresholds), start);
             && Issuable(s, DoReserve(v, id, task, cost))
             && var r := Reserve(s.f, s.views[v], id, task, cost).1; r.Ok? && r.value.Granted?
    requires Unpriced(cost) && NeverRepriced(between, id)
    ensures var s := Run(NewFamily(Finite(cap), thresholds), start);
            var sent := Step(Run(Step(s, DoReserve(v, id, task, cost)), between), DoMark(id));
            var f := Run(sent, after).f;
            Closed(f, id) || (IsReserved(f, id) && id in f.unknownPaidInFlight)
  {
    var s := Run(NewFamily(Finite(cap), thresholds), start);
    ReachableInv(Finite(cap), thresholds, start);
    RunKeepsDebts(NewFamily(Finite(cap), thresholds), start);
    SentDebtSurvivesFrom(s, v, id, task, cost, between, after);
  }

  lemma SentDebtSurvivesFrom(s: Family, v: nat, id: Id, task: Id, cost: CostEvidence, between: seq<Op>, after: seq<Op>)
    requires s.f.budget.Finite? && DebtsAreRecorded(s.f) && FreeWorkOwesNothing(s.f)
    requires Issuable(s, DoReserve(v, id, task, cost)) && Unpriced(cost) && NeverRepriced(between, id)
    requires var r := Reserve(s.f, s.views[v], id, task, cost).1; r.Ok? && r.value.Granted?
    ensures var sent := Step(Run(Step(s, DoReserve(v, id, task, cost)), between), DoMark(id));
            var f := Run(sent, after).f;
            Closed(f, id) || Owed(f, id)
  {
    var reserved := Step(s, DoReserve(v, id, task, cost));
    var later := Run(reserved, between);
    StepKeepsDebts(s, DoReserve(v, id, task, cost));
    RunKeepsDebts(reserved, between);
    RunKeepsBudget(reserved, between);
    UnpricedUntilClosed(reserved, between, id);
    var sent := Step(later, DoMark(id));
    if Closed(later.f, id) {
      ClosedForever(sent, after, id);
    } else {
      assert Owed(sent.f, id);
      DebtSurvives(sent, after, id);
    }
  }

  /** A reprice to free work clears a debt exactly when the lease was not sent. */
  lemma FreeRepriceClearsUnsentDebt(f: Financial, v: View, id: Id, cost: CostEvidence)
    requires IsReserved(f, id) && Allowed(v, f.leases[id].task) && Free(cost)
    ensures var (g, r) := Reprice(f, v, id, cost);
            && r.Ok? && r.value.Granted?
            && g.unknownPaidInFlight == if id in f.physicalDispatchStarted then f.unknownPaidInFlight else f.unknownPaidInFlight - {id}
  {
  }

  // ---------------------------------------------------------------- tiers

  /** The tiers of a positive cap, in dollars: at or above a threshold's share of the cap. */
  lemma TiersInDollars(f: Financial)
    requires f.budget.Finite? && f.budget.maxUsd > 0.0 && !f.overshot
    ensures var cap, t := f.budget.maxUsd, f.thresholds;
            var hard, down, soft := Exposure(f) >= t.hard * cap, Exposure(f) >= t.downgrade * cap, Exposure(f) >= t.soft * cap;
            && (Tier(f) == TierHard <==> hard)
            && (Tier(f) == TierDowngrade <==> !hard && down)
            && (Tier(f) == TierSoft <==> !hard && !down && soft)
            && (Tier(f) == TierOk <==> !hard && !down && !soft)
  {
    ShareAtLeast(Exposure(f), f.budget.maxUsd, f.thresholds.hard);
    ShareAtLeast(Exposure(f), f.budget.maxUsd, f.thresholds.downgrade);
    ShareAtLeast(Exposure(f), f.budget.maxUsd, f.thresholds.soft);
  }

  lemma ShareAtLeast(x: real, cap: real, share: real)
    requires cap > 0.0
    ensures x / cap >= share <==> x >= share * cap
  {
    assert x == (x / cap) * cap;
    if x / cap >= share { assert (x / cap - share) * cap >= 0.0; } else { assert (share - x / cap) * cap > 0.0; }
  }

  /** The edges: no cap never stops, an overshot one always does, and a zero cap stops at the
      first cent. */
  lemma TiersAtTheEdges(f: Financial)
    requires Inv(f)
    ensures f.budget == Unlimited ==> Tier(f) == TierOk && RemainingUsd(f) == None
    ensures f.budget.Finite? && f.family.cashUsd > f.budget.maxUsd ==> Tier(f) == TierHard
    ensures f.budget == Finite(0.0) ==> Tier(f) == if Exposure(f) > 0.0 then TierHard else TierOk
    ensures f.budget.Finite? ==> RemainingUsd(f) == Some(if Exposure(f) < f.budget.maxUsd then f.budget.maxUsd - Exposure(f) else 0.0)
  {
    HoldSumNonNegative(f.holds);
  }

  /** How a budget ends: overshot once cash is over the cap, else unverifiable once controllable
      cash is unknown, else exhausted when the tier is hard; without a cap it never does. */
  lemma TerminalMeans(f: Financial)
    requires Inv(f)
    ensures f.budget == Unlimited ==> TerminalOf(f) == Running
    ensures f.budget.Finite? ==>
              TerminalOf(f) == if f.family.cashUsd > f.budget.maxUsd then BudgetOvershoot
                               else if f.family.controllable == Some(Unknown) then CostUnverifiable
                               else if Tier(f) == TierHard then BudgetExhausted
                               else Running
  {
  }

  // ---------------------------------------------------------------- reservations

  /** Free work is admitted on any budget and holds nothing; paid work on a zero cap never is. */
  lemma FreeWorkIsAdmitted(f: Financial, v: View, id: Id, task: Id, cost: CostEvidence)
    requires Inv(f) && Allowed(v, task) && id !in f.leases
    ensures var (g, r) := Reserve(f, v, id, task, cost);
            && r.Ok?
            && (Free(cost) ==> r.value.Granted? && g == f.(leases := f.leases[id := Lease(task, cost, LeaseState.Reserved)]))
            && (!Free(cost) && f.budget == Finite(0.0) ==> r.value == Denied(TierHard, FiniteZero) && g == f)
  {
    assert f.unknownPaidInFlight + {} == f.unknownPaidInFlight;
  }

  /** Why a reservation is denied: the first reason in the fixed order. */
  lemma DeniedForTheFirstReason(f: Financial, v: View, id: Id, task: Id, cost: CostEvidence)
    requires Inv(f) && Allowed(v, task) && !Free(cost) && f.budget.Finite?
    ensures var (g, r) := Reserve(f, v, id, task, cost);
            var cap := f.budget.maxUsd;
            && r.Ok?
            && (r.value.Denied? ==> g == f)
            && (r.value.Denied? && r.value.why == FiniteZero <==> cap == 0.0)
            && (r.value.Denied? && r.value.why == HardCap <==> cap > 0.0 && Tier(f) == TierHard)
            && (r.value.Denied? && r.value.why == UnknownPaidInFlight <==>
                  cap > 0.0 && Tier(f) != TierHard && Unpriced(cost) && f.unknownPaidInFlight != {})
            && (r.value.Denied? && r.value.why == EstimateHeadroom <==>
                  && cap > 0.0 && Tier(f) != TierHard && !(Unpriced(cost) && f.unknownPaidInFlight != {})
                  && Quoted(cost) > 0.0 && Exposure(f) + Quoted(cost) >= cap)
            && (r.value.Denied? ==> r.value.tier == Tier(f) || (cap == 0.0 && r.value.tier == TierHard))
  {
    if f.unknownPaidInFlight != {} {
      var d :| d in f.unknownPaidInFlight;
      assert None != Some(d);
    }
  }

  lemma HoldSumOfOneMore(holds: map<Id, Hold>, id: Id, h: Hold)
    requires id !in holds
    ensures HoldSum(holds[id := h]) == HoldSum(holds) + h.Amount()
  {
    HoldSumSet(holds, id, h);
  }

  /** A granted reservation records the lease as asked for, holds exactly what it was quoted, and
      touches nothing else. */
  lemma GrantHoldsTheQuote(f: Financial, v: View, id: Id, task: Id, cost: CostEvidence)
    requires Inv(f) && id !in f.leases
    requires var r := Reserve(f, v, id, task, cost).1; r.Ok? && r.value.Granted?
    ensures var (g, r) := Reserve(f, v, id, task, cost);
            && r.value == Granted(Tier(g), Lease(task, cost, LeaseState.Reserved))
            && g.leases == f.leases[id := Lease(task, cost, LeaseState.Reserved)]
            && Exposure(g) == Exposure(f) + Quoted(cost)
            && (forall other :: other != id ==> HoldOf(g, other) == HoldOf(f, other))
            && HoldOf(g, id) == Hold(Quoted(cost), 0.0) && (id in g.holds <==> Quoted(cost) > 0.0)
            && g.unknownPaidInFlight == f.unknownPaidInFlight + (if Unpriced(cost) && f.budget.Finite? then {id} else {})
            && g.physicalDispatchStarted == f.physicalDispatchStarted
            && g.family == f.family && g.totalsByTask == f.totalsByTask
  {
    if cost.Estimate() > 0.0 { HoldSumOfOneMore(f.holds, id, Hold(cost.Estimate(), 0.0)); }
  }

  /** A granted reprice keeps what streamed, holds the new quote on top, and touches no other
      lease. */
  lemma RepriceHoldsTheQuote(f: Financial, v: View, id: Id, cost: CostEvidence)
    requires Inv(f) && IsReserved(f, id)
    requires var r := Reprice(f, v, id, cost).1; r.Ok? && r.value.Granted?
    ensures var (g, r) := Reprice(f, v, id, cost);
            var before := HoldOf(f, id);
            && r.value == Granted(Tier(g), f.leases[id].(cost := cost))
            && g.leases == f.leases[id := f.leases[id].(cost := cost)]
            && HoldOf(g, id) == Hold(Max(before.reservedUsd, before.observedUsd + Quoted(cost)), before.observedUsd)
            && (id in g.holds <==> id in f.holds || HoldOf(g, id).reservedUsd > 0.0)
            && (forall other :: other != id ==> HoldOf(g, other) == HoldOf(f, other))
            && (forall other :: other != id ==> (other in g.unknownPaidInFlight <==> other in f.unknownPaidInFlight))
            && g.physicalDispatchStarted == f.physicalDispatchStarted
            && g.family == f.family && g.totalsByTask == f.totalsByTask
  {
  }

  // ---------------------------------------------------------------- streamed cash

  /** The operation reports streamed cash for a live lease through a view that may act for it. */
  ghost predicate Streams(s: Family, op: Op, id: Id) {
    && op.DoUpdateHold? && op.id == id && op.view < |s.views|
    && IsReserved(s.f, id) && Allowed(s.views[op.view], s.f.leases[id].task)
  }

  /** The most a run reported as streamed for a lease, above `floor`. */
  ghost function MostStreamed(s: Family, ops: seq<Op>, id: Id, floor: real): real
    decreases |ops|
  {
    if ops == [] then floor
    else MostStreamed(Step(s, ops[0]), ops[1..], id, if Streams(s, ops[0], id) then Max(floor, ops[0].streamedCashUsd) else floor)
  }

  lemma StepStreams(s: Family, op: Op, id: Id)
    requires IsReserved(s.f, id) && IsReserved(Step(s, op).f, id)
    ensures HoldOf(Step(s, op).f, id).observedUsd
         == if Streams(s, op, id) then Max(HoldOf(s.f, id).observedUsd, op.streamedCashUsd) else HoldOf(s.f, id).observedUsd
  {
    match op
    case OpenView(_) =>
    case DoReserve(_, _, _, _) =>
    case DoReprice(_, _, _) =>
    case DoUpdateHold(_, _, _) =>
    case DoSettle(_, _, _) =>
    case DoCancel(_, _) =>
    case DoMark(_) =>
    case DoRelease(_) =>
  }

  /** While a lease is live, what counts as streamed for it is the most the run has reported. */
  lemma {:induction false} HoldIsTheMostStreamed(s: Family, ops: seq<Op>, id: Id)
    requires IsReserved(s.f, id) && IsReserved(Run(s, ops).f, id)
    ensures HoldOf(Run(s, ops).f, id).observedUsd == MostStreamed(s, ops, id, HoldOf(s.f, id).observedUsd)
    decreases |ops|
  {
    if ops != [] {
      var next := Step(s, ops[0]);
      StepLosesNoLease(s, ops[0], id);
      if Closed(next.f, id) { ClosedForever(next, ops[1..], id); }
      StepStreams(s, ops[0], id);
      HoldIsTheMostStreamed(next, ops[1..], id);
    }
  }

  // ---------------------------------------------------------------- task ids

  /** White space and line ends, as ECMAScript's trimming knows them. */
  const TRIMMED := "\t\n\U{000B}\U{000C}\r \U{00A0}\U{1680}\U{2000}\U{2001}\U{2002}\U{2003}\U{2004}\U{2005}\U{2006}\U{2007}\U{2008}\U{2009}\U{200A}\U{2028}\U{2029}\U{202F}\U{205F}\U{3000}\U{FEFF}"

  lemma WhatIsTrimmed(c: char)
    ensures IsSpace(c) <==> c in TRIMMED
  {
    assert |TRIMMED| == 25;
    if IsSpace(c) {
      var n := c as int;
      var i := if n <= 0x0D then n - 0x09 else if n == 0x20 then 5 else if n == 0xA0 then 6 else if n == 0x1680 then 7
               else if n <= 0x200A then n - 0x2000 + 8 else if n == 0x2028 then 19 else if n == 0x2029 then 20
               else if n == 0x202F then 21 else if n == 0x205F then 22 else if n == 0x3000 then 23 else 24;
      assert TRIMMED[i] as int == n;
    }
  }

  /** A task id names no task exactly when trimming leaves nothing of it. */
  lemma BlankIds(task: string)
    ensures Blank(task) <==> forall c :: c in task ==> c in TRIMMED
  {
    forall c ensures IsSpace(c) <==> c in TRIMMED { WhatIsTrimmed(c); }
    if forall c :: c in task ==> c in TRIMMED {
      forall i | 0 <= i < |task| ensures IsSpace(task[i]) { assert task[i] in task; }
    }
  }

  // ---------------------------------------------------------------- task views

  /** Everything the ledger keeps about one lease. */
  ghost predicate SameLease(f: Financial, g: Financial, id: Id) {
    && (id in f.leases <==> id in g.leases) && (id in f.leases ==> f.leases[id] == g.leases[id])
    && (id in f.holds <==> id in g.holds) && (id in f.holds ==> f.holds[id] == g.holds[id])
    && (id in f.unknownPaidInFlight <==> id in g.unknownPaidInFlight)
    && (id in f.physicalDispatchStarted <==> id in g.physicalDispatchStarted)
  }

  /** The operation is made through the view at `v`. */
  predicate Through(op: Op, v: nat) {
    !op.OpenView? && !op.DoMark? && op.view == v
  }

  ghost predicate OnlyTouches(f: Financial, g: Financial, task: Id) {
    && (forall id :: id in f.leases && f.leases[id].task != task ==> SameLease(f, g, id))
    && (forall id :: id in g.leases && id !in f.leases ==> g.leases[id].task == task)
    && (forall other :: other != task ==> TaskTotals(g, other) == TaskTotals(f, other))
  }

  lemma ReserveStaysInTheTask(f: Financial, v: View, id: Id, task: Id, cost: CostEvidence, own: Id)
    requires v.taskScope == Some(own) && id !in f.leases
    ensures OnlyTouches(f, Reserve(f, v, id, task, cost).0, own)
  {
  }

  lemma RepriceStaysInTheTask(f: Financial, v: View, id: Id, cost: CostEvidence, own: Id)
    requires v.taskScope == Some(own)
    ensures OnlyTouches(f, Reprice(f, v, id, cost).0, own)
  {
  }

  lemma SettleStaysInTheTask(f: Financial, v: View, id: Id, settlement: Settlement, own: Id)
    requires v.taskScope == Some(own)
    ensures OnlyTouches(f, Settle(f, v, id, settlement).0, own)
  {
  }

  lemma CancellingStaysInTheTask(f: Financial, ids: set<Id>, own: Id)
    requires forall id :: id in ids && id in f.leases ==> f.leases[id].task == own
    ensures OnlyTouches(f, CancelAll(f, ids), own)
  {
  }

  /** A task view never touches another task: its leases, holds, debts and totals stay. */
  lemma TaskViewsStayInTheirTask(s: Family, op: Op, v: nat, task: Id)
    requires v < |s.views| && s.views[v].taskScope == Some(task) && Through(op, v)
    ensures OnlyTouches(s.f, Step(s, op).f, task)
  {
    if !Issuable(s, op) { return; }
    match op
    case DoReserve(_, id, t, cost) => ReserveStaysInTheTask(s.f, s.views[v], id, t, cost, task);
    case DoReprice(_, id, cost) => RepriceStaysInTheTask(s.f, s.views[v], id, cost, task);
    case DoUpdateHold(_, _, _) =>
    case DoSettle(_, id, settlement) => SettleStaysInTheTask(s.f, s.views[v], id, settlement, task);
    case DoCancel(_, id) =>
      if id in s.f.leases ==> s.f.leases[id].task == task { CancellingStaysInTheTask(s.f, {id}, task); }
    case DoRelease(_) => CancellingStaysInTheTask(s.f, ReservedOf(s.f, task), task);
  }

  /** What it gets instead: a refusal that names the reason, with nothing changed. */
  lemma OutsideItsTaskAViewIsRefused(f: Financial, v: View, id: Id, task: Id, cost: CostEvidence, settlement: Settlement, usd: real)
    requires !Allowed(v, task)
    ensures var why := if v.released then ScopeReleased else ScopeViolation;
            && Reserve(f, v, id, task, cost) == (f, Thrown(why))
            && (id in f.leases && f.leases[id].task == task ==>
                  && Reprice(f, v, id, cost) == (f, Thrown(why)) && Settle(f, v, id, settlement) == (f, Thrown(why))
                  && UpdateHold(f, v, id, usd) == (f, Thrown(why)) && Cancel(f, v, id) == (f, Thrown(why)))
  {
  }

  /** A lease nobody reserved, or one that is closed: settling and repricing report it, holding and
      cancelling pass over it. */
  lemma MissingAndClosedLeases(f: Financial, v: View, id: Id, cost: CostEvidence, settlement: Settlement, usd: real)
    requires Inv(f)
    ensures id !in f.leases ==>
              && Reprice(f, v, id, cost) == (f, Thrown(UnknownLease)) && Settle(f, v, id, settlement) == (f, Thrown(UnknownLease))
              && UpdateHold(f, v, id, usd) == (f, Ok(())) && Cancel(f, v, id).1 == Ok(())
    ensures Closed(f, id) && Allowed(v, f.leases[id].task) ==>
              && Reprice(f, v, id, cost) == (f, Thrown(ClosedLease)) && Settle(f, v, id, settlement) == (f, Ok(()))
              && UpdateHold(f, v, id, usd) == (f, Ok(())) && Cancel(f, v, id).1 == Ok(())
  {
  }

  /** Cancelling a live lease closes it, frees its hold and its debt, and moves no money. */
  lemma CancelIsExact(f: Financial, v: View, id: Id)
    requires Inv(f) && IsReserved(f, id) && Allowed(v, f.leases[id].task)
    ensures var (g, r) := Cancel(f, v, id);
            && r == Ok(())
            && g.leases == f.leases[id := f.leases[id].(state := Cancelled)]
            && g.holds == f.holds - {id} && g.unknownPaidInFlight == f.unknownPaidInFlight - {id}
            && g.physicalDispatchStarted == f.physicalDispatchStarted - {id}
            && g.family == f.family && g.totalsByTask == f.totalsByTask && SameLatches(g, f)
  {
  }

  /** However a lease closes, nothing is held, owed or under way for it any more. */
  lemma ClosingForgetsTheLease(s: Family, op: Op, id: Id)
    requires IsReserved(s.f, id) && Closed(Step(s, op).f, id)
    ensures var f := Step(s, op).f;
            id !in f.holds && id !in f.unknownPaidInFlight && id !in f.physicalDispatchStarted
  {
    OnlyClosingCloses(s, op, id);
  }

  /** Streamed cash that is no more than what counted before changes nothing. */
  lemma LowerStreamsChangeNothing(f: Financial, v: View, id: Id, usd: real)
    requires usd <= HoldOf(f, id).observedUsd
    ensures UpdateHold(f, v, id, usd).0 == f
  {
  }

  ghost predicate SameLatches(g: Financial, f: Financial) {
    g.overshot == f.overshot && g.unverifiable == f.unverifiable && g.budget == f.budget && g.thresholds == f.thresholds
  }

  // ---------------------------------------------------------------- settlements that name no components

  /** A settlement without a cash component follows the billing of its lease: free work that owes
      nothing takes no cash and its amount is valuation; anything else is charged. */
  lemma PlainSettlementFollowsTheBilling(f: Financial, id: Id, s: Settlement)
    requires id in f.leases && s.cashKnowledge.None? && s.valuationUsd.None? && s.valuationKnowledge.None? && !s.allowanceDebitUnobserved
    ensures var e := EntryOf(f, id, s);
            var amount := if s.cashUsd.Some? && s.cashUsd.value > 0.0 then s.cashUsd.value else 0.0;
            && e.lease == id && e.task == f.leases[id].task
            && if Free(f.leases[id].cost) && id !in f.unknownPaidInFlight then
                 && e.cashUsd == 0.0 && e.controllable == Exact && e.reported == Exact
                 && e.valuationUsd == amount && e.valuation == (if s.cashUsd.Some? then Some(s.knowledge) else None)
               else
                 && e.cashUsd == amount && e.controllable == s.knowledge && e.reported == s.knowledge
                 && e.valuationUsd == 0.0 && e.valuation == None
  {
  }
}
