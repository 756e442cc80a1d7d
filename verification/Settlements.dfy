/** Turning usage evidence into a settlement, and what that settlement does to the ledger.
    The end-to-end theorem joins the tracker's trace meaning to the ledger's totals. */
module Settlements {
  import opened Knowledge
  import L = LedgerModel
  import opened UsageEvidence
  import T = UsageTrace

  datatype Amounts = Amounts(cashUsd: real, valuationUsd: real, unknownUsd: real)

  datatype Reported = Reported(valuationUsd: real, valuation: bool, unknown: bool, any: bool)

  /** A positive amount, or a zero the tracker observed. */
  function ReportedComponents(a: Amounts, seen: Option<ObservedAmounts>): Reported {
    var valuationUsd := Max(0.0, a.valuationUsd);
    var valuation := valuationUsd > 0.0 || (seen.Some? && seen.value.valuation);
    var unknown := a.unknownUsd > 0.0 || (seen.Some? && seen.value.unknown);
    Reported(valuationUsd, valuation, unknown,
             a.cashUsd > 0.0 || (seen.Some? && seen.value.cash) || valuation || unknown)
  }

  function MeasuredKnowledge(estimated: bool): CostKnowledge {
    if estimated then Estimated else Exact
  }

  function MergeAll(values: seq<CostKnowledge>): CostKnowledge {
    if Unknown in values then Unknown else if Estimated in values then Estimated else Exact
  }

  datatype Split = Split(
    amounts: Amounts,
    cashEstimated: bool,
    valuationEstimated: bool,
    cashKnowledge: Option<CostKnowledge>,
    valuationKnowledge: Option<CostKnowledge>,
    allowanceDebitUnobserved: bool,
    observedAmounts: Option<ObservedAmounts>)

  function UsageCostSettlement(cashUsd: real, estimated: bool): L.Settlement {
    if cashUsd > 0.0 then
      L.Settlement(MeasuredKnowledge(estimated), Some(MeasuredKnowledge(estimated)), None, false, Some(cashUsd), None)
    else L.Settlement(Unknown, None, None, false, None, None)
  }

  function SplitSettlement(split: Split): L.Settlement {
    var reported := ReportedComponents(split.amounts, split.observedAmounts);
    var cash := if split.cashKnowledge.Some? then split.cashKnowledge.value
                else if reported.unknown then Unknown else MeasuredKnowledge(split.cashEstimated);
    var valuation := if reported.unknown then Unknown
                     else split.valuationKnowledge.GetOr(MeasuredKnowledge(split.valuationEstimated));
    var both := reported.valuation || reported.unknown;
    L.Settlement(MergeAll([cash] + if both then [valuation] else []), Some(cash),
                 if both then Some(valuation) else None, split.allowanceDebitUnobserved,
                 Some(split.amounts.cashUsd),
                 if reported.valuation then Some(reported.valuationUsd) else None)
  }

  function AttemptUsageCostSettlement(totalUsd: real, estimated: bool, authMode: Option<Route>, split: Option<Split>)
    : L.Settlement
  {
    if split.Some? && (|| ReportedComponents(split.value.amounts, split.value.observedAmounts).any
                       || split.value.cashKnowledge.Some? || split.value.valuationKnowledge.Some?)
    then SplitSettlement(split.value)
    else if authMode == Some(LocalSession) then
      L.Settlement(MeasuredKnowledge(estimated), Some(Exact),
                   if totalUsd > 0.0 then Some(MeasuredKnowledge(estimated)) else None, false,
                   None, if totalUsd > 0.0 then Some(totalUsd) else None)
    else UsageCostSettlement(totalUsd, estimated)
  }

  function ReviewUsageCostSettlement(a: Amounts, snapshot: Snapshot): L.Settlement {
    var reported := ReportedComponents(a, Some(snapshot.observedAmounts));
    var both := reported.valuation || reported.unknown;
    var aggregate := MergeAll([snapshot.cashKnowledge] + if both then [snapshot.valuationKnowledge] else []);
    L.Settlement(if reported.unknown then Unknown else aggregate, Some(snapshot.cashKnowledge),
                 if both then Some(if reported.unknown then Unknown else snapshot.valuationKnowledge) else None,
                 snapshot.allowanceDebitUnobserved, Some(Max(0.0, a.cashUsd)),
                 if reported.valuation then Some(reported.valuationUsd) else None)
  }

  /** The split an attempt hands over: the tracker's totals and snapshot, field by field. */
  function SplitOf(t: Tracker): Split {
    var s := SnapshotOf(t);
    Split(Amounts(t.totals.cashUsd, t.totals.valuationUsd, t.totals.unknownUsd),
          t.totals.cashEstimated, t.totals.valuationEstimated,
          Some(s.cashKnowledge), Some(s.valuationKnowledge), s.allowanceDebitUnobserved, Some(s.observedAmounts))
  }

  // ---------------------------------------------------------------- honesty

  ghost predicate Settleable(f: L.Financial, v: L.View, id: L.Id) {
    L.LeaseError(f, v, id).None? && f.leases[id].state.Reserved?
  }

  /** The task and the family both gained exactly this. */
  ghost predicate Gained(before: L.Totals, after: L.Totals, cash: real, valuation: real,
                         controllable: CostKnowledge, reported: CostKnowledge, valuationK: Option<CostKnowledge>)
  {
    && after.cashUsd == before.cashUsd + cash
    && after.valuationUsd == before.valuationUsd + valuation
    && after.controllable == Join(before.controllable, Some(controllable))
    && after.cash == Join(before.cash, Some(reported))
    && after.valuation == Join(before.valuation, valuationK)
  }

  ghost predicate BothGained(f: L.Financial, g: L.Financial, task: L.Id, cash: real, valuation: real,
                             controllable: CostKnowledge, reported: CostKnowledge, valuationK: Option<CostKnowledge>)
  {
    && Gained(f.family, g.family, cash, valuation, controllable, reported, valuationK)
    && Gained(L.TaskTotals(f, task), L.TaskTotals(g, task), cash, valuation, controllable, reported, valuationK)
  }

  ghost predicate NonNegative(t: UsageTotals) {
    0.0 <= t.cashUsd && 0.0 <= t.valuationUsd && 0.0 <= t.unknownUsd
  }

  /** What a settlement adds is its entry, to the task and to the family alike. */
  lemma SettlingGainsTheEntry(f: L.Financial, v: L.View, id: L.Id, settlement: L.Settlement)
    requires Settleable(f, v, id)
    ensures var e := L.EntryOf(f, id, settlement);
            var g := L.Settle(f, v, id, settlement).0;
            && BothGained(f, g, f.leases[id].task, e.cashUsd, e.valuationUsd, e.controllable, e.reported, e.valuation)
            && (g.unverifiable <==> f.unverifiable || (f.budget.Finite? && e.controllable.Unknown?))
  {
  }

  /** The entry of a tracker's split, whatever billing the lease was reserved under. */
  lemma TrackerEntry(f: L.Financial, id: L.Id, t: Tracker, totalUsd: real, estimated: bool, authMode: Option<Route>)
    requires id in f.leases && NonNegative(t.totals)
    ensures var s := SnapshotOf(t);
            var e := L.EntryOf(f, id, AttemptUsageCostSettlement(totalUsd, estimated, authMode, Some(SplitOf(t))));
            && e.cashUsd == t.totals.cashUsd && e.valuationUsd == t.totals.valuationUsd && e.controllable == s.cashKnowledge
            && e.reported == (if s.allowanceDebitUnobserved then Unknown else s.cashKnowledge)
            && e.valuation == if t.totals.unknownUsd > 0.0 || s.observedAmounts.unknown then Some(Unknown)
                              else if t.totals.valuationUsd > 0.0 || s.observedAmounts.valuation
                              then Some(s.valuationKnowledge) else None
  {
  }

  /** Settling the split of any tracker state charges exactly its totals and joins exactly its
      knowledge, whatever billing the lease was reserved under and whatever the caller's own
      total says. */
  lemma SettlingATrackerIsHonest(f: L.Financial, v: L.View, id: L.Id, t: Tracker,
                                 totalUsd: real, estimated: bool, authMode: Option<Route>)
    requires Settleable(f, v, id) && NonNegative(t.totals)
    ensures var s := SnapshotOf(t);
            var settlement := AttemptUsageCostSettlement(totalUsd, estimated, authMode, Some(SplitOf(t)));
            var g := L.Settle(f, v, id, settlement).0;
            var unknown := t.totals.unknownUsd > 0.0 || s.observedAmounts.unknown;
            && BothGained(f, g, f.leases[id].task, t.totals.cashUsd, t.totals.valuationUsd, s.cashKnowledge,
                          if s.allowanceDebitUnobserved then Unknown else s.cashKnowledge,
                          if unknown then Some(Unknown)
                          else if t.totals.valuationUsd > 0.0 || s.observedAmounts.valuation
                          then Some(s.valuationKnowledge) else None)
            && (g.unverifiable <==> f.unverifiable || (f.budget.Finite? && s.cashKnowledge.Unknown?))
  {
    SettlingGainsTheEntry(f, v, id, AttemptUsageCostSettlement(totalUsd, estimated, authMode, Some(SplitOf(t))));
    TrackerEntry(f, id, t, totalUsd, estimated, authMode);
  }

  /** An attempt and a review that saw the same usage settle alike. */
  lemma ReviewSettlesAlike(f: L.Financial, id: L.Id, t: Tracker, totalUsd: real, estimated: bool, authMode: Option<Route>)
    requires id in f.leases && NonNegative(t.totals)
    ensures L.EntryOf(f, id, ReviewUsageCostSettlement(SplitOf(t).amounts, SnapshotOf(t)))
         == L.EntryOf(f, id, AttemptUsageCostSettlement(totalUsd, estimated, authMode, Some(SplitOf(t))))
  {
  }

  /** Without a split, native-session usage is valuation and never cash; other usage is cash.  No
      positive total is no valuation on the native route, and unknown cash on any other, unless the
      lease was reserved as zero-cash with no unknown debt. */
  lemma UnsplitUsageIsHonest(f: L.Financial, v: L.View, id: L.Id, totalUsd: real, estimated: bool, authMode: Option<Route>)
    requires Settleable(f, v, id)
    ensures var g := L.Settle(f, v, id, AttemptUsageCostSettlement(totalUsd, estimated, authMode, None)).0;
            var task := f.leases[id].task;
            var k := if estimated then Estimated else Exact;
            var free := f.leases[id].cost.billing.ProvenZero? || f.leases[id].cost.billing.SubscriptionEntitlement?;
            var zeroCash := free && id !in f.unknownPaidInFlight;
            if authMode == Some(LocalSession) then
              BothGained(f, g, task, 0.0, Max(0.0, totalUsd), Exact, Exact, if totalUsd > 0.0 then Some(k) else None)
            else if totalUsd > 0.0 then
              BothGained(f, g, task, totalUsd, 0.0, k, k, None)
            else
              && BothGained(f, g, task, 0.0, 0.0, if zeroCash then Exact else Unknown, if zeroCash then Exact else Unknown, None)
              && (g.unverifiable <==> f.unverifiable || (f.budget.Finite? && !zeroCash))
  {
    SettlingGainsTheEntry(f, v, id, AttemptUsageCostSettlement(totalUsd, estimated, authMode, None));
  }

  /** A split that says nothing (no amount above zero, none observed, no knowledge) is no split. */
  lemma SilentSplitIsNoSplit(totalUsd: real, estimated: bool, authMode: Option<Route>, split: Split)
    requires split.amounts.cashUsd <= 0.0 && split.amounts.valuationUsd <= 0.0 && split.amounts.unknownUsd <= 0.0
    requires split.observedAmounts == None || split.observedAmounts == Some(ObservedAmounts(false, false, false))
    requires split.cashKnowledge == None && split.valuationKnowledge == None
    ensures AttemptUsageCostSettlement(totalUsd, estimated, authMode, Some(split))
         == AttemptUsageCostSettlement(totalUsd, estimated, authMode, None)
  {
  }

  /** A split that reports amounts but no knowledge of its own is as certain as its amounts were
      measured, and unknown once an amount of unknown meaning was reported. */
  lemma SplitWithoutKnowledgeIsHonest(f: L.Financial, v: L.View, id: L.Id, totalUsd: real, estimated: bool, authMode: Option<Route>,
                                      split: Split)
    requires Settleable(f, v, id) && split.cashKnowledge == None && split.valuationKnowledge == None && split.observedAmounts == None
    requires 0.0 <= split.amounts.cashUsd && 0.0 <= split.amounts.valuationUsd
    requires split.amounts.cashUsd > 0.0 || split.amounts.valuationUsd > 0.0 || split.amounts.unknownUsd > 0.0
    ensures var g := L.Settle(f, v, id, AttemptUsageCostSettlement(totalUsd, estimated, authMode, Some(split))).0;
            var unknown := split.amounts.unknownUsd > 0.0;
            var cash := if unknown then Unknown else if split.cashEstimated then Estimated else Exact;
            && BothGained(f, g, f.leases[id].task, split.amounts.cashUsd, split.amounts.valuationUsd, cash,
                          if split.allowanceDebitUnobserved then Unknown else cash,
                          if unknown then Some(Unknown)
                          else if split.amounts.valuationUsd == 0.0 then None
                          else if split.valuationEstimated then Some(Estimated) else Some(Exact))
            && (g.unverifiable <==> f.unverifiable || (f.budget.Finite? && unknown))
  {
    SettlingGainsTheEntry(f, v, id, AttemptUsageCostSettlement(totalUsd, estimated, authMode, Some(split)));
  }

  lemma MergingTwo(a: CostKnowledge, b: CostKnowledge)
    ensures MergeAll([a] + []) == a && MergeAll([a] + [b]) == MergeKnowledge(Some(a), b)
  {
    assert [a] + [] == [a] && [a] + [b] == [a, b];
    assert [a, b][0] == a && [a, b][1] == b;
  }

  /** A settlement's overall knowledge is the least certain of what it settles: cash, and the
      valuation where one was reported; unknown once an amount of unknown meaning was. */
  lemma OverallKnowledgeIsTheWorst(split: Split, a: Amounts, snapshot: Snapshot)
    ensures var s := SplitSettlement(split); Some(s.knowledge) == Join(s.cashKnowledge, s.valuationKnowledge)
    ensures var s := ReviewUsageCostSettlement(a, snapshot);
            && s.cashKnowledge == Some(snapshot.cashKnowledge)
            && Some(s.knowledge) == Join(s.cashKnowledge, s.valuationKnowledge)
  {
    var s := SplitSettlement(split);
    MergingTwo(s.cashKnowledge.value, s.valuationKnowledge.GetOr(Exact));
    MergingTwo(snapshot.cashKnowledge, snapshot.valuationKnowledge);
  }

  /** Without a split, what an attempt hands over: on a native session its total as a valuation and
      exact cash, elsewhere its total as cash; without a positive total no amount at all. */
  lemma UnsplitSettlement(totalUsd: real, estimated: bool, authMode: Option<Route>)
    ensures var s := AttemptUsageCostSettlement(totalUsd, estimated, authMode, None);
            var k := if estimated then Estimated else Exact;
            var total := if totalUsd > 0.0 then Some(totalUsd) else None;
            && !s.allowanceDebitUnobserved
            && if authMode == Some(LocalSession) then
                 && s.cashUsd == None && s.cashKnowledge == Some(Exact) && s.valuationUsd == total && s.knowledge == k
                 && s.valuationKnowledge == (if totalUsd > 0.0 then Some(k) else None)
               else
                 && s.cashUsd == total && s.cashKnowledge == (if totalUsd > 0.0 then Some(k) else None)
                 && s.valuationUsd == None && s.valuationKnowledge == None
                 && s.knowledge == if totalUsd > 0.0 then k else Unknown
  {
  }

  lemma {:induction false} SumsAreNonNegative(tr: seq<T.Event>, n: nat, kind: AmountKind)
    requires n <= |tr|
    ensures 0.0 <= T.SumOf(tr, n, kind)
  {
    if n > 0 { SumsAreNonNegative(tr, n - 1, kind); }
  }

  lemma {:induction false} NothingReportedSumsToZero(tr: seq<T.Event>, n: nat, kind: AmountKind)
    requires n <= |tr| && !T.Somewhere(tr, n, kind)
    ensures T.SumOf(tr, n, kind) == 0.0
  {
    if n > 0 {
      assert !T.Reports(tr, n - 1, kind);
      assert !T.Somewhere(tr, n - 1, kind);
      NothingReportedSumsToZero(tr, n - 1, kind);
    }
  }

  /** A fresh tracker after a whole trace: its totals and its snapshot, in terms of the trace. */
  lemma TraceSnapshot(tr: seq<T.Event>)
    ensures var t := T.After(NO_USAGE, tr, |tr|);
            var s := SnapshotOf(t);
            && NonNegative(t.totals)
            && t.totals.cashUsd == T.SumOf(tr, |tr|, CashAmount) && t.totals.valuationUsd == T.SumOf(tr, |tr|, ValuationAmount)
            && s.cashKnowledge == (if T.CashIsUnknown(tr) then Unknown
                                   else if T.SomewhereEstimated(tr, |tr|, CashAmount) then Estimated else Exact)
            && (s.allowanceDebitUnobserved <==> exists i: nat :: T.Owing(tr, |tr|, i, T.Allowance))
            && (t.totals.unknownUsd > 0.0 || s.observedAmounts.unknown <==> T.Somewhere(tr, |tr|, UnknownAmount))
            && (t.totals.valuationUsd > 0.0 || s.observedAmounts.valuation <==> T.Somewhere(tr, |tr|, ValuationAmount))
            && (T.Somewhere(tr, |tr|, ValuationAmount) && !T.Somewhere(tr, |tr|, UnknownAmount) ==>
                  s.valuationKnowledge == if T.SomewhereEstimated(tr, |tr|, ValuationAmount) then Estimated else Exact)
  {
    T.TotalsAreSums(NO_USAGE, tr);
    T.CashKnowledgeMeans(NO_USAGE, tr);
    T.AllowanceDebitMeans(NO_USAGE, tr);
    T.ValuationKnowledgeMeans(NO_USAGE, tr);
    SumsAreNonNegative(tr, |tr|, CashAmount);
    SumsAreNonNegative(tr, |tr|, ValuationAmount);
    SumsAreNonNegative(tr, |tr|, UnknownAmount);
    if !T.Somewhere(tr, |tr|, ValuationAmount) { NothingReportedSumsToZero(tr, |tr|, ValuationAmount); }
    if !T.Somewhere(tr, |tr|, UnknownAmount) { NothingReportedSumsToZero(tr, |tr|, UnknownAmount); }
  }

  /** End to end: run a fresh tracker over any event trace, settle what it saw on any live
      lease, and the ledger has gained exactly the cash and valuation the trace reported, with
      cash unknown exactly when the trace leaves it unknown; on a finite budget such a trace
      makes the ledger unverifiable. */
  lemma TraceToLedger(f: L.Financial, v: L.View, id: L.Id, tr: seq<T.Event>,
                      totalUsd: real, estimated: bool, authMode: Option<Route>)
    requires Settleable(f, v, id)
    ensures var t := T.After(NO_USAGE, tr, |tr|);
            var g := L.Settle(f, v, id, AttemptUsageCostSettlement(totalUsd, estimated, authMode, Some(SplitOf(t)))).0;
            var cash := if T.CashIsUnknown(tr) then Unknown
                        else if T.SomewhereEstimated(tr, |tr|, CashAmount) then Estimated else Exact;
            var reported := if exists i: nat :: T.Owing(tr, |tr|, i, T.Allowance) then Unknown else cash;
            var valuation := if T.Somewhere(tr, |tr|, UnknownAmount) then Some(Unknown)
                             else if !T.Somewhere(tr, |tr|, ValuationAmount) then None
                             else if T.SomewhereEstimated(tr, |tr|, ValuationAmount) then Some(Estimated)
                             else Some(Exact);
            && BothGained(f, g, f.leases[id].task,
                          T.SumOf(tr, |tr|, CashAmount), T.SumOf(tr, |tr|, ValuationAmount),
                          cash, reported, valuation)
            && (g.unverifiable <==> f.unverifiable || (f.budget.Finite? && T.CashIsUnknown(tr)))
  {
    TraceSnapshot(tr);
    SettlingATrackerIsHonest(f, v, id, T.After(NO_USAGE, tr, |tr|), totalUsd, estimated, authMode);
  }
}
