/** What the tracker's flags mean.  The meaning is stated over positions of the event trace,
    with no tracker state in it; the theorem at the end says the incremental flags are exactly
    that meaning, for every trace. */
module UsageTrace {
  import opened Knowledge
  import opened UsageEvidence

  datatype Event =
    | Start(evidence: Evidence)
    | Stream(route: Option<Route>, evidence: Evidence)
    | Usage(route: Option<Route>, usd: real, estimated: bool, amount: Option<AmountKind>, evidence: Evidence)
    | Finish

  function Apply(t: Tracker, e: Event): Tracker {
    match e
    case Start(evidence) => StartAttempt(t, evidence)
    case Stream(route, evidence) => ObserveEvent(t, route, evidence)
    case Usage(route, usd, estimated, amount, evidence) => ObserveUsage(t, route, usd, estimated, amount, evidence)
    case Finish => FinishAttempt(t)
  }

  /** The tracker after the first `n` events. */
  function After(totals: UsageTotals, tr: seq<Event>, n: nat): Tracker
    requires n <= |tr|
  {
    if n == 0 then NewTracker(totals) else Apply(After(totals, tr, n - 1), tr[n-1])
  }

  // ---------------------------------------------------------------- the meaning of a trace

  /** The evidence in force once the first `n` events have been seen. */
  function Context(tr: seq<Event>, n: nat): Evidence
    requires n <= |tr|
  {
    if n == 0 then NO_EVIDENCE
    else if tr[n-1].Start? then tr[n-1].evidence
    else if tr[n-1].Stream? then Over(tr[n-1].evidence, Context(tr, n - 1))
    else Context(tr, n - 1)
  }

  /** An attempt is running after the first `n` events. */
  predicate Active(tr: seq<Event>, n: nat)
    requires n <= |tr|
  {
    n > 0 && (tr[n-1].Start? || (!tr[n-1].Finish? && Active(tr, n - 1)))
  }

  /** Event `i` names its route inside a running attempt. */
  predicate Routed(tr: seq<Event>, i: nat) {
    i < |tr| && tr[i].Stream? && tr[i].route.Some? && Active(tr, i)
  }

  function KeyAt(tr: seq<Event>, i: nat): Key
    requires Routed(tr, i)
  {
    KeyOf(tr[i].route.value, Context(tr, i + 1))
  }

  /** The two things an interval can owe a receipt for. */
  datatype Charge = Paid | Allowance

  predicate Incurs(tr: seq<Event>, i: nat, c: Charge) {
    Routed(tr, i) && match c
      case Paid => !OrdinaryIncluded(tr[i].route, Context(tr, i + 1))
      case Allowance => AllowanceDebitUnobserved(tr[i].route, Context(tr, i + 1))
  }

  /** The key of the latest routed event of the latest attempt. */
  function LastKey(tr: seq<Event>, n: nat): Option<Key>
    requires n <= |tr|
  {
    if n == 0 || tr[n-1].Start? then None
    else if Routed(tr, n - 1) then Some(KeyAt(tr, n - 1))
    else LastKey(tr, n - 1)
  }

  /** The latest attempt streamed an event, routed or not. */
  predicate Streamed(tr: seq<Event>, n: nat)
    requires n <= |tr|
  {
    n > 0 && !tr[n-1].Start? && ((tr[n-1].Stream? && Active(tr, n - 1)) || Streamed(tr, n - 1))
  }

  /** Event `k` opens a new interval: an attempt starts, or the key changes. */
  predicate Turns(tr: seq<Event>, k: nat) {
    k < |tr| && (tr[k].Start? || (Routed(tr, k) && LastKey(tr, k).Some? && LastKey(tr, k).value != KeyAt(tr, k)))
  }

  predicate Cuts(tr: seq<Event>, k: nat) {
    k < |tr| && (tr[k].Finish? || Turns(tr, k))
  }

  /** Positions with no cut between them: the same billing interval. */
  ghost predicate SameInterval(tr: seq<Event>, i: nat, j: nat) {
    && (forall k :: i < k <= j ==> !Cuts(tr, k))
    && (forall k :: j < k <= i ==> !Cuts(tr, k))
  }

  function KindAt(tr: seq<Event>, i: nat): AmountKind
    requires i < |tr| && tr[i].Usage?
  {
    UsageAmountKind(tr[i].route, tr[i].amount, Over(tr[i].evidence, Context(tr, i)))
  }

  predicate Reports(tr: seq<Event>, i: nat, kind: AmountKind) {
    i < |tr| && tr[i].Usage? && tr[i].usd >= 0.0 && KindAt(tr, i) == kind
  }

  /** Within the first `n` events, the interval of event `i` incurred `c` and no cash receipt
      fell into it. */
  ghost predicate Owing(tr: seq<Event>, n: nat, i: nat, c: Charge) {
    && i < n && Incurs(tr, i, c)
    && forall j: nat :: j < n && Reports(tr, j, CashAmount) ==> !SameInterval(tr, i, j)
  }

  ghost predicate Ended(tr: seq<Event>, n: nat, i: nat) {
    exists k: nat :: i < k < n && Cuts(tr, k)
  }

  /** Among the first `n` events a running attempt ended that had streamed but named no route. */
  ghost predicate RoutelessAttempt(tr: seq<Event>, n: nat) {
    exists f: nat :: f < n && EndsRouteless(tr, f)
  }

  predicate EndsRouteless(tr: seq<Event>, f: nat) {
    f < |tr| && (tr[f].Finish? || tr[f].Start?) && Active(tr, f) && Streamed(tr, f) && LastKey(tr, f).None?
  }

  ghost predicate UnknownOnPaidWork(tr: seq<Event>, n: nat) {
    exists i: nat :: i < n && Reports(tr, i, UnknownAmount) && IsPaidUsage(tr, i)
  }

  predicate IsPaidUsage(tr: seq<Event>, i: nat) {
    i < |tr| && tr[i].Usage? && !OrdinaryIncluded(tr[i].route, Over(tr[i].evidence, Context(tr, i)))
  }

  function SumOf(tr: seq<Event>, n: nat, kind: AmountKind): real
    requires n <= |tr|
  {
    if n == 0 then 0.0 else SumOf(tr, n - 1, kind) + if Reports(tr, n - 1, kind) then tr[n-1].usd else 0.0
  }

  /** Cash the engine controls is unknown for one of four reasons, and for no other. */
  ghost predicate CashIsUnknown(tr: seq<Event>) {
    || (forall i: nat :: !Routed(tr, i))
    || UnknownOnPaidWork(tr, |tr|)
    || (exists i: nat :: Owing(tr, |tr|, i, Paid))
    || RoutelessAttempt(tr, |tr|)
  }

  // ---------------------------------------------------------------- intervals

  /** Position of the latest interval opener among the first `n` events, or 0. */
  function OpenSince(tr: seq<Event>, n: nat): (k: nat)
    requires n <= |tr|
    ensures k <= n
    ensures k == 0 || Turns(tr, k)
    ensures forall i: nat :: k < i < n ==> !Turns(tr, i)
  {
    if n == 0 then 0 else if Turns(tr, n - 1) then n - 1 else OpenSince(tr, n - 1)
  }

  /** After a finish no attempt runs until the next start. */
  lemma {:induction false} FinishedUntilStart(tr: seq<Event>, f: nat, n: nat)
    requires f < n <= |tr| && tr[f].Finish? && Active(tr, n)
    ensures exists k: nat :: f < k < n && tr[k].Start?
  {
    if tr[n-1].Start? { assert f < n - 1 < n && tr[n-1].Start?; } else { FinishedUntilStart(tr, f, n - 1); }
  }

  lemma {:induction false} StartedWhenActive(tr: seq<Event>, n: nat)
    requires n <= |tr| && Active(tr, n)
    ensures exists s: nat :: s < n && tr[s].Start? && forall k: nat :: s < k < n ==> !tr[k].Finish?
  {
    if tr[n-1].Start? { assert n - 1 < n && tr[n-1].Start?; }
    else {
      StartedWhenActive(tr, n - 1);
      var s: nat :| s < n - 1 && tr[s].Start? && forall k: nat :: s < k < n - 1 ==> !tr[k].Finish?;
      assert s < n && tr[s].Start?;
    }
  }

  /** A routed event whose interval has not been cut lies in the open interval of a running
      attempt, and the other way round. */
  lemma UncutIsOpen(tr: seq<Event>, n: nat, i: nat)
    requires n <= |tr| && i < n && Routed(tr, i)
    ensures !Ended(tr, n, i) <==> OpenSince(tr, n) <= i && Active(tr, n)
  {
    if !Ended(tr, n, i) {
      StillActive(tr, i, n);
      OpenSinceBelow(tr, n);
      var o := OpenSince(tr, n);
      assert o == 0 || Cuts(tr, o);
    } else if OpenSince(tr, n) <= i && Active(tr, n) {
      var k: nat :| i < k < n && Cuts(tr, k);
      FinishedUntilStart(tr, k, n);
      var s: nat :| k < s < n && tr[s].Start?;
      assert Turns(tr, s);
    }
  }

  lemma {:induction false} StillActive(tr: seq<Event>, i: nat, n: nat)
    requires n <= |tr| && i < n && Routed(tr, i) && !Ended(tr, n, i)
    ensures Active(tr, n)
  {
    if n > i + 1 {
      assert !Cuts(tr, n - 1);
      StillActive(tr, i, n - 1);
    }
  }

  lemma OpenSinceBelow(tr: seq<Event>, n: nat)
    requires 0 < n <= |tr|
    ensures OpenSince(tr, n) < n
  {
  }

  /** A receipt shares the open interval of a routed event exactly when it came after the
      interval opened. */
  lemma ReceiptInOpenInterval(tr: seq<Event>, n: nat, i: nat, j: nat)
    requires n <= |tr| && i < n && j < n && Routed(tr, i) && !Ended(tr, n, i)
    ensures SameInterval(tr, i, j) <==> OpenSince(tr, n) <= j
  {
    var o := OpenSince(tr, n);
    UncutIsOpen(tr, n, i);
    if j < o { assert Cuts(tr, o); }
    else if j < i {
      forall k | j < k <= i ensures !Cuts(tr, k) {
        if Cuts(tr, k) {
          assert k != i;
          FinishedUntilStart(tr, k, i);
          var s: nat :| k < s < i && tr[s].Start?;
          assert Turns(tr, s);
        }
      }
    }
  }

  // ---------------------------------------------------------------- the refinement invariant

  ghost predicate Incurred(tr: seq<Event>, n: nat, c: Charge)
    requires n <= |tr|
  {
    exists i: nat :: OpenSince(tr, n) <= i < n && Incurs(tr, i, c)
  }

  ghost predicate Receipted(tr: seq<Event>, n: nat)
    requires n <= |tr|
  {
    exists j: nat :: OpenSince(tr, n) <= j < n && Reports(tr, j, CashAmount)
  }

  /** Intervals that owe a receipt and are over. */
  ghost predicate ClosedDebt(tr: seq<Event>, n: nat, c: Charge) {
    exists i: nat :: Owing(tr, n, i, c) && Ended(tr, n, i)
  }

  /** The open interval owes a receipt. */
  ghost predicate OpenDebt(tr: seq<Event>, n: nat, c: Charge) {
    exists i: nat :: Owing(tr, n, i, c) && !Ended(tr, n, i)
  }

  lemma OpenDebtMeans(tr: seq<Event>, n: nat, c: Charge)
    requires n <= |tr|
    ensures OpenDebt(tr, n, c) <==> Active(tr, n) && Incurred(tr, n, c) && !Receipted(tr, n)
  {
    if OpenDebt(tr, n, c) {
      var i: nat :| Owing(tr, n, i, c) && !Ended(tr, n, i);
      UncutIsOpen(tr, n, i);
      if Receipted(tr, n) {
        var j: nat :| OpenSince(tr, n) <= j < n && Reports(tr, j, CashAmount);
        ReceiptInOpenInterval(tr, n, i, j);
      }
    } else if Active(tr, n) && Incurred(tr, n, c) && !Receipted(tr, n) {
      var i: nat :| OpenSince(tr, n) <= i < n && Incurs(tr, i, c);
      UncutIsOpen(tr, n, i);
      forall j: nat | j < n && Reports(tr, j, CashAmount) ensures !SameInterval(tr, i, j) {
        ReceiptInOpenInterval(tr, n, i, j);
      }
      assert Owing(tr, n, i, c);
    }
  }

  /** One more event settles the fate of the open interval only if it cuts it. */
  lemma ClosedDebtStep(tr: seq<Event>, n: nat, c: Charge)
    requires n < |tr|
    ensures ClosedDebt(tr, n + 1, c) <==> ClosedDebt(tr, n, c) || (Cuts(tr, n) && OpenDebt(tr, n, c))
  {
    forall i: nat | Owing(tr, n, i, c) && (Ended(tr, n, i) || Cuts(tr, n))
      ensures Owing(tr, n + 1, i, c) && Ended(tr, n + 1, i)
    {
      assert Cuts(tr, n) ==> i < n < n + 1;
      if Reports(tr, n, CashAmount) {
        assert !Cuts(tr, n);
        var k: nat :| i < k < n && Cuts(tr, k);
        assert !SameInterval(tr, i, n);
      }
    }
    forall i: nat | Owing(tr, n + 1, i, c) && Ended(tr, n + 1, i)
      ensures Owing(tr, n, i, c) && (Ended(tr, n, i) || Cuts(tr, n))
    {
      var k: nat :| i < k < n + 1 && Cuts(tr, k);
      assert i < n;
    }
    if ClosedDebt(tr, n + 1, c) {
      var i: nat :| Owing(tr, n + 1, i, c) && Ended(tr, n + 1, i);
      assert Owing(tr, n, i, c);
    }
  }

  ghost predicate FlagsMean(t: Tracker, tr: seq<Event>, n: nat)
    requires n <= |tr|
  {
    var a := t.attempt;
    && t.context == Context(tr, n)
    && a.active == Active(tr, n)
    && a.sawEvent == Streamed(tr, n)
    && a.intervalKey == LastKey(tr, n)
    && (a.paid <==> Incurred(tr, n, Paid))
    && (a.allowance <==> Incurred(tr, n, Allowance))
    && (a.cashReceipt <==> Receipted(tr, n))
    && (t.latched.unresolvedPaid <==> ClosedDebt(tr, n, Paid) || RoutelessAttempt(tr, n))
    && (t.latched.allowanceUnobserved <==> ClosedDebt(tr, n, Allowance))
    // once no attempt runs, whatever the last one owed has been latched
    && (!a.active && a.sawEvent && (a.intervalKey.None? || PaidWithoutReceipt(a)) ==> t.latched.unresolvedPaid)
    && (!a.active && a.sawEvent && AllowanceWithoutReceipt(a) ==> t.latched.allowanceUnobserved)
  }

  lemma RoutelessStep(tr: seq<Event>, n: nat)
    requires n < |tr|
    ensures RoutelessAttempt(tr, n + 1) <==> RoutelessAttempt(tr, n) || EndsRouteless(tr, n)
  {
  }

  lemma IncurredStep(tr: seq<Event>, n: nat, c: Charge)
    requires n < |tr|
    ensures Incurred(tr, n + 1, c) <==> (!Turns(tr, n) && Incurred(tr, n, c)) || Incurs(tr, n, c)
  {
    if Incurs(tr, n, c) { assert OpenSince(tr, n + 1) <= n; }
  }

  lemma ReceiptedStep(tr: seq<Event>, n: nat)
    requires n < |tr|
    ensures Receipted(tr, n + 1) <==> (!Turns(tr, n) && Receipted(tr, n)) || Reports(tr, n, CashAmount)
  {
    if Reports(tr, n, CashAmount) { assert OpenSince(tr, n + 1) <= n; }
  }

  /** An interval that incurred something streamed an event in the latest attempt. */
  lemma {:induction false} IncurredWasStreamed(tr: seq<Event>, n: nat, i: nat)
    requires n <= |tr| && OpenSince(tr, n) <= i < n && Routed(tr, i)
    ensures Streamed(tr, n) && LastKey(tr, n).Some?
  {
    if n > i + 1 {
      assert !Turns(tr, n - 1);
      IncurredWasStreamed(tr, n - 1, i);
    }
  }

  /** How each ingredient of the meaning moves with event `n`. */
  lemma MeaningStep(tr: seq<Event>, n: nat, c: Charge)
    requires n < |tr|
    ensures ClosedDebt(tr, n + 1, c)
       <==> ClosedDebt(tr, n, c) || (Cuts(tr, n) && Active(tr, n) && Incurred(tr, n, c) && !Receipted(tr, n))
    ensures Incurred(tr, n + 1, c) <==> (!Turns(tr, n) && Incurred(tr, n, c)) || Incurs(tr, n, c)
    ensures Receipted(tr, n + 1) <==> (!Turns(tr, n) && Receipted(tr, n)) || Reports(tr, n, CashAmount)
    ensures RoutelessAttempt(tr, n + 1) <==> RoutelessAttempt(tr, n) || EndsRouteless(tr, n)
    ensures Incurred(tr, n, c) ==> Streamed(tr, n) && LastKey(tr, n).Some?
  {
    ClosedDebtStep(tr, n, c);
    OpenDebtMeans(tr, n, c);
    RoutelessStep(tr, n);
    IncurredStep(tr, n, c);
    ReceiptedStep(tr, n);
    if Incurred(tr, n, c) {
      var i: nat :| OpenSince(tr, n) <= i < n && Incurs(tr, i, c);
      IncurredWasStreamed(tr, n, i);
    }
  }

  lemma FlagsStepStart(t: Tracker, tr: seq<Event>, n: nat)
    requires n < |tr| && FlagsMean(t, tr, n) && tr[n].Start?
    ensures FlagsMean(Apply(t, tr[n]), tr, n + 1)
  {
    MeaningStep(tr, n, Paid);
    MeaningStep(tr, n, Allowance);
  }

  lemma FlagsStepFinish(t: Tracker, tr: seq<Event>, n: nat)
    requires n < |tr| && FlagsMean(t, tr, n) && tr[n].Finish?
    ensures FlagsMean(Apply(t, tr[n]), tr, n + 1)
  {
    MeaningStep(tr, n, Paid);
    MeaningStep(tr, n, Allowance);
  }

  lemma FlagsStepUsage(t: Tracker, tr: seq<Event>, n: nat)
    requires n < |tr| && FlagsMean(t, tr, n) && tr[n].Usage?
    ensures FlagsMean(Apply(t, tr[n]), tr, n + 1)
  {
    UsageOnlyReceipts(t, tr, n);
    UsageKeepsFlags(t, Apply(t, tr[n]), tr, n);
  }

  /** Of the flags a usage report only touches the cash receipt. */
  lemma UsageOnlyReceipts(t: Tracker, tr: seq<Event>, n: nat)
    requires n < |tr| && tr[n].Usage? && t.context == Context(tr, n)
    ensures var u := Apply(t, tr[n]);
            && u.context == t.context && u.attempt == t.attempt.(cashReceipt := u.attempt.cashReceipt)
            && u.attempt.cashReceipt == (t.attempt.cashReceipt || Reports(tr, n, CashAmount))
            && u.latched == t.latched.(unknownPaidAmount := u.latched.unknownPaidAmount)
  {
  }

  lemma UsageKeepsFlags(t: Tracker, u: Tracker, tr: seq<Event>, n: nat)
    requires n < |tr| && FlagsMean(t, tr, n) && tr[n].Usage?
    requires u.context == t.context && u.attempt == t.attempt.(cashReceipt := u.attempt.cashReceipt)
    requires u.attempt.cashReceipt == (t.attempt.cashReceipt || Reports(tr, n, CashAmount))
    requires u.latched == t.latched.(unknownPaidAmount := u.latched.unknownPaidAmount)
    ensures FlagsMean(u, tr, n + 1)
  {
    MeaningStep(tr, n, Paid);
    MeaningStep(tr, n, Allowance);
  }

  lemma FlagsStepStream(t: Tracker, tr: seq<Event>, n: nat)
    requires n < |tr| && FlagsMean(t, tr, n) && tr[n].Stream?
    ensures FlagsMean(Apply(t, tr[n]), tr, n + 1)
  {
    MeaningStep(tr, n, Paid);
    MeaningStep(tr, n, Allowance);
  }

  lemma {:induction false} FlagsAlways(totals: UsageTotals, tr: seq<Event>, n: nat)
    requires n <= |tr|
    ensures FlagsMean(After(totals, tr, n), tr, n)
  {
    if n > 0 {
      FlagsAlways(totals, tr, n - 1);
      var t := After(totals, tr, n - 1);
      match tr[n-1]
      case Start(_) => FlagsStepStart(t, tr, n - 1);
      case Stream(_, _) => FlagsStepStream(t, tr, n - 1);
      case Usage(_, _, _, _, _) => FlagsStepUsage(t, tr, n - 1);
      case Finish => FlagsStepFinish(t, tr, n - 1);
    }
  }

  // ---------------------------------------------------------------- totals and sightings

  ghost predicate Somewhere(tr: seq<Event>, n: nat, kind: AmountKind) {
    exists i: nat :: i < n && Reports(tr, i, kind)
  }

  predicate EstimatedReport(tr: seq<Event>, i: nat, kind: AmountKind) {
    Reports(tr, i, kind) && tr[i].estimated
  }

  ghost predicate SomewhereEstimated(tr: seq<Event>, n: nat, kind: AmountKind) {
    exists i: nat :: i < n && EstimatedReport(tr, i, kind)
  }

  ghost predicate SumsMean(t: Tracker, totals: UsageTotals, tr: seq<Event>, n: nat)
    requires n <= |tr|
  {
    && t.totals.cashUsd == totals.cashUsd + SumOf(tr, n, CashAmount)
    && t.totals.valuationUsd == totals.valuationUsd + SumOf(tr, n, ValuationAmount)
    && t.totals.unknownUsd == totals.unknownUsd + SumOf(tr, n, UnknownAmount)
    && (t.totals.cashEstimated <==> totals.cashEstimated || SomewhereEstimated(tr, n, CashAmount))
    && (t.totals.valuationEstimated <==> totals.valuationEstimated || SomewhereEstimated(tr, n, ValuationAmount))
  }

  ghost predicate SawRouted(tr: seq<Event>, n: nat) {
    exists i: nat :: i < n && Routed(tr, i)
  }

  ghost predicate SightingsMean(t: Tracker, tr: seq<Event>, n: nat)
    requires n <= |tr|
  {
    && (t.seen.cashReceipt <==> Somewhere(tr, n, CashAmount))
    && (t.seen.valuation <==> Somewhere(tr, n, ValuationAmount))
    && (t.seen.unknownUsage <==> Somewhere(tr, n, UnknownAmount))
    && (t.seen.route <==> SawRouted(tr, n))
    && (t.latched.unknownPaidAmount <==> UnknownOnPaidWork(tr, n))
  }

  lemma SightingsStep(tr: seq<Event>, n: nat, kind: AmountKind)
    requires n < |tr|
    ensures Somewhere(tr, n + 1, kind) <==> Somewhere(tr, n, kind) || Reports(tr, n, kind)
    ensures SomewhereEstimated(tr, n + 1, kind) <==> SomewhereEstimated(tr, n, kind) || EstimatedReport(tr, n, kind)
  {
    if Reports(tr, n, kind) { assert n < n + 1; }
  }

  lemma UnknownStep(tr: seq<Event>, n: nat)
    requires n < |tr|
    ensures UnknownOnPaidWork(tr, n + 1)
       <==> UnknownOnPaidWork(tr, n) || (Reports(tr, n, UnknownAmount) && IsPaidUsage(tr, n))
    ensures SawRouted(tr, n + 1) <==> SawRouted(tr, n) || Routed(tr, n)
  {
    if Reports(tr, n, UnknownAmount) && IsPaidUsage(tr, n) { assert n < n + 1; }
    if Routed(tr, n) { assert n < n + 1; }
  }

  lemma {:induction false} ContextAlways(totals: UsageTotals, tr: seq<Event>, n: nat)
    requires n <= |tr|
    ensures After(totals, tr, n).context == Context(tr, n) && After(totals, tr, n).attempt.active == Active(tr, n)
  {
    if n > 0 { ContextAlways(totals, tr, n - 1); }
  }

  lemma {:induction false} SumsAlways(totals: UsageTotals, tr: seq<Event>, n: nat)
    requires n <= |tr|
    ensures SumsMean(After(totals, tr, n), totals, tr, n)
  {
    if n > 0 {
      SumsAlways(totals, tr, n - 1);
      ContextAlways(totals, tr, n - 1);
      SumsStep(After(totals, tr, n - 1), totals, tr, n - 1);
    }
  }

  lemma SumsStep(t: Tracker, totals: UsageTotals, tr: seq<Event>, n: nat)
    requires n < |tr| && SumsMean(t, totals, tr, n) && t.context == Context(tr, n)
    ensures SumsMean(Apply(t, tr[n]), totals, tr, n + 1)
  {
    SightingsStep(tr, n, CashAmount);
    SightingsStep(tr, n, ValuationAmount);
  }

  /** What event `n` adds to the sightings of a tracker. */
  predicate SightingsMove(t: Tracker, u: Tracker, tr: seq<Event>, n: nat)
    requires n < |tr|
  {
    && u.seen.cashReceipt == (t.seen.cashReceipt || Reports(tr, n, CashAmount))
    && u.seen.valuation == (t.seen.valuation || Reports(tr, n, ValuationAmount))
    && u.seen.unknownUsage == (t.seen.unknownUsage || Reports(tr, n, UnknownAmount))
    && u.seen.route == (t.seen.route || Routed(tr, n))
    && u.latched.unknownPaidAmount
       == (t.latched.unknownPaidAmount || (Reports(tr, n, UnknownAmount) && IsPaidUsage(tr, n)))
  }

  lemma UsageSightings(t: Tracker, e: Event)
    requires e.Usage?
    ensures var u := Apply(t, e);
            var kind := UsageAmountKind(e.route, e.amount, Over(e.evidence, t.context));
            && u.seen.route == t.seen.route
            && (e.usd < 0.0 ==> u == t)
            && (e.usd >= 0.0 && kind.CashAmount? ==>
                  u.seen == t.seen.(cashReceipt := true) && u.latched == t.latched)
            && (e.usd >= 0.0 && kind.ValuationAmount? ==>
                  u.seen == t.seen.(valuation := true) && u.latched == t.latched)
            && (e.usd >= 0.0 && kind.UnknownAmount? ==>
                  && u.seen == t.seen.(unknownUsage := true)
                  && u.latched.unknownPaidAmount
                     == (t.latched.unknownPaidAmount || !OrdinaryIncluded(e.route, Over(e.evidence, t.context))))
  {
  }

  lemma ApplyMovesSightings(t: Tracker, tr: seq<Event>, n: nat)
    requires n < |tr| && t.context == Context(tr, n) && t.attempt.active == Active(tr, n)
    ensures SightingsMove(t, Apply(t, tr[n]), tr, n)
  {
    if tr[n].Usage? { UsageMovesSightings(t, Apply(t, tr[n]), tr, n); }
  }

  lemma UsageMovesSightings(t: Tracker, u: Tracker, tr: seq<Event>, n: nat)
    requires n < |tr| && t.context == Context(tr, n) && tr[n].Usage? && u == Apply(t, tr[n])
    ensures SightingsMove(t, u, tr, n)
  {
    UsageSightings(t, tr[n]);
  }

  lemma SightingsKept(t: Tracker, u: Tracker, tr: seq<Event>, n: nat)
    requires n < |tr| && SightingsMean(t, tr, n) && SightingsMove(t, u, tr, n)
    ensures SightingsMean(u, tr, n + 1)
  {
    SightingsStep(tr, n, CashAmount);
    SightingsStep(tr, n, ValuationAmount);
    SightingsStep(tr, n, UnknownAmount);
    UnknownStep(tr, n);
  }

  lemma {:induction false} SightingsAlways(totals: UsageTotals, tr: seq<Event>, n: nat)
    requires n <= |tr|
    ensures SightingsMean(After(totals, tr, n), tr, n)
  {
    if n > 0 {
      SightingsAlways(totals, tr, n - 1);
      ContextAlways(totals, tr, n - 1);
      ApplyMovesSightings(After(totals, tr, n - 1), tr, n - 1);
      SightingsKept(After(totals, tr, n - 1), After(totals, tr, n), tr, n - 1);
    }
  }

  // ---------------------------------------------------------------- the refinement theorems

  /** Debts of an interval, ended or not, are what the flags and the open interval say. */
  lemma DebtsAreTheFlags(tr: seq<Event>, c: Charge)
    ensures (exists i: nat :: Owing(tr, |tr|, i, c)) <==> ClosedDebt(tr, |tr|, c) || OpenDebt(tr, |tr|, c)
  {
    if exists i: nat :: Owing(tr, |tr|, i, c) {
      var i: nat :| Owing(tr, |tr|, i, c);
      assert Ended(tr, |tr|, i) || !Ended(tr, |tr|, i);
    }
  }

  lemma IncurredMeansStreamed(tr: seq<Event>, c: Charge)
    requires Incurred(tr, |tr|, c)
    ensures Streamed(tr, |tr|) && LastKey(tr, |tr|).Some?
  {
    var i: nat :| OpenSince(tr, |tr|) <= i < |tr| && Incurs(tr, i, c);
    IncurredWasStreamed(tr, |tr|, i);
  }

  /** Controllable cash knowledge, for every trace: unknown exactly for the four stated reasons;
      otherwise estimated exactly when some cash receipt (or the totals the tracker was given)
      was estimated. */
  lemma CashKnowledgeMeans(totals: UsageTotals, tr: seq<Event>)
    ensures SnapshotOf(After(totals, tr, |tr|)).cashKnowledge
         == if CashIsUnknown(tr) then Unknown
            else if totals.cashEstimated || SomewhereEstimated(tr, |tr|, CashAmount) then Estimated
            else Exact
  {
    FlagsAlways(totals, tr, |tr|);
    SumsAlways(totals, tr, |tr|);
    SightingsAlways(totals, tr, |tr|);
    DebtsAreTheFlags(tr, Paid);
    OpenDebtMeans(tr, |tr|, Paid);
    if Incurred(tr, |tr|, Paid) { IncurredMeansStreamed(tr, Paid); }
  }

  /** An allowance debit is unobserved exactly when some interval ran on an allowance whose
      route reports no debit, and no cash receipt fell into it. */
  lemma AllowanceDebitMeans(totals: UsageTotals, tr: seq<Event>)
    ensures SnapshotOf(After(totals, tr, |tr|)).allowanceDebitUnobserved
       <==> exists i: nat :: Owing(tr, |tr|, i, Allowance)
  {
    FlagsAlways(totals, tr, |tr|);
    DebtsAreTheFlags(tr, Allowance);
    OpenDebtMeans(tr, |tr|, Allowance);
    if Incurred(tr, |tr|, Allowance) { IncurredMeansStreamed(tr, Allowance); }
  }

  /** Valuation is unknown exactly when none was reported or some amount had no known meaning;
      the observed amounts are the kinds that were reported, zero included. */
  lemma ValuationKnowledgeMeans(totals: UsageTotals, tr: seq<Event>)
    ensures var s := SnapshotOf(After(totals, tr, |tr|));
            && s.valuationKnowledge ==
                 (if Somewhere(tr, |tr|, UnknownAmount) || !Somewhere(tr, |tr|, ValuationAmount) then Unknown
                  else if totals.valuationEstimated || SomewhereEstimated(tr, |tr|, ValuationAmount) then Estimated
                  else Exact)
            && (s.observedAmounts.cash <==> Somewhere(tr, |tr|, CashAmount))
            && (s.observedAmounts.valuation <==> Somewhere(tr, |tr|, ValuationAmount))
            && (s.observedAmounts.unknown <==> Somewhere(tr, |tr|, UnknownAmount))
  {
    SumsAlways(totals, tr, |tr|);
    SightingsAlways(totals, tr, |tr|);
  }

  /** The dollar totals are the sums of the reported amounts by their meaning. */
  lemma TotalsAreSums(totals: UsageTotals, tr: seq<Event>)
    ensures var t := After(totals, tr, |tr|).totals;
            && t.cashUsd == totals.cashUsd + SumOf(tr, |tr|, CashAmount)
            && t.valuationUsd == totals.valuationUsd + SumOf(tr, |tr|, ValuationAmount)
            && t.unknownUsd == totals.unknownUsd + SumOf(tr, |tr|, UnknownAmount)
  {
    SumsAlways(totals, tr, |tr|);
    SightingsAlways(totals, tr, |tr|);
  }
}
