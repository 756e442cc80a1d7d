/** The usage tracker: folds an attempt's event stream into the flags a settlement is made
    from.  The class is proved against the fold; what the flags mean over a whole trace is
    proved in `UsageTrace.dfy`. */
module UsageEvidence {
  import opened Knowledge

  datatype Route = LocalSession | ApiKey

  datatype Preference = Standard | Fast | Economy

  datatype ObservedService = SawStandard | SawFast | SawEconomy | SawMixed | SawNothing

  datatype Processing = Processing(
    requested: Option<Preference>,
    submitted: Option<Preference>,
    observed: ObservedService,
    reason: Option<string>)

  datatype BasisKind = Included | PaidCredits | CashBasis | ValuationBasis | UnknownBasis

  datatype Billing = Billing(kind: BasisKind, debitUnobserved: bool)

  datatype Evidence = Evidence(processing: Option<Processing>, billing: Option<Billing>)

  datatype AmountKind = CashAmount | ValuationAmount | UnknownAmount

  const NO_EVIDENCE := Evidence(None, None)

  /** `a` where present, else `b`. */
  function Over(a: Evidence, b: Evidence): Evidence {
    Evidence(if a.processing.Some? then a.processing else b.processing,
             if a.billing.Some? then a.billing else b.billing)
  }

  predicate BillingSilent(e: Evidence) {
    e.billing.None? || e.billing.value.kind.UnknownBasis?
  }

  predicate StandardSubmitted(p: Processing) {
    p.submitted == Some(Standard) && !p.observed.SawFast? && !p.observed.SawMixed?
  }

  predicate NoServiceChosen(p: Processing) {
    p.requested.None? && p.submitted.None? && p.reason != Some("native_explicit")
    && !(p.reason.Some? && "paid_processing_" <= p.reason.value)
  }

  /** Work the subscription includes, as far as the evidence in force can tell. */
  predicate OrdinaryIncluded(route: Option<Route>, e: Evidence) {
    route == Some(LocalSession)
    && (|| (e.billing.Some? && e.billing.value.kind.Included?)
        || (e.processing.Some? && e.processing.value.reason == Some("processing_control_unavailable") && BillingSilent(e))
        || (e.processing.Some? && (StandardSubmitted(e.processing.value) || NoServiceChosen(e.processing.value))
            && BillingSilent(e))
        || (e.processing.None? && e.billing.None?))
  }

  predicate AllowanceDebitUnobserved(route: Option<Route>, e: Evidence) {
    e.billing.Some? && e.billing.value.debitUnobserved && OrdinaryIncluded(route, e)
  }

  /** An amount the vendor did not label is cash only on an API key, whatever tariff is in force. */
  function UsageAmountKind(route: Option<Route>, amount: Option<AmountKind>, e: Evidence): (kind: AmountKind)
    ensures amount.None? ==> (kind.CashAmount? <==> route == Some(ApiKey))
    ensures amount.None? ==> (kind.ValuationAmount? <==> OrdinaryIncluded(route, e))
  {
    if amount.Some? then amount.value
    else if route == Some(ApiKey) then CashAmount
    else if OrdinaryIncluded(route, e) then ValuationAmount
    else UnknownAmount
  }

  /** What delimits a billing interval inside an attempt. */
  datatype Key = Key(route: Route, kind: Option<BasisKind>, debitUnobserved: bool)

  function KeyOf(route: Route, e: Evidence): Key {
    Key(route,
        if e.billing.Some? then Some(e.billing.value.kind)
        else if e.processing.Some? then Some(UnknownBasis) else None,
        e.billing.Some? && e.billing.value.debitUnobserved)
  }

  datatype UsageTotals = UsageTotals(
    cashUsd: real, valuationUsd: real, unknownUsd: real, cashEstimated: bool, valuationEstimated: bool)

  const NO_USAGE := UsageTotals(0.0, 0.0, 0.0, false, false)

  /** The attempt in progress, or the last one: its open interval and what it has shown. */
  datatype Attempt = Attempt(
    active: bool, sawEvent: bool, paid: bool, cashReceipt: bool, allowance: bool, intervalKey: Option<Key>)

  const NO_ATTEMPT := Attempt(false, false, false, false, false, None)

  datatype Seen = Seen(route: bool, cashReceipt: bool, unknownUsage: bool, valuation: bool)

  datatype Latched = Latched(unresolvedPaid: bool, unknownPaidAmount: bool, allowanceUnobserved: bool)

  datatype Tracker = Tracker(
    totals: UsageTotals, unknownPaidUsd: real, context: Evidence, attempt: Attempt, seen: Seen, latched: Latched)

  function NewTracker(totals: UsageTotals): Tracker {
    Tracker(totals, 0.0, NO_EVIDENCE, NO_ATTEMPT, Seen(false, false, false, false), Latched(false, false, false))
  }

  predicate PaidWithoutReceipt(a: Attempt) { a.paid && !a.cashReceipt }

  predicate AllowanceWithoutReceipt(a: Attempt) { a.allowance && !a.cashReceipt }

  function FinishLatches(l: Latched, a: Attempt): Latched {
    l.(unresolvedPaid := l.unresolvedPaid || (a.sawEvent && (a.intervalKey.None? || PaidWithoutReceipt(a))),
       allowanceUnobserved := l.allowanceUnobserved || (a.sawEvent && AllowanceWithoutReceipt(a)))
  }

  function FinishAttempt(t: Tracker): Tracker {
    t.(latched := FinishLatches(t.latched, t.attempt), attempt := t.attempt.(active := false))
  }

  function StartAttempt(t: Tracker, e: Evidence): Tracker {
    t.(latched := if t.attempt.active then FinishLatches(t.latched, t.attempt) else t.latched,
       attempt := NO_ATTEMPT.(active := true),
       context := e)
  }

  predicate NewInterval(a: Attempt, key: Key) {
    a.intervalKey.Some? && a.intervalKey.value != key
  }

  /** Leaving an interval that was paid for, or allowance-billed, without a receipt is final. */
  function TurnLatches(l: Latched, a: Attempt, key: Key): Latched {
    if NewInterval(a, key) then
      l.(unresolvedPaid := l.unresolvedPaid || PaidWithoutReceipt(a),
         allowanceUnobserved := l.allowanceUnobserved || AllowanceWithoutReceipt(a))
    else l
  }

  function EnterInterval(a: Attempt, key: Key, paid: bool, allowance: bool): Attempt {
    var same := !NewInterval(a, key);
    Attempt(a.active, a.sawEvent, (same && a.paid) || paid, same && a.cashReceipt, (same && a.allowance) || allowance,
            Some(key))
  }

  function ObserveEvent(t: Tracker, route: Option<Route>, e: Evidence): Tracker {
    var context := Over(e, t.context);
    var a := t.attempt.(sawEvent := true);
    if !a.active then t.(context := context)
    else if route.None? then t.(context := context, attempt := a)
    else
      var key := KeyOf(route.value, context);
      t.(context := context,
         seen := t.seen.(route := true),
         latched := TurnLatches(t.latched, a, key),
         attempt := EnterInterval(a, key, !OrdinaryIncluded(route, context),
                                  AllowanceDebitUnobserved(route, context)))
  }

  function ObserveUsage(t: Tracker, route: Option<Route>, usd: real, estimated: bool,
                        amount: Option<AmountKind>, e: Evidence): Tracker
  {
    if usd < 0.0 then t
    else
      var context := Over(e, t.context);
      match UsageAmountKind(route, amount, context)
      case CashAmount =>
        t.(seen := t.seen.(cashReceipt := true), attempt := t.attempt.(cashReceipt := true),
           totals := t.totals.(cashUsd := t.totals.cashUsd + usd,
                               cashEstimated := t.totals.cashEstimated || estimated))
      case ValuationAmount =>
        t.(seen := t.seen.(valuation := true),
           totals := t.totals.(valuationUsd := t.totals.valuationUsd + usd,
                               valuationEstimated := t.totals.valuationEstimated || estimated))
      case UnknownAmount =>
        var paid := !OrdinaryIncluded(route, context);
        t.(seen := t.seen.(unknownUsage := true),
           latched := t.latched.(unknownPaidAmount := t.latched.unknownPaidAmount || paid),
           unknownPaidUsd := t.unknownPaidUsd + (if paid then usd else 0.0),
           totals := t.totals.(unknownUsd := t.totals.unknownUsd + usd))
  }

  datatype ObservedAmounts = ObservedAmounts(cash: bool, valuation: bool, unknown: bool)

  datatype Snapshot = Snapshot(
    cashKnowledge: CostKnowledge,
    valuationKnowledge: CostKnowledge,
    allowanceDebitUnobserved: bool,
    observedAmounts: ObservedAmounts)

  function SnapshotOf(t: Tracker): Snapshot {
    var cashUnknown := t.latched.unknownPaidAmount || t.latched.unresolvedPaid
                       || (t.attempt.sawEvent && PaidWithoutReceipt(t.attempt)) || !t.seen.route;
    Snapshot(
      if cashUnknown then Unknown else if t.totals.cashEstimated then Estimated else Exact,
      if t.seen.unknownUsage || !t.seen.valuation then Unknown
      else if t.totals.valuationEstimated then Estimated else Exact,
      t.latched.allowanceUnobserved || (t.attempt.sawEvent && AllowanceWithoutReceipt(t.attempt)),
      ObservedAmounts(t.seen.cashReceipt, t.seen.valuation, t.seen.unknownUsage))
  }

  class UsageCostTracker {
    var totals: UsageTotals
    var unknownPaidUsd: real
    var context: Evidence
    var attempt: Attempt
    var seen: Seen
    var latched: Latched

    constructor (totals: UsageTotals)
      ensures Value() == NewTracker(totals)
    {
      this.totals, unknownPaidUsd, context := totals, 0.0, NO_EVIDENCE;
      attempt := NO_ATTEMPT;
      seen := Seen(false, false, false, false);
      latched := Latched(false, false, false);
    }

    ghost function Value(): Tracker
      reads this
    {
      Tracker(totals, unknownPaidUsd, context, attempt, seen, latched)
    }

    method Start(e: Evidence)
      modifies this
      ensures Value() == StartAttempt(old(Value()), e)
    {
      if attempt.active { Finish(); }
      attempt := Attempt(true, false, false, false, false, None);
      context := e;
    }

    method Event(route: Option<Route>, e: Evidence)
      modifies this
      ensures Value() == ObserveEvent(old(Value()), route, e)
    {
      context := Evidence(if e.processing.Some? then e.processing else context.processing,
                          if e.billing.Some? then e.billing else context.billing);
      if !attempt.active { return; }
      attempt := attempt.(sawEvent := true);
      if route.None? { return; }
      seen := seen.(route := true);
      Enter(KeyOf(route.value, context), !OrdinaryIncluded(route, context),
            AllowanceDebitUnobserved(route, context));
    }

    /** Moves to the interval of `key`, closing the open one when the key changed. */
    method Enter(key: Key, paid: bool, allowance: bool)
      modifies this`latched, this`attempt
      ensures latched == TurnLatches(old(latched), old(attempt), key)
      ensures attempt == EnterInterval(old(attempt), key, paid, allowance)
    {
      var a := attempt;
      if a.intervalKey.Some? && a.intervalKey.value != key {
        var l := latched;
        latched := Latched(l.unresolvedPaid || (a.paid && !a.cashReceipt), l.unknownPaidAmount,
                           l.allowanceUnobserved || (a.allowance && !a.cashReceipt));
        a := Attempt(a.active, a.sawEvent, false, false, false, a.intervalKey);
      }
      attempt := Attempt(a.active, a.sawEvent, a.paid || paid, a.cashReceipt, a.allowance || allowance, Some(key));
    }

    method Usage(route: Option<Route>, usd: real, estimated: bool, amount: Option<AmountKind>, e: Evidence)
      modifies this
      ensures Value() == ObserveUsage(old(Value()), route, usd, estimated, amount, e)
    {
      if usd < 0.0 { return; }
      var kind := UsageAmountKind(route, amount, Over(e, context));
      if kind.CashAmount? {
        seen := seen.(cashReceipt := true);
        attempt := attempt.(cashReceipt := true);
        totals := totals.(cashUsd := totals.cashUsd + usd, cashEstimated := totals.cashEstimated || estimated);
      } else if kind.ValuationAmount? {
        seen := seen.(valuation := true);
        totals := totals.(valuationUsd := totals.valuationUsd + usd,
                          valuationEstimated := totals.valuationEstimated || estimated);
      } else {
        seen := seen.(unknownUsage := true);
        var paid := !OrdinaryIncluded(route, Over(e, context));
        latched := latched.(unknownPaidAmount := latched.unknownPaidAmount || paid);
        if paid { unknownPaidUsd := unknownPaidUsd + usd; }
        totals := totals.(unknownUsd := totals.unknownUsd + usd);
      }
    }

    method Finish()
      modifies this
      ensures Value() == FinishAttempt(old(Value()))
    {
      var open := attempt.paid && !attempt.cashReceipt;
      latched := latched.(
        unresolvedPaid := latched.unresolvedPaid
          || (attempt.sawEvent && (attempt.intervalKey.None? || open)),
        allowanceUnobserved := latched.allowanceUnobserved
          || (attempt.sawEvent && attempt.allowance && !attempt.cashReceipt));
      attempt := attempt.(active := false);
    }

    method TakeSnapshot() returns (s: Snapshot)
      ensures s == SnapshotOf(Value())
    {
      var cashUnknown := latched.unknownPaidAmount || latched.unresolvedPaid
                         || (attempt.sawEvent && attempt.paid && !attempt.cashReceipt) || !seen.route;
      s := Snapshot(
        if cashUnknown then Unknown else if totals.cashEstimated then Estimated else Exact,
        if seen.unknownUsage || !seen.valuation then Unknown
        else if totals.valuationEstimated then Estimated else Exact,
        latched.allowanceUnobserved || (attempt.sawEvent && attempt.allowance && !attempt.cashReceipt),
        ObservedAmounts(seen.cashReceipt, seen.valuation, seen.unknownUsage));
    }
  }
}
