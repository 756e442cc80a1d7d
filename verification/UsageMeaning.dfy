/** What the usage evidence means, read off its fields: which unlabelled amounts a subscription
    includes, what separates two billing intervals, which evidence is in force, and that a plain
    subscription attempt is never a reason to distrust a finite budget. */
module UsageMeaning {
  import opened Knowledge
  import opened UsageEvidence
  import opened UsageTrace
  import opened Settlements
  import L = LedgerModel

  // ---------------------------------------------------------------- what a subscription includes

  predicate StartsWith(s: string, prefix: string) {
    |s| >= |prefix| && s[..|prefix|] == prefix
  }

  /** A processing receipt that leaves the work with the subscription, by what was submitted: the
      standard tier unless a faster one was seen, nothing at all unless somebody asked for a paid
      tier, and anything when the vendor has no tiers to choose from. */
  predicate ReceiptIncludes(p: Processing) {
    if p.reason == Some("processing_control_unavailable") then true
    else match p.submitted
      case Some(Standard) => p.observed == SawStandard || p.observed == SawEconomy || p.observed == SawNothing
      case Some(Fast) => false
      case Some(Economy) => false
      case None =>
        && p.requested == None
        && (p.reason.Some? ==> p.reason.value != "native_explicit" && !StartsWith(p.reason.value, "paid_processing_"))
  }

  /** An amount nobody labelled, on a native session. */
  lemma UnlabelledSubscriptionUsage(e: Evidence)
    ensures var kind := UsageAmountKind(Some(LocalSession), None, e);
            match e.billing
            case Some(b) =>
              (match b.kind
               case Included => kind == ValuationAmount
               case PaidCredits => kind == UnknownAmount
               case CashBasis => kind == UnknownAmount
               case ValuationBasis => kind == UnknownAmount
               case UnknownBasis => kind == if e.processing.Some? && ReceiptIncludes(e.processing.value) then ValuationAmount else UnknownAmount)
            case None =>
              (match e.processing
               case None => kind == ValuationAmount
               case Some(p) => kind == if ReceiptIncludes(p) then ValuationAmount else UnknownAmount)
  {
  }

  /** On any other route, and for an amount with a label. */
  lemma OtherUsage(route: Option<Route>, amount: Option<AmountKind>, e: Evidence)
    ensures amount.Some? ==> UsageAmountKind(route, amount, e) == amount.value
    ensures route == Some(ApiKey) && amount == None ==> UsageAmountKind(route, amount, e) == CashAmount
    ensures route == None && amount == None ==> UsageAmountKind(route, amount, e) == UnknownAmount
  {
  }

  /** The work a receipt is owed for is exactly the work whose unlabelled amounts a subscription
      does not include; an allowance debit is only unobserved on included work that says so. */
  lemma PaidWork(route: Option<Route>, e: Evidence)
    ensures OrdinaryIncluded(route, e) <==> UsageAmountKind(route, None, e) == ValuationAmount
    ensures AllowanceDebitUnobserved(route, e) <==>
              UsageAmountKind(route, None, e) == ValuationAmount && e.billing.Some? && e.billing.value.debitUnobserved
  {
  }

  /** Two routed events belong to different billing intervals exactly when their routes differ,
      what is known of the tariff differs, or the debits do.  A receipt without a tariff counts as
      an unknown tariff. */
  lemma IntervalsDiffer(r: Route, e: Evidence, r': Route, e': Evidence)
    ensures KeyOf(r, e) != KeyOf(r', e') <==>
      || r != r'
      || (e.billing == None && e.processing == None) != (e'.billing == None && e'.processing == None)
      || TariffOf(e) != TariffOf(e')
      || (e.billing.Some? && e.billing.value.debitUnobserved) != (e'.billing.Some? && e'.billing.value.debitUnobserved)
  {
  }

  function TariffOf(e: Evidence): BasisKind {
    if e.billing.Some? then e.billing.value.kind else UnknownBasis
  }

  // ---------------------------------------------------------------- the evidence in force

  /** The event carries a processing receipt, or starts an attempt and so forgets the last one. */
  predicate SetsProcessing(tr: seq<Event>, i: nat) {
    i < |tr| && (tr[i].Start? || (tr[i].Stream? && tr[i].evidence.processing.Some?))
  }

  predicate SetsBilling(tr: seq<Event>, i: nat) {
    i < |tr| && (tr[i].Start? || (tr[i].Stream? && tr[i].evidence.billing.Some?))
  }

  /** Before event `n` the receipt in force is that of the latest event that carried one, or
      started the attempt; */
  lemma {:induction false} ReceiptInForce(tr: seq<Event>, n: nat, i: nat)
    requires i < n <= |tr| && SetsProcessing(tr, i) && forall j: nat :: i < j < n ==> !SetsProcessing(tr, j)
    ensures Context(tr, n).processing == tr[i].evidence.processing
  {
    if n > i + 1 {
      assert !SetsProcessing(tr, n - 1);
      ReceiptInForce(tr, n - 1, i);
    }
  }

  /** and so is the tariff; */
  lemma {:induction false} TariffInForce(tr: seq<Event>, n: nat, i: nat)
    requires i < n <= |tr| && SetsBilling(tr, i) && forall j: nat :: i < j < n ==> !SetsBilling(tr, j)
    ensures Context(tr, n).billing == tr[i].evidence.billing
  {
    if n > i + 1 {
      assert !SetsBilling(tr, n - 1);
      TariffInForce(tr, n - 1, i);
    }
  }

  /** where no event carried one there is none. */
  lemma {:induction false} NothingInForce(tr: seq<Event>, n: nat)
    requires n <= |tr|
    ensures (forall j: nat :: j < n ==> !SetsProcessing(tr, j)) ==> Context(tr, n).processing == None
    ensures (forall j: nat :: j < n ==> !SetsBilling(tr, j)) ==> Context(tr, n).billing == None
  {
    if n > 0 {
      NothingInForce(tr, n - 1);
      assert !SetsProcessing(tr, n - 1) ==> !tr[n-1].Start?;
      assert !SetsBilling(tr, n - 1) ==> !tr[n-1].Start?;
    }
  }

  /** A usage event's own evidence comes before what is in force. */
  lemma OwnEvidenceFirst(tr: seq<Event>, i: nat)
    requires i < |tr| && tr[i].Usage?
    ensures var own, before := tr[i].evidence, Context(tr, i);
            KindAt(tr, i) == UsageAmountKind(tr[i].route, tr[i].amount,
              Evidence(if own.processing == None then before.processing else own.processing,
                       if own.billing == None then before.billing else own.billing))
  {
  }

  // ---------------------------------------------------------------- unknown amounts on paid work

  /** What was reported with an unknown meaning on work no subscription includes. */
  function UnknownPaid(tr: seq<Event>, n: nat): real
    requires n <= |tr|
  {
    if n == 0 then 0.0
    else UnknownPaid(tr, n - 1) + if Reports(tr, n - 1, UnknownAmount) && IsPaidUsage(tr, n - 1) then tr[n-1].usd else 0.0
  }

  lemma {:induction false} UnknownPaidIsTheSum(totals: UsageTotals, tr: seq<Event>, n: nat)
    requires n <= |tr|
    ensures After(totals, tr, n).unknownPaidUsd == UnknownPaid(tr, n)
  {
    if n > 0 {
      ContextAlways(totals, tr, n - 1);
      UnknownPaidIsTheSum(totals, tr, n - 1);
    }
  }

  // ---------------------------------------------------------------- the plain subscription attempt

  /** Native sessions without receipts or tariffs, and no amount of unknown meaning. */
  predicate PlainEvent(e: Event) {
    match e
    case Start(evidence) => evidence == NO_EVIDENCE
    case Stream(route, evidence) => route == Some(LocalSession) && evidence == NO_EVIDENCE
    case Usage(route, _, _, amount, evidence) =>
      evidence == NO_EVIDENCE && (if amount.Some? then amount.value != UnknownAmount else route.Some?)
    case Finish => true
  }

  predicate PlainTrace(tr: seq<Event>) {
    forall i :: 0 <= i < |tr| ==> PlainEvent(tr[i])
  }

  lemma {:induction false} PlainContext(tr: seq<Event>, n: nat)
    requires n <= |tr| && PlainTrace(tr)
    ensures Context(tr, n) == NO_EVIDENCE
  {
    if n > 0 {
      PlainContext(tr, n - 1);
      assert PlainEvent(tr[n-1]);
    }
  }

  lemma {:induction false} PlainStreamsAreRouted(tr: seq<Event>, n: nat)
    requires n <= |tr| && PlainTrace(tr) && Streamed(tr, n)
    ensures LastKey(tr, n).Some?
  {
    assert PlainEvent(tr[n-1]);
    if !Routed(tr, n - 1) { PlainStreamsAreRouted(tr, n - 1); }
  }

  lemma PlainUsage(tr: seq<Event>, k: nat)
    requires k < |tr| && PlainTrace(tr) && tr[k].Usage?
    ensures KindAt(tr, k) != UnknownAmount
  {
    var e := tr[k];
    assert PlainEvent(e);
    PlainContext(tr, k);
    assert KindAt(tr, k) == UsageAmountKind(e.route, e.amount, NO_EVIDENCE);
    if e.amount == None {
      match e.route.value
      case LocalSession => UnlabelledSubscriptionUsage(NO_EVIDENCE);
      case ApiKey => OtherUsage(e.route, e.amount, NO_EVIDENCE);
    }
  }

  lemma PlainCashIsKnown(tr: seq<Event>, i: nat)
    requires PlainTrace(tr) && Routed(tr, i)
    ensures !CashIsUnknown(tr)
    ensures !exists k: nat :: Owing(tr, |tr|, k, Allowance)
  {
    forall k: nat ensures !Incurs(tr, k, Paid) && !Incurs(tr, k, Allowance) {
      if Routed(tr, k) {
        PlainContext(tr, k + 1);
        UnlabelledSubscriptionUsage(NO_EVIDENCE);
        assert PlainEvent(tr[k]);
      }
    }
    forall k: nat ensures !Reports(tr, k, UnknownAmount) {
      if k < |tr| && tr[k].Usage? { PlainUsage(tr, k); }
    }
    forall f: nat ensures !EndsRouteless(tr, f) {
      if f < |tr| && Streamed(tr, f) { PlainStreamsAreRouted(tr, f); }
    }
  }

  /** A plain subscription attempt that streamed anything at all: cash is known, exactly or by
      estimate, no allowance debit is missing, and settling it on any live lease never makes a
      finite budget unverifiable. */
  lemma PlainSubscriptionIsVerifiable(f: L.Financial, v: L.View, id: L.Id, tr: seq<Event>, i: nat,
                                      totalUsd: real, estimated: bool, authMode: Option<Route>)
    requires Settleable(f, v, id) && PlainTrace(tr) && Routed(tr, i)
    ensures var t := After(NO_USAGE, tr, |tr|);
            var g := L.Settle(f, v, id, AttemptUsageCostSettlement(totalUsd, estimated, authMode, Some(SplitOf(t)))).0;
            && SnapshotOf(t).cashKnowledge == (if SomewhereEstimated(tr, |tr|, CashAmount) then Estimated else Exact)
            && !SnapshotOf(t).allowanceDebitUnobserved
            && g.unverifiable == f.unverifiable
  {
    PlainCashIsKnown(tr, i);
    CashKnowledgeMeans(NO_USAGE, tr);
    AllowanceDebitMeans(NO_USAGE, tr);
    TraceToLedger(f, v, id, tr, totalUsd, estimated, authMode);
  }
}
