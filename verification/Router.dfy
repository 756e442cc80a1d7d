/** Harness routing: eligibility, the three orderings, and the published reason.  Proves that
    the comparators are consistent, and that the reason names what really decided. */
module Router {
  import opened Knowledge
  import opened Sequences
  import opened StableSorting
  import L = LedgerModel
  import Q = Quota

  type Id = string

  datatype AuthVerification = Passed | NotPassed

  datatype AuthEvidence = AuthEvidence(route: Option<Q.CredentialRoute>, verification: AuthVerification)

  datatype Candidate = Candidate(
    harnessId: Id,
    available: bool,
    model: Q.ModelRef,
    effort: Option<Id>,
    costBilling: Option<L.Billing>,
    authRoute: Option<AuthEvidence>,
    billingKnowledge: Option<L.Billing>,
    incrementalCostUsd: Option<real>,
    credentialRoute: Option<Q.CredentialRoute>,
    credentialSubject: Option<Option<Id>>)

  datatype Goal = Auto | Quality | Economy

  datatype PaidFallback = Never | WhenUnavailable | AllowedWithinCap

  datatype TierRoute = TierRoute(harness: Id, model: Id, effort: Id)

  /** `tiers` are the user-declared tiers of the intent; `now` is the one pinned instant. */
  datatype Context = Context(goal: Goal, paidFallback: PaidFallback, tiers: seq<seq<TierRoute>>, now: real)

  datatype Reason =
    | SubscriptionEntitlementFirst
    | LowestIncrementalCash
    | QualityTier
    | ExpiringQuotaSlack
    | AllIncrementalCashUnknown
    | DeclaredOrder

  function BillingForAuthRoute(e: AuthEvidence): L.Billing {
    if e.route == Some(Q.ManagedApiKey) then L.Metered
    else if e.route == Some(Q.VendorNative) && e.verification.Passed? then L.SubscriptionEntitlement
    else L.UnknownBilling
  }

  function EffectiveBilling(c: Candidate): L.Billing {
    if c.costBilling.Some? then c.costBilling.value
    else if c.authRoute.Some? then BillingForAuthRoute(c.authRoute.value)
    else c.billingKnowledge.GetOr(L.UnknownBilling)
  }

  predicate IsIncrementalPaid(c: Candidate) {
    !EffectiveBilling(c).ProvenZero? && !EffectiveBilling(c).SubscriptionEntitlement?
  }

  predicate InTier(c: Candidate, tier: seq<TierRoute>) {
    c.model.Named? && c.effort.Some? && TierRoute(c.harnessId, c.model.id, c.effort.value) in tier
  }

  /** Index of the first tier that lists the candidate's exact route. */
  function TierIndex(c: Candidate, tiers: seq<seq<TierRoute>>): (r: Option<nat>)
    ensures r.Some? ==> r.value < |tiers| && InTier(c, tiers[r.value])
    ensures forall i :: 0 <= i < (if r.Some? then r.value else |tiers|) ==> !InTier(c, tiers[i])
  {
    if tiers == [] then None
    else if InTier(c, tiers[0]) then Some(0)
    else
      var rest := TierIndex(c, tiers[1..]);
      assert forall i :: 1 <= i < |tiers| ==> tiers[i] == tiers[1..][i-1];
      if rest.Some? then Some(rest.value + 1) else None
  }

  function QueryOf(c: Candidate, now: real): Q.Query {
    Q.Query(c.harnessId, c.credentialRoute, c.credentialSubject, now, c.model)
  }

  /** Everything an ordering can look at. */
  datatype Axes = Axes(paid: bool, cost: Option<real>, tier: Option<nat>, slack: Option<real>)

  ghost function AxesOf(e: Q.Evidence, ctx: Context, c: Candidate): Axes {
    Axes(IsIncrementalPaid(c), c.incrementalCostUsd, TierIndex(c, ctx.tiers),
         Q.BindingPaceSlack(e, QueryOf(c, ctx.now)))
  }

  // ---------------------------------------------------------------- the orderings

  function Sign(x: real): int {
    if x < 0.0 then -1 else if x > 0.0 then 1 else 0
  }

  /** Ascending; an absent value is greater than every present one, and two absent ones tie. */
  function CompareMissingLast(a: Option<real>, b: Option<real>): int {
    if a.Some? && b.Some? then Sign(a.value - b.value)
    else if a.Some? then -1 else if b.Some? then 1 else 0
  }

  function CompareTier(a: Axes, b: Axes): int {
    CompareMissingLast(if a.tier.Some? then Some(a.tier.value as real) else None,
                       if b.tier.Some? then Some(b.tier.value as real) else None)
  }

  datatype AutoAxis = SlackAxis | TierAxis

  /** The traced comparator: the order and the axis that produced it.  Equal slacks end the
      comparison; tiers count only when neither side has a slack. */
  function CompareAutoTraced(a: Axes, b: Axes): (int, Option<AutoAxis>) {
    if a.slack.Some? || b.slack.Some? then
      var order := if a.slack.Some? && b.slack.Some? then Sign(b.slack.value - a.slack.value)
                   else if a.slack.Some? then -1 else 1;
      (order, if order != 0 then Some(SlackAxis) else None)
    else
      var order := CompareTier(a, b);
      (order, if order != 0 then Some(TierAxis) else None)
  }

  function CompareEconomy(a: Axes, b: Axes): int {
    if a.paid != b.paid then (if a.paid then 1 else -1)
    else if CompareMissingLast(a.cost, b.cost) != 0 then CompareMissingLast(a.cost, b.cost)
    else CompareTier(a, b)
  }

  function Compare(goal: Goal, a: Axes, b: Axes): int {
    match goal
    case Auto => CompareAutoTraced(a, b).0
    case Quality => CompareTier(a, b)
    case Economy => CompareEconomy(a, b)
  }

  /** Every ordering is a consistent comparator: antisymmetric, and a total preorder. */
  lemma ComparatorsAreConsistent(goal: Goal)
    ensures forall a, b :: Compare(goal, a, b) == -Compare(goal, b, a)
    ensures TotalPreorder((a: Axes, b: Axes) => Compare(goal, a, b) <= 0)
  {
    forall a: Axes, b: Axes, c: Axes | Compare(goal, a, b) <= 0 && Compare(goal, b, c) <= 0
      ensures Compare(goal, a, c) <= 0
    {
    }
  }

  // ---------------------------------------------------------------- eligibility and ranking

  ghost predicate Ready(e: Q.Evidence, ctx: Context, c: Candidate) {
    c.available && !Q.CooldownActive(e, QueryOf(c, ctx.now))
  }

  /** Whether the paid-fallback policy settles for free routes only. */
  ghost predicate FreeOnly(e: Q.Evidence, ctx: Context, candidates: seq<Candidate>) {
    || ctx.paidFallback.Never?
    || (ctx.paidFallback.WhenUnavailable?
        && exists c :: c in candidates && Ready(e, ctx, c) && !IsIncrementalPaid(c))
  }

  ghost predicate Kept(e: Q.Evidence, ctx: Context, candidates: seq<Candidate>, c: Candidate) {
    Ready(e, ctx, c) && (FreeOnly(e, ctx, candidates) ==> !IsIncrementalPaid(c))
  }

  /** Two-pass filter as the router runs it: ready routes, then the policy over them. */
  ghost function Eligible(e: Q.Evidence, ctx: Context, candidates: seq<Candidate>): seq<Candidate> {
    var ready := Filter(candidates, c => Ready(e, ctx, c));
    var free := Filter(ready, c => !IsIncrementalPaid(c));
    if ctx.paidFallback.Never? then free
    else if ctx.paidFallback.WhenUnavailable? && |free| > 0 then free
    else ready
  }

  ghost function Order(e: Q.Evidence, ctx: Context): (Candidate, Candidate) -> bool {
    (a, b) => Compare(ctx.goal, AxesOf(e, ctx, a), AxesOf(e, ctx, b)) <= 0
  }

  /** `None` is the refusal of quality routing over a pool without any declared tier. */
  ghost function RankHarnesses(e: Q.Evidence, ctx: Context, candidates: seq<Candidate>): Option<seq<Candidate>> {
    var routes := Eligible(e, ctx, candidates);
    if ctx.goal.Quality? && (forall c :: c in routes ==> TierIndex(c, ctx.tiers).None?) then None
    else Some(StableSort(Order(e, ctx), routes))
  }

  lemma OrderIsTotalPreorder(e: Q.Evidence, ctx: Context)
    ensures TotalPreorder(Order(e, ctx))
  {
    ComparatorsAreConsistent(ctx.goal);
    var leq := (a: Axes, b: Axes) => Compare(ctx.goal, a, b) <= 0;
    forall a, b ensures Order(e, ctx)(a, b) == leq(AxesOf(e, ctx, a), AxesOf(e, ctx, b)) {
    }
  }

  lemma FilterHas(s: seq<Candidate>, keep: Candidate -> bool)
    ensures forall c :: c in Filter(s, keep) <==> c in s && keep(c)
  {
    forall c ensures c in Filter(s, keep) <==> c in s && keep(c) { FilterMembers(s, keep, c); }
  }

  /** Eligibility says exactly what the policy says: ready, and free when free routes suffice. */
  lemma EligibleIsKept(e: Q.Evidence, ctx: Context, candidates: seq<Candidate>)
    ensures forall c :: c in Eligible(e, ctx, candidates) <==> c in candidates && Kept(e, ctx, candidates, c)
  {
    var ready := Filter(candidates, c => Ready(e, ctx, c));
    FilterHas(candidates, c => Ready(e, ctx, c));
    FilterHas(ready, c => !IsIncrementalPaid(c));
    var free := Filter(ready, c => !IsIncrementalPaid(c));
    if |free| > 0 { assert free[0] in free; }
  }

  /** The ranking is the eligible pool, stably sorted: nothing added, nothing lost. */
  lemma RankingIsSortedPool(e: Q.Evidence, ctx: Context, candidates: seq<Candidate>)
    requires RankHarnesses(e, ctx, candidates).Some?
    ensures var ranked := RankHarnesses(e, ctx, candidates).value;
            && StablySorts(Order(e, ctx), Eligible(e, ctx, candidates), ranked)
            && multiset(ranked) == multiset(Eligible(e, ctx, candidates))
            && forall c :: c in ranked <==> c in candidates && Kept(e, ctx, candidates, c)
  {
    OrderIsTotalPreorder(e, ctx);
    StableSortSorts(Order(e, ctx), Eligible(e, ctx, candidates));
    EligibleIsKept(e, ctx, candidates);
    var ranked := RankHarnesses(e, ctx, candidates).value;
    assert forall c :: c in ranked <==> c in multiset(ranked);
    assert forall c :: c in Eligible(e, ctx, candidates) <==> c in multiset(Eligible(e, ctx, candidates));
  }

  /** `a` is present and at most `b`, or `b` is absent. */
  predicate NoLater(a: Option<real>, b: Option<real>) {
    b.Some? ==> a.Some? && a.value <= b.value
  }

  predicate TierNoLater(a: Axes, b: Axes) {
    b.tier.Some? ==> a.tier.Some? && a.tier.value <= b.tier.value
  }

  /** What each goal means by better: most pacing slack, then (among routes without slack) the
      higher declared tier; the declared tier; or free before paid, then cheapest, then tier. */
  predicate NoWorse(goal: Goal, a: Axes, b: Axes) {
    match goal
    case Auto =>
      && (b.slack.Some? ==> a.slack.Some? && a.slack.value >= b.slack.value)
      && (a.slack.None? && b.slack.None? ==> TierNoLater(a, b))
    case Quality => TierNoLater(a, b)
    case Economy =>
      && (a.paid ==> b.paid)
      && (a.paid == b.paid ==> NoLater(a.cost, b.cost))
      && (a.paid == b.paid && a.cost == b.cost ==> TierNoLater(a, b))
  }

  /** Earlier in the ranking is never worse by the goal. */
  lemma RankingPutsBestFirst(e: Q.Evidence, ctx: Context, candidates: seq<Candidate>, i: nat, j: nat)
    requires RankHarnesses(e, ctx, candidates).Some? && i < j < |RankHarnesses(e, ctx, candidates).value|
    ensures var ranked := RankHarnesses(e, ctx, candidates).value;
            NoWorse(ctx.goal, AxesOf(e, ctx, ranked[i]), AxesOf(e, ctx, ranked[j]))
  {
    var ranked := RankHarnesses(e, ctx, candidates).value;
    RankingIsSortedPool(e, ctx, candidates);
    OrderMeans(e, ctx, ranked[i], ranked[j]);
  }

  // ---------------------------------------------------------------- the reason

  ghost function TraceAt(e: Q.Evidence, ctx: Context, a: Candidate, b: Candidate): Option<AutoAxis> {
    CompareAutoTraced(AxesOf(e, ctx, a), AxesOf(e, ctx, b)).1
  }

  ghost predicate AdjacentPair(e: Q.Evidence, ctx: Context, ranked: seq<Candidate>, axis: AutoAxis) {
    exists i :: 0 <= i < |ranked| - 1 && TraceAt(e, ctx, ranked[i], ranked[i+1]) == Some(axis)
  }

  predicate CostsDistinguish(ranked: seq<Candidate>) {
    exists c :: c in ranked && c.incrementalCostUsd != ranked[0].incrementalCostUsd
  }

  predicate TiersDistinguish(ranked: seq<Candidate>, tiers: seq<seq<TierRoute>>) {
    exists c :: c in ranked && TierIndex(c, tiers) != TierIndex(ranked[0], tiers)
  }

  ghost function ReasonFor(e: Q.Evidence, ctx: Context, ranked: seq<Candidate>, candidates: seq<Candidate>): Reason {
    match ctx.goal
    case Quality => QualityTier
    case Auto =>
      if AdjacentPair(e, ctx, ranked, SlackAxis) then ExpiringQuotaSlack
      else if AdjacentPair(e, ctx, ranked, TierAxis) then QualityTier
      else DeclaredOrder
    case Economy =>
      if (exists c :: c in ranked && !IsIncrementalPaid(c)) && (exists c :: c in candidates && IsIncrementalPaid(c))
      then SubscriptionEntitlementFirst
      else if CostsDistinguish(ranked) then LowestIncrementalCash
      else if TiersDistinguish(ranked, ctx.tiers) then QualityTier
      else if exists c :: c in ranked && c.incrementalCostUsd.None? then AllIncrementalCashUnknown
      else DeclaredOrder
  }

  method CandidateAxes(view: Q.QuotaEvidence, ctx: Context, c: Candidate) returns (axes: Axes)
    ensures axes == AxesOf(view.Value(), ctx, c)
  {
    var slack := view.PaceSlack(QueryOf(c, ctx.now));
    axes := Axes(IsIncrementalPaid(c), c.incrementalCostUsd, TierIndex(c, ctx.tiers), slack);
  }

  /** Reads the reason off the ranked pool; for `auto` it walks adjacent pairs through the very
      comparator that sorted them. */
  method RankingReason(view: Q.QuotaEvidence, ctx: Context, ranked: seq<Candidate>, candidates: seq<Candidate>)
    returns (reason: Reason)
    ensures reason == ReasonFor(view.Value(), ctx, ranked, candidates)
  {
    if ctx.goal.Quality? { return QualityTier; }
    if ctx.goal.Auto? {
      var axes: set<AutoAxis> := {};
      var i := 0;
      while i + 1 < |ranked|
        invariant i == 0 || 0 < i < |ranked|
        invariant forall axis :: axis in axes <==>
                    exists k :: 0 <= k < i && TraceAt(view.Value(), ctx, ranked[k], ranked[k+1]) == Some(axis)
      {
        var a := CandidateAxes(view, ctx, ranked[i]);
        var b := CandidateAxes(view, ctx, ranked[i+1]);
        var axis := CompareAutoTraced(a, b).1;
        if axis.Some? { axes := axes + {axis.value}; }
        i := i + 1;
      }
      assert forall axis :: axis in axes <==> AdjacentPair(view.Value(), ctx, ranked, axis);
      return if SlackAxis in axes then ExpiringQuotaSlack
             else if TierAxis in axes then QualityTier else DeclaredOrder;
    }
    if (exists c :: c in ranked && !IsIncrementalPaid(c)) && (exists c :: c in candidates && IsIncrementalPaid(c)) {
      return SubscriptionEntitlementFirst;
    }
    if CostsDistinguish(ranked) { return LowestIncrementalCash; }
    if TiersDistinguish(ranked, ctx.tiers) { return QualityTier; }
    if exists c :: c in ranked && c.incrementalCostUsd.None? { return AllIncrementalCashUnknown; }
    return DeclaredOrder;
  }

  /** Some pair of the pool, adjacent or not, is separated by `axis`. */
  ghost predicate SomePair(e: Q.Evidence, ctx: Context, ranked: seq<Candidate>, axis: AutoAxis) {
    exists a, b :: a in ranked && b in ranked && TraceAt(e, ctx, a, b) == Some(axis)
  }

  lemma OrderMeans(e: Q.Evidence, ctx: Context, a: Candidate, b: Candidate)
    ensures Order(e, ctx)(a, b) <==> Compare(ctx.goal, AxesOf(e, ctx, a), AxesOf(e, ctx, b)) <= 0
  {
  }

  /** Between two sorted candidates separated by an axis, one side of any middle is too. */
  lemma TracePassesOn(x: Axes, y: Axes, z: Axes, axis: AutoAxis)
    requires CompareAutoTraced(x, y).0 <= 0 && CompareAutoTraced(y, z).0 <= 0
    requires CompareAutoTraced(x, z).1 == Some(axis) && CompareAutoTraced(x, y).1 != Some(axis)
    ensures CompareAutoTraced(y, z).1 == Some(axis)
  {
  }

  lemma {:induction false} SeparatedPairHasAdjacent(e: Q.Evidence, ctx: Context, ranked: seq<Candidate>, axis: AutoAxis,
                                                   i: nat, j: nat)
    requires ctx.goal.Auto? && Sorted(Order(e, ctx), ranked)
    requires i < j < |ranked| && TraceAt(e, ctx, ranked[i], ranked[j]) == Some(axis)
    ensures AdjacentPair(e, ctx, ranked, axis)
    decreases j - i
  {
    if j == i + 1 {
      assert TraceAt(e, ctx, ranked[i], ranked[i+1]) == Some(axis);
    } else {
      var m := i + 1;
      assert Order(e, ctx)(ranked[i], ranked[m]) && Order(e, ctx)(ranked[m], ranked[j]);
      OrderMeans(e, ctx, ranked[i], ranked[m]);
      OrderMeans(e, ctx, ranked[m], ranked[j]);
      if TraceAt(e, ctx, ranked[i], ranked[m]) != Some(axis) {
        TracePassesOn(AxesOf(e, ctx, ranked[i]), AxesOf(e, ctx, ranked[m]), AxesOf(e, ctx, ranked[j]), axis);
        SeparatedPairHasAdjacent(e, ctx, ranked, axis, m, j);
      }
    }
  }

  lemma TraceIsSymmetric(e: Q.Evidence, ctx: Context, a: Candidate, b: Candidate)
    ensures TraceAt(e, ctx, a, b) == TraceAt(e, ctx, b, a)
    ensures TraceAt(e, ctx, a, a).None?
  {
  }

  lemma SomePairHasAdjacent(e: Q.Evidence, ctx: Context, ranked: seq<Candidate>, axis: AutoAxis, i: nat, j: nat)
    requires ctx.goal.Auto? && Sorted(Order(e, ctx), ranked)
    requires i < |ranked| && j < |ranked| && TraceAt(e, ctx, ranked[i], ranked[j]) == Some(axis)
    ensures AdjacentPair(e, ctx, ranked, axis)
  {
    TraceIsSymmetric(e, ctx, ranked[i], ranked[j]);
    if i < j { SeparatedPairHasAdjacent(e, ctx, ranked, axis, i, j); }
    else { SeparatedPairHasAdjacent(e, ctx, ranked, axis, j, i); }
  }

  /** In a sorted pool the adjacent walk finds exactly the axes that separate any pair. */
  lemma AdjacentWalkSeesEveryAxis(e: Q.Evidence, ctx: Context, ranked: seq<Candidate>, axis: AutoAxis)
    requires ctx.goal.Auto? && Sorted(Order(e, ctx), ranked)
    ensures AdjacentPair(e, ctx, ranked, axis) <==> SomePair(e, ctx, ranked, axis)
  {
    if SomePair(e, ctx, ranked, axis) {
      var a, b :| a in ranked && b in ranked && TraceAt(e, ctx, a, b) == Some(axis);
      var i: nat :| i < |ranked| && ranked[i] == a;
      var j: nat :| j < |ranked| && ranked[j] == b;
      SomePairHasAdjacent(e, ctx, ranked, axis, i, j);
    }
  }

  lemma AllTiedKeepsDeclaredOrder(e: Q.Evidence, ctx: Context, candidates: seq<Candidate>)
    requires RankHarnesses(e, ctx, candidates).Some?
    requires forall a, b :: a in RankHarnesses(e, ctx, candidates).value && b in RankHarnesses(e, ctx, candidates).value
               ==> Compare(ctx.goal, AxesOf(e, ctx, a), AxesOf(e, ctx, b)) == 0
    ensures RankHarnesses(e, ctx, candidates).value == Eligible(e, ctx, candidates)
  {
    RankingIsSortedPool(e, ctx, candidates);
    EligibleIsKept(e, ctx, candidates);
    OrderIsTotalPreorder(e, ctx);
    var pool := Eligible(e, ctx, candidates);
    forall i, j | 0 <= i < j < |pool| ensures Order(e, ctx)(pool[i], pool[j]) {
      assert pool[i] in pool && pool[j] in pool;
    }
    SortedStays(Order(e, ctx), pool);
  }

  /** Truthful reason under `auto`: quota slack exactly when some pair differs in slack, tiers
      exactly when slack separates nobody and tiers separate somebody, and declared order only
      when the order is the declared one. */
  lemma AutoReasonIsTruthful(e: Q.Evidence, ctx: Context, candidates: seq<Candidate>)
    requires ctx.goal.Auto? && RankHarnesses(e, ctx, candidates).Some?
    ensures var ranked := RankHarnesses(e, ctx, candidates).value;
            var reason := ReasonFor(e, ctx, ranked, candidates);
            && (reason.ExpiringQuotaSlack? <==> SomePair(e, ctx, ranked, SlackAxis))
            && (reason.QualityTier? <==>
                  !SomePair(e, ctx, ranked, SlackAxis) && SomePair(e, ctx, ranked, TierAxis))
            && (reason.DeclaredOrder? ==> ranked == Eligible(e, ctx, candidates))
  {
    var ranked := RankHarnesses(e, ctx, candidates).value;
    RankingIsSortedPool(e, ctx, candidates);
    AdjacentWalkSeesEveryAxis(e, ctx, ranked, SlackAxis);
    AdjacentWalkSeesEveryAxis(e, ctx, ranked, TierAxis);
    if ReasonFor(e, ctx, ranked, candidates).DeclaredOrder? {
      forall a, b | a in ranked && b in ranked
        ensures Compare(ctx.goal, AxesOf(e, ctx, a), AxesOf(e, ctx, b)) == 0
      {
        assert TraceAt(e, ctx, a, b) != Some(SlackAxis) && TraceAt(e, ctx, a, b) != Some(TierAxis);
      }
      AllTiedKeepsDeclaredOrder(e, ctx, candidates);
    }
  }

  lemma PaidTiesUnlessEntitlement(e: Q.Evidence, ctx: Context, ranked: seq<Candidate>, candidates: seq<Candidate>)
    requires ctx.goal.Economy? && (forall c :: c in ranked ==> c in candidates)
    requires !ReasonFor(e, ctx, ranked, candidates).SubscriptionEntitlementFirst?
    ensures forall a, b :: a in ranked && b in ranked ==> IsIncrementalPaid(a) == IsIncrementalPaid(b)
  {
  }

  lemma CostsTieUnlessCash(e: Q.Evidence, ctx: Context, ranked: seq<Candidate>, candidates: seq<Candidate>)
    requires ctx.goal.Economy? && ranked != []
    requires var reason := ReasonFor(e, ctx, ranked, candidates);
             reason.QualityTier? || reason.AllIncrementalCashUnknown? || reason.DeclaredOrder?
    ensures var reason := ReasonFor(e, ctx, ranked, candidates);
            && (forall c :: c in ranked ==> c.incrementalCostUsd == ranked[0].incrementalCostUsd)
            && (reason.QualityTier? ==> exists c :: c in ranked && TierIndex(c, ctx.tiers) != TierIndex(ranked[0], ctx.tiers))
            && (reason.AllIncrementalCashUnknown? ==> ranked[0].incrementalCostUsd.None?)
  {
  }

  lemma CheapestFirst(e: Q.Evidence, ctx: Context, candidates: seq<Candidate>)
    requires ctx.goal.Economy? && RankHarnesses(e, ctx, candidates).Some?
    requires ReasonFor(e, ctx, RankHarnesses(e, ctx, candidates).value, candidates).LowestIncrementalCash?
    ensures var ranked := RankHarnesses(e, ctx, candidates).value;
            && (exists a, b :: a in ranked && b in ranked && a.incrementalCostUsd != b.incrementalCostUsd)
            && (forall c :: c in ranked ==> CompareMissingLast(ranked[0].incrementalCostUsd, c.incrementalCostUsd) <= 0)
  {
    var ranked := RankHarnesses(e, ctx, candidates).value;
    RankingIsSortedPool(e, ctx, candidates);
    PaidTiesUnlessEntitlement(e, ctx, ranked, candidates);
    assert ranked[0] in ranked;
    forall c | c in ranked ensures CompareMissingLast(ranked[0].incrementalCostUsd, c.incrementalCostUsd) <= 0 {
      var j: nat :| j < |ranked| && ranked[j] == c;
      OrderMeans(e, ctx, ranked[0], ranked[j]);
      assert IsIncrementalPaid(ranked[0]) == IsIncrementalPaid(c);
    }
  }

  lemma TiersTieUnlessTier(e: Q.Evidence, ctx: Context, ranked: seq<Candidate>, candidates: seq<Candidate>)
    requires ctx.goal.Economy? && ranked != []
    requires var reason := ReasonFor(e, ctx, ranked, candidates);
             reason.AllIncrementalCashUnknown? || reason.DeclaredOrder?
    ensures forall c :: c in ranked ==> TierIndex(c, ctx.tiers) == TierIndex(ranked[0], ctx.tiers)
  {
  }

  lemma EconomyAxesAlike(x: Axes, y: Axes)
    requires x.paid == y.paid && x.cost == y.cost && x.tier == y.tier
    ensures Compare(Economy, x, y) == 0
  {
  }

  lemma NothingSeparates(e: Q.Evidence, ctx: Context, candidates: seq<Candidate>)
    requires ctx.goal.Economy? && RankHarnesses(e, ctx, candidates).Some?
    requires var reason := ReasonFor(e, ctx, RankHarnesses(e, ctx, candidates).value, candidates);
             reason.AllIncrementalCashUnknown? || reason.DeclaredOrder?
    ensures RankHarnesses(e, ctx, candidates).value == Eligible(e, ctx, candidates)
  {
    var ranked := RankHarnesses(e, ctx, candidates).value;
    RankingIsSortedPool(e, ctx, candidates);
    PaidTiesUnlessEntitlement(e, ctx, ranked, candidates);
    forall a, b | a in ranked && b in ranked
      ensures Compare(ctx.goal, AxesOf(e, ctx, a), AxesOf(e, ctx, b)) == 0
    {
      CostsTieUnlessCash(e, ctx, ranked, candidates);
      TiersTieUnlessTier(e, ctx, ranked, candidates);
      EconomyAxesAlike(AxesOf(e, ctx, a), AxesOf(e, ctx, b));
    }
    AllTiedKeepsDeclaredOrder(e, ctx, candidates);
  }

  /** Truthful reason under `economy`: an axis is named only when every earlier axis ties across
      the pool and it separates somebody; cash unknown means unknown for everybody; and the two
      remaining reasons mean the order is the declared one. */
  lemma EconomyReasonIsTruthful(e: Q.Evidence, ctx: Context, candidates: seq<Candidate>)
    requires ctx.goal.Economy? && RankHarnesses(e, ctx, candidates).Some?
    ensures var ranked := RankHarnesses(e, ctx, candidates).value;
            var reason := ReasonFor(e, ctx, ranked, candidates);
            && (!reason.SubscriptionEntitlementFirst? ==>
                  forall a, b :: a in ranked && b in ranked ==> IsIncrementalPaid(a) == IsIncrementalPaid(b))
            && (reason.LowestIncrementalCash? ==>
                  && (exists a, b :: a in ranked && b in ranked && a.incrementalCostUsd != b.incrementalCostUsd)
                  && (forall c :: c in ranked ==> CompareMissingLast(ranked[0].incrementalCostUsd, c.incrementalCostUsd) <= 0))
            && (reason.QualityTier? || reason.AllIncrementalCashUnknown? || reason.DeclaredOrder? ==>
                  forall a, b :: a in ranked && b in ranked ==> a.incrementalCostUsd == b.incrementalCostUsd)
            && (reason.QualityTier? ==>
                  exists a, b :: a in ranked && b in ranked && TierIndex(a, ctx.tiers) != TierIndex(b, ctx.tiers))
            && (reason.AllIncrementalCashUnknown? ==>
                  ranked != [] && forall c :: c in ranked ==> c.incrementalCostUsd.None?)
            && (reason.AllIncrementalCashUnknown? || reason.DeclaredOrder? ==> ranked == Eligible(e, ctx, candidates))
  {
    var ranked := RankHarnesses(e, ctx, candidates).value;
    var reason := ReasonFor(e, ctx, ranked, candidates);
    RankingIsSortedPool(e, ctx, candidates);
    if !reason.SubscriptionEntitlementFirst? { PaidTiesUnlessEntitlement(e, ctx, ranked, candidates); }
    if reason.LowestIncrementalCash? { CheapestFirst(e, ctx, candidates); }
    if ranked != [] && (reason.QualityTier? || reason.AllIncrementalCashUnknown? || reason.DeclaredOrder?) {
      CostsTieUnlessCash(e, ctx, ranked, candidates);
      assert ranked[0] in ranked;
    }
    if reason.AllIncrementalCashUnknown? || reason.DeclaredOrder? { NothingSeparates(e, ctx, candidates); }
  }

  // ---------------------------------------------------------------- entitlement first

  /** A ready paid route that entitlement pushed aside: dropped by the policy, or ranked behind
      every entitled route. */
  ghost predicate LostToEntitlement(e: Q.Evidence, ctx: Context, ranked: seq<Candidate>, b: Candidate) {
    && IsIncrementalPaid(b) && Ready(e, ctx, b)
    && forall i, j :: 0 <= i < |ranked| && 0 <= j < |ranked| && ranked[j] == b && !IsIncrementalPaid(ranked[i]) ==> i < j
  }

  /** "Entitlement first" is truthful exactly when some paid candidate was available and not
      cooling down; the code also publishes it when every paid candidate was out anyway. */
  lemma EntitlementFirstIsTruthfulWhen(e: Q.Evidence, ctx: Context, candidates: seq<Candidate>)
    requires ctx.goal.Economy? && RankHarnesses(e, ctx, candidates).Some?
    requires ReasonFor(e, ctx, RankHarnesses(e, ctx, candidates).value, candidates).SubscriptionEntitlementFirst?
    ensures var ranked := RankHarnesses(e, ctx, candidates).value;
            (exists b :: b in candidates && LostToEntitlement(e, ctx, ranked, b))
            <==> (exists b :: b in candidates && IsIncrementalPaid(b) && Ready(e, ctx, b))
  {
    var ranked := RankHarnesses(e, ctx, candidates).value;
    RankingIsSortedPool(e, ctx, candidates);
    if exists b :: b in candidates && IsIncrementalPaid(b) && Ready(e, ctx, b) {
      var b :| b in candidates && IsIncrementalPaid(b) && Ready(e, ctx, b);
      forall i, j | 0 <= i < |ranked| && 0 <= j < |ranked| && ranked[j] == b && !IsIncrementalPaid(ranked[i])
        ensures i < j
      {
        OrderMeans(e, ctx, ranked[j], ranked[i]);
      }
      assert LostToEntitlement(e, ctx, ranked, b);
    }
  }

  function Entitled(id: Id, usd: real): Candidate {
    Candidate(id, true, Q.VendorDefault, None, Some(L.SubscriptionEntitlement), None, None, Some(usd), None, None)
  }

  function PaidButGone(id: Id): Candidate {
    Candidate(id, false, Q.VendorDefault, None, Some(L.Metered), None, None, None, None, None)
  }

  /** The failing case, concretely: of three harnesses the only paid one is not even available,
      two entitled ones differ in cost, and the published reason is still entitlement. */
  lemma EntitlementFirstCanMislead(e: Q.Evidence, ctx: Context)
    requires ctx.goal.Economy? && e == Q.Evidence([], map[])
    ensures var candidates := [Entitled("codex", 2.0), Entitled("claude", 1.0), PaidButGone("cursor")];
            && RankHarnesses(e, ctx, candidates).Some?
            && ReasonFor(e, ctx, RankHarnesses(e, ctx, candidates).value, candidates).SubscriptionEntitlementFirst?
            && !exists b :: b in candidates && LostToEntitlement(e, ctx, RankHarnesses(e, ctx, candidates).value, b)
  {
    MisleadingPool(e, ctx, Entitled("codex", 2.0), Entitled("claude", 1.0), PaidButGone("cursor"));
  }

  lemma MisleadingPool(e: Q.Evidence, ctx: Context, x: Candidate, y: Candidate, gone: Candidate)
    requires ctx.goal.Economy? && e == Q.Evidence([], map[])
    requires x.available && !IsIncrementalPaid(x) && !IsIncrementalPaid(y)
    requires !gone.available && IsIncrementalPaid(gone)
    ensures RankHarnesses(e, ctx, [x, y, gone]).Some?
    ensures var ranked := RankHarnesses(e, ctx, [x, y, gone]).value;
            && ReasonFor(e, ctx, ranked, [x, y, gone]).SubscriptionEntitlementFirst?
            && !exists b :: b in [x, y, gone] && LostToEntitlement(e, ctx, ranked, b)
  {
    var candidates := [x, y, gone];
    assert RankHarnesses(e, ctx, candidates).Some?;
    RankingIsSortedPool(e, ctx, candidates);
    assert x in candidates && gone in candidates;
    assert !Q.CooldownActive(e, QueryOf(x, ctx.now));
    assert Kept(e, ctx, candidates, x);
  }

  // ---------------------------------------------------------------- what is recorded as dropped

  ghost predicate RecordedEligible(ranked: seq<Candidate>, c: Candidate) {
    exists r :: r in ranked && r.harnessId == c.harnessId
  }

  /** The record marks candidates by harness id.  It says who was really kept exactly when no
      dropped candidate shares its id with a kept one. */
  lemma RecordedSplitIsExactWhen(e: Q.Evidence, ctx: Context, candidates: seq<Candidate>)
    requires RankHarnesses(e, ctx, candidates).Some?
    ensures var ranked := RankHarnesses(e, ctx, candidates).value;
            (forall c :: c in candidates ==> (RecordedEligible(ranked, c) <==> Kept(e, ctx, candidates, c)))
            <==> (forall a, b | a in candidates && b in candidates && a.harnessId == b.harnessId ::
                    Kept(e, ctx, candidates, a) ==> Kept(e, ctx, candidates, b))
  {
    RankingIsSortedPool(e, ctx, candidates);
  }

  /** Distinct harness ids are enough. */
  lemma DistinctIdsRecordExactly(e: Q.Evidence, ctx: Context, candidates: seq<Candidate>)
    requires RankHarnesses(e, ctx, candidates).Some?
    requires forall i, j :: 0 <= i < j < |candidates| ==> candidates[i].harnessId != candidates[j].harnessId
    ensures var ranked := RankHarnesses(e, ctx, candidates).value;
            forall c :: c in candidates ==> (RecordedEligible(ranked, c) <==> Kept(e, ctx, candidates, c))
  {
    forall a, b | a in candidates && b in candidates && a.harnessId == b.harnessId
      ensures Kept(e, ctx, candidates, a) ==> Kept(e, ctx, candidates, b)
    {
      var i :| 0 <= i < |candidates| && candidates[i] == a;
      var j :| 0 <= j < |candidates| && candidates[j] == b;
      assert i == j;
    }
    RecordedSplitIsExactWhen(e, ctx, candidates);
  }

  // ---------------------------------------------------------------- non-interference

  lemma SameAnswersSameFilter(e: Q.Evidence, e': Q.Evidence, ctx: Context, s: seq<Candidate>)
    requires forall c :: c in s ==> Ready(e, ctx, c) == Ready(e', ctx, c)
    ensures Filter(s, c => Ready(e, ctx, c)) == Filter(s, c => Ready(e', ctx, c))
  {
    if s != [] { SameAnswersSameFilter(e, e', ctx, s[1..]); }
  }

  lemma {:induction false} SameOrderSameInsert(leq: (Candidate, Candidate) -> bool, leq': (Candidate, Candidate) -> bool,
                                               x: Candidate, s: seq<Candidate>)
    requires forall c :: c in s ==> leq(x, c) == leq'(x, c)
    ensures Insert(leq, x, s) == Insert(leq', x, s)
  {
    if s != [] {
      assert s[0] in s;
      SameOrderSameInsert(leq, leq', x, s[1..]);
    }
  }

  lemma {:induction false} SameOrderSameSort(leq: (Candidate, Candidate) -> bool, leq': (Candidate, Candidate) -> bool,
                                             s: seq<Candidate>)
    requires TotalPreorder(leq)
    requires forall a, b :: a in s && b in s ==> leq(a, b) == leq'(a, b)
    ensures StableSort(leq, s) == StableSort(leq', s)
  {
    if s != [] {
      SameOrderSameSort(leq, leq', s[1..]);
      StableSortSorts(leq, s[1..]);
      forall c | c in StableSort(leq, s[1..]) ensures leq(s[0], c) == leq'(s[0], c) {
        assert c in multiset(StableSort(leq, s[1..]));
        assert c in s[1..];
      }
      SameOrderSameInsert(leq, leq', s[0], StableSort(leq, s[1..]));
    }
  }

  /** Evidence about credential subjects no candidate runs under changes nothing about the whole
      ranking of candidates that name their subject. */
  lemma OtherSubjectsNeverRerank(e: Q.Evidence, rs: seq<Q.Report>, ctx: Context, candidates: seq<Candidate>)
    requires Q.Filed(e)
    requires forall c :: c in candidates ==> c.credentialSubject.Some?
    requires forall c, r :: c in candidates && r in rs ==>
               Q.SubjectOf(r).GetOr("") != c.credentialSubject.value.GetOr("")
    ensures RankHarnesses(Q.ReceivedAll(e, rs), ctx, candidates) == RankHarnesses(e, ctx, candidates)
  {
    var e' := Q.ReceivedAll(e, rs);
    forall c | c in candidates
      ensures Ready(e, ctx, c) == Ready(e', ctx, c) && AxesOf(e, ctx, c) == AxesOf(e', ctx, c)
    {
      Q.OtherSubjectsNeverInterfere(e, rs, QueryOf(c, ctx.now));
    }
    SameAnswersSameFilter(e, e', ctx, candidates);
    EligibleIsKept(e, ctx, candidates);
    OrderIsTotalPreorder(e, ctx);
    SameOrderSameSort(Order(e, ctx), Order(e', ctx), Eligible(e, ctx, candidates));
  }

  // ---------------------------------------------------------------- who is eligible, read off the evidence

  /** What a route costs: the candidate's own cost evidence first, then what its credential is (a
      managed key is metered, a verified vendor login an entitlement), then what is known of its
      billing; without any of these, unknown. */
  lemma BillingOfACandidate(c: Candidate)
    ensures c.costBilling.Some? ==> EffectiveBilling(c) == c.costBilling.value
    ensures c.costBilling == None && c.authRoute.Some? ==>
              EffectiveBilling(c) == match c.authRoute.value.route
                case Some(ManagedApiKey) => L.Metered
                case Some(VendorNative) => if c.authRoute.value.verification == Passed then L.SubscriptionEntitlement else L.UnknownBilling
                case Some(LocalRoute) => L.UnknownBilling
                case None => L.UnknownBilling
    ensures c.costBilling == None && c.authRoute == None ==>
              EffectiveBilling(c) == if c.billingKnowledge == None then L.UnknownBilling else c.billingKnowledge.value
    ensures IsIncrementalPaid(c) <==> EffectiveBilling(c) == L.Metered || EffectiveBilling(c) == L.UnknownBilling
  {
  }

  /** Listed in a tier: harness, named model and effort, all three. */
  lemma ListedInATier(c: Candidate, tier: seq<TierRoute>)
    ensures InTier(c, tier) <==> exists r :: r in tier && r.harness == c.harnessId && c.model == Q.Named(r.model) && c.effort == Some(r.effort)
  {
    if InTier(c, tier) { assert TierRoute(c.harnessId, c.model.id, c.effort.value) in tier; }
  }

  /** The question routing asks about a candidate. */
  ghost predicate Cooling(e: Q.Evidence, ctx: Context, c: Candidate) {
    Q.CooldownActive(e, Q.Query(c.harnessId, c.credentialRoute, c.credentialSubject, ctx.now, c.model))
  }

  /** Who is ranked: every available candidate that is not cooling down, unless it is paid and the
      policy is never to pay, or to pay only when no free candidate is ready. */
  lemma WhoIsRanked(e: Q.Evidence, ctx: Context, candidates: seq<Candidate>, c: Candidate)
    requires RankHarnesses(e, ctx, candidates).Some? && c in candidates
    ensures var ranked := RankHarnesses(e, ctx, candidates).value;
            && (!c.available || Cooling(e, ctx, c) ==> c !in ranked)
            && (c.available && !Cooling(e, ctx, c) && !IsIncrementalPaid(c) ==> c in ranked)
            && (c.available && !Cooling(e, ctx, c) && IsIncrementalPaid(c) ==>
                  (c in ranked <==>
                     match ctx.paidFallback
                     case Never => false
                     case AllowedWithinCap => true
                     case WhenUnavailable =>
                       forall d :: d in candidates && d.available && !Cooling(e, ctx, d) ==> IsIncrementalPaid(d)))
  {
    RankingIsSortedPool(e, ctx, candidates);
  }

  /** Ranking is refused exactly under the quality goal, when no candidate it could rank is listed
      in a tier; and there the published reason is the tier. */
  lemma RefusedExactlyWhen(e: Q.Evidence, ctx: Context, candidates: seq<Candidate>)
    ensures RankHarnesses(e, ctx, candidates) == None <==>
              ctx.goal == Quality && forall c :: c in candidates && Kept(e, ctx, candidates, c) ==> TierIndex(c, ctx.tiers) == None
    ensures ctx.goal == Quality && RankHarnesses(e, ctx, candidates).Some? ==>
              ReasonFor(e, ctx, RankHarnesses(e, ctx, candidates).value, candidates) == QualityTier
  {
    EligibleIsKept(e, ctx, candidates);
  }

  /** Under economy, entitlement is published exactly when a free candidate is ranked and a paid one
      was asked for. */
  lemma EntitlementIsPublishedExactlyWhen(e: Q.Evidence, ctx: Context, candidates: seq<Candidate>)
    requires ctx.goal == Economy && RankHarnesses(e, ctx, candidates).Some?
    ensures var ranked := RankHarnesses(e, ctx, candidates).value;
            ReasonFor(e, ctx, ranked, candidates) == SubscriptionEntitlementFirst <==>
              (exists a, b :: a in ranked && b in candidates && !IsIncrementalPaid(a) && IsIncrementalPaid(b))
  {
  }

  // ---------------------------------------------------------------- the orderings, written out

  /** Listed in an earlier tier, any tier being earlier than none. */
  predicate EarlierTier(a: Axes, b: Axes) {
    a.tier.Some? && (b.tier == None || a.tier.value < b.tier.value)
  }

  /** Cheaper, any known cost being cheaper than an unknown one. */
  predicate Cheaper(a: Axes, b: Axes) {
    a.cost.Some? && (b.cost == None || a.cost.value < b.cost.value)
  }

  /** More slack to use up, any known slack being more than none. */
  predicate MoreSlack(a: Axes, b: Axes) {
    a.slack.Some? && (b.slack == None || a.slack.value > b.slack.value)
  }

  /** When each goal puts one candidate before another: by slack, and by tier only where neither
      has one; by tier; or free before paid, then cheaper, then by tier. */
  lemma OrderingsSpelled(a: Axes, b: Axes)
    ensures Compare(Auto, a, b) < 0 <==> MoreSlack(a, b) || (a.slack == None && b.slack == None && EarlierTier(a, b))
    ensures Compare(Quality, a, b) < 0 <==> EarlierTier(a, b)
    ensures Compare(Economy, a, b) < 0 <==>
              (!a.paid && b.paid) || (a.paid == b.paid && (Cheaper(a, b) || (a.cost == b.cost && EarlierTier(a, b))))
  {
  }

  /** The axis the auto ordering names is the one that separated the two. */
  lemma TracedAxisSpelled(a: Axes, b: Axes)
    ensures CompareAutoTraced(a, b).1 == Some(SlackAxis) <==> a.slack != b.slack
    ensures CompareAutoTraced(a, b).1 == Some(TierAxis) <==> a.slack == None && b.slack == None && a.tier != b.tier
  {
  }
}
