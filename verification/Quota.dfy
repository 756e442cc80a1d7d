/** Quota evidence of one ledger view: live observations and durable snapshots, and the two
    questions routing asks of them.  Evidence of one credential subject never touches the
    answer given to another. */
module Quota {
  import opened Knowledge

  type Id = string

  type Seconds = r: real | r > 0.0 witness 1.0

  datatype CredentialRoute = VendorNative | ManagedApiKey | LocalRoute

  /** What model a run names: none known, the vendor's default, or an id. */
  datatype ModelRef = NoModelContext | VendorDefault | Named(id: Id)

  datatype Scope = Scope(appliesToRequestKind: bool, models: Option<set<Id>>, prefixes: seq<Id>, unspecifiedModel: bool)

  predicate AppliesToModel(s: Scope, m: ModelRef) {
    if (s.models.None? && s.prefixes == []) || m.NoModelContext? then true
    else if m.VendorDefault? then s.unspecifiedModel
    else (s.models.Some? && m.id in s.models.value) || exists i :: 0 <= i < |s.prefixes| && s.prefixes[i] <= m.id
  }

  predicate Applies(s: Scope, m: ModelRef) {
    s.appliesToRequestKind && AppliesToModel(s, m)
  }

  /** One quota window as observed; instants in milliseconds, absent when unparseable. */
  datatype Window = Window(
    scope: Scope,
    usedRatio: Option<real>,
    windowSeconds: Option<Seconds>,
    resetsAt: Option<real>,
    cooldownUntil: Option<real>)

  datatype Observation = Observation(
    harness: Id,
    route: Option<CredentialRoute>,
    subject: Option<Id>,
    isConstraint: bool,
    constraintId: Option<Id>,
    window: Window)

  /** `slot` stands for what else the storage identity carries: the source, and for incremental
      sources the window identity. */
  datatype Snapshot = Snapshot(
    harness: Id,
    route: CredentialRoute,
    subject: Option<Id>,
    slot: Id,
    isFresh: bool,
    windows: seq<Window>)

  datatype SnapshotId = SnapshotId(harness: Id, route: CredentialRoute, subject: Id, slot: Id)

  function Identity(s: Snapshot): SnapshotId {
    SnapshotId(s.harness, s.route, s.subject.GetOr(""), s.slot)
  }

  /** A routing question.  An absent route or subject means "any"; a present subject is exact,
      `None` inside being the engine default. */
  datatype Query = Query(
    harness: Id,
    route: Option<CredentialRoute>,
    subject: Option<Option<Id>>,
    now: real,
    model: ModelRef)

  datatype Evidence = Evidence(observations: seq<Observation>, snapshots: map<SnapshotId, Snapshot>)

  predicate Concerns(o: Observation, q: Query) {
    && o.harness == q.harness
    && (q.subject.Some? ==> o.subject == q.subject.value)
    && (q.route.Some? && o.route.Some? ==> o.route == q.route)
    && Applies(o.window.scope, q.model)
  }

  predicate SnapshotConcerns(s: Snapshot, q: Query) {
    && s.isFresh
    && s.harness == q.harness
    && Some(s.route) == q.route
    && (q.subject.Some? ==> s.subject == q.subject.value)
  }

  predicate After(t: Option<real>, now: real) {
    t.Some? && t.value > now
  }

  /** Some applicable evidence says: do not send now. */
  ghost predicate CooldownActive(e: Evidence, q: Query) {
    || (exists i :: 0 <= i < |e.observations| && Concerns(e.observations[i], q)
                    && After(e.observations[i].window.cooldownUntil, q.now))
    || (exists id, k :: id in e.snapshots && SnapshotConcerns(e.snapshots[id], q)
                        && 0 <= k < |e.snapshots[id].windows| && Cools(e.snapshots[id].windows[k], q))
  }

  predicate Cools(w: Window, q: Query) {
    && Applies(w.scope, q.model)
    && (|| After(w.cooldownUntil, q.now)
        || (w.usedRatio.Some? && w.usedRatio.value >= 1.0 && After(w.resetsAt, q.now)))
  }

  /** Windows of different routes or subjects never share a slot. */
  datatype WindowKey = WindowKey(route: Option<CredentialRoute>, subject: Id, constraint: Id)

  predicate IsWindow(o: Observation, q: Query) {
    o.isConstraint && o.constraintId.Some? && o.constraintId.value != "" && Concerns(o, q)
  }

  function KeyOf(o: Observation): WindowKey
    requires o.constraintId.Some?
  {
    WindowKey(o.route, o.subject.GetOr(""), o.constraintId.value)
  }

  /** Observation `i` is the latest word on its window among the first `n`. */
  ghost predicate IsLatest(obs: seq<Observation>, q: Query, i: nat, n: nat)
    requires n <= |obs|
  {
    && i < n && IsWindow(obs[i], q)
    && forall j :: i < j < n && IsWindow(obs[j], q) ==> KeyOf(obs[j]) != KeyOf(obs[i])
  }

  function Clamp01(x: real): real {
    if x < 0.0 then 0.0 else if x > 1.0 then 1.0 else x
  }

  datatype Slack = Slack(share: real)

  /** Share of the window already elapsed minus share already used; none for a window that is
      incomplete or over. */
  function SlackOf(w: Window, now: real): Option<Slack> {
    if w.usedRatio.Some? && w.windowSeconds.Some? && After(w.resetsAt, now)
    then Some(Slack(1.0 - Clamp01((w.resetsAt.value - now) / 1000.0 / w.windowSeconds.value) - w.usedRatio.value))
    else None
  }

  ghost function ObservedSlacks(obs: seq<Observation>, q: Query): set<Slack> {
    set i | 0 <= i < |obs| && IsLatest(obs, q, i, |obs|) && SlackOf(obs[i].window, q.now).Some?
      :: SlackOf(obs[i].window, q.now).value
  }

  ghost function SnapshotSlacks(e: Evidence, q: Query): set<Slack> {
    set id, k | id in e.snapshots && SnapshotConcerns(e.snapshots[id], q) && 0 <= k < |e.snapshots[id].windows|
                && Applies(e.snapshots[id].windows[k].scope, q.model)
                && SlackOf(e.snapshots[id].windows[k], q.now).Some?
      :: SlackOf(e.snapshots[id].windows[k], q.now).value
  }

  lemma {:induction false} MinimumExists(s: set<Slack>)
    requires s != {}
    ensures exists m :: m in s && forall x :: x in s ==> m.share <= x.share
  {
    var x :| x in s;
    var rest := s - {x};
    if rest == {} {
      assert forall y :: y in s ==> y in rest || y == x;
    } else {
      MinimumExists(rest);
      var m :| m in rest && forall y :: y in rest ==> m.share <= y.share;
      var least := if x.share <= m.share then x else m;
      forall y | y in s ensures least.share <= y.share {
        assert y in rest || y == x;
      }
      assert least in s;
    }
  }

  ghost function Minimum(s: set<Slack>): (r: Option<Slack>)
    ensures s == {} <==> r.None?
    ensures r.Some? ==> r.value in s && forall x :: x in s ==> r.value.share <= x.share
  {
    if s == {} then None
    else
      MinimumExists(s);
      var m :| m in s && forall x :: x in s ==> m.share <= x.share;
      Some(m)
  }

  /** The tightest pacing slack over the latest word on every applicable window, observed or
      in a fresh snapshot. */
  ghost function BindingPaceSlack(e: Evidence, q: Query): Option<real> {
    var least := Minimum(ObservedSlacks(e.observations, q) + SnapshotSlacks(e, q));
    if least.Some? then Some(least.value.share) else None
  }

  // ---------------------------------------------------------------- the stateful view

  class QuotaEvidence {
    var observations: seq<Observation>
    var quotaSnapshots: map<SnapshotId, Snapshot>

    constructor ()
      ensures Value() == Evidence([], map[])
    {
      observations, quotaSnapshots := [], map[];
    }

    ghost function Value(): Evidence
      reads this
    {
      Evidence(observations, quotaSnapshots)
    }

    method Observe(o: Observation)
      modifies this
      ensures Value() == Observed(old(Value()), o)
    {
      observations := observations + [o];
    }

    method ObserveQuotaSnapshot(s: Snapshot)
      modifies this
      ensures Value() == Stored(old(Value()), s)
    {
      quotaSnapshots := quotaSnapshots[Identity(s) := s];
    }

    /** Looks through the observations, then through the fresh snapshots of the query's route. */
    method Cooling(q: Query) returns (active: bool)
      ensures active <==> CooldownActive(Value(), q)
    {
      for i := 0 to |observations|
        invariant forall k :: 0 <= k < i ==> !(Concerns(observations[k], q) && After(observations[k].window.cooldownUntil, q.now))
      {
        if Concerns(observations[i], q) && After(observations[i].window.cooldownUntil, q.now) { return true; }
      }
      if q.route.None? { return false; }
      var todo := quotaSnapshots.Keys;
      while todo != {}
        invariant todo <= quotaSnapshots.Keys
        invariant forall id :: id in quotaSnapshots && id !in todo && SnapshotConcerns(quotaSnapshots[id], q) ==>
                    forall k :: 0 <= k < |quotaSnapshots[id].windows| ==> !Cools(quotaSnapshots[id].windows[k], q)
        decreases |todo|
      {
        var id :| id in todo;
        if SnapshotConcerns(quotaSnapshots[id], q) {
          var cools := SomeWindowCools(quotaSnapshots[id].windows, q);
          if cools { return true; }
        }
        todo := todo - {id};
      }
      return false;
    }

    /** Keeps the latest observation per window, then takes the least slack. */
    method PaceSlack(q: Query) returns (least: Option<real>)
      ensures least == BindingPaceSlack(Value(), q)
    {
      var latest := LatestWindows(q);
      var slacks := ObservedSide(latest, q);
      if q.route.Some? {
        var more := SnapshotSide(q);
        slacks := slacks + more;
      } else {
        assert SnapshotSlacks(Value(), q) == {};
        assert slacks == slacks + {};
      }
      var tightest := Least(slacks);
      least := if tightest.Some? then Some(tightest.value.share) else None;
    }

    method LatestWindows(q: Query) returns (latest: map<WindowKey, nat>)
      ensures forall i: nat :: IsLatest(observations, q, i, |observations|) <==>
                i < |observations| && IsWindow(observations[i], q)
                && KeyOf(observations[i]) in latest && latest[KeyOf(observations[i])] == i
      ensures forall key :: key in latest ==> IsLatest(observations, q, latest[key], |observations|)
    {
      latest := map[];
      for n := 0 to |observations|
        invariant forall key :: key in latest ==>
                    IsLatest(observations, q, latest[key], n) && KeyOf(observations[latest[key]]) == key
        invariant forall i: nat :: i < n && IsWindow(observations[i], q) ==>
                    KeyOf(observations[i]) in latest && i <= latest[KeyOf(observations[i])]
      {
        if IsWindow(observations[n], q) {
          latest := latest[KeyOf(observations[n]) := n];
        }
      }
    }

    method ObservedSide(latest: map<WindowKey, nat>, q: Query) returns (slacks: set<Slack>)
      requires forall key :: key in latest ==> IsLatest(observations, q, latest[key], |observations|)
      requires forall i: nat :: IsLatest(observations, q, i, |observations|) ==>
                 KeyOf(observations[i]) in latest && latest[KeyOf(observations[i])] == i
      ensures slacks == ObservedSlacks(observations, q)
    {
      slacks := {};
      var todo := latest.Keys;
      while todo != {}
        invariant todo <= latest.Keys
        invariant slacks <= ObservedSlacks(observations, q)
        invariant forall key :: key in latest && key !in todo && SlackOf(observations[latest[key]].window, q.now).Some?
                    ==> SlackOf(observations[latest[key]].window, q.now).value in slacks
        decreases |todo|
      {
        var key :| key in todo;
        var slack := SlackOf(observations[latest[key]].window, q.now);
        if slack.Some? { slacks := slacks + {slack.value}; }
        todo := todo - {key};
      }
    }

    method SnapshotSide(q: Query) returns (slacks: set<Slack>)
      ensures slacks == SnapshotSlacks(Value(), q)
    {
      slacks := {};
      var todo := quotaSnapshots.Keys;
      while todo != {}
        invariant todo <= quotaSnapshots.Keys
        invariant slacks <= SnapshotSlacks(Value(), q)
        invariant forall id, k :: id in quotaSnapshots && id !in todo && SnapshotConcerns(quotaSnapshots[id], q)
                    && 0 <= k < |quotaSnapshots[id].windows| && Applies(quotaSnapshots[id].windows[k].scope, q.model)
                    && SlackOf(quotaSnapshots[id].windows[k], q.now).Some?
                    ==> SlackOf(quotaSnapshots[id].windows[k], q.now).value in slacks
        decreases |todo|
      {
        var id :| id in todo;
        var s := quotaSnapshots[id];
        if SnapshotConcerns(s, q) {
          for n := 0 to |s.windows|
            invariant slacks <= SnapshotSlacks(Value(), q)
            invariant forall id', k :: id' in quotaSnapshots && (id' !in todo || (id' == id && k < n))
                        && SnapshotConcerns(quotaSnapshots[id'], q)
                        && 0 <= k < |quotaSnapshots[id'].windows| && Applies(quotaSnapshots[id'].windows[k].scope, q.model)
                        && SlackOf(quotaSnapshots[id'].windows[k], q.now).Some?
                        ==> SlackOf(quotaSnapshots[id'].windows[k], q.now).value in slacks
          {
            var slack := SlackOf(s.windows[n], q.now);
            if Applies(s.windows[n].scope, q.model) && slack.Some? { slacks := slacks + {slack.value}; }
          }
        }
        todo := todo - {id};
      }
    }
  }

  method SomeWindowCools(windows: seq<Window>, q: Query) returns (cools: bool)
    ensures cools <==> exists k :: 0 <= k < |windows| && Cools(windows[k], q)
  {
    for i := 0 to |windows|
      invariant forall k :: 0 <= k < i ==> !Cools(windows[k], q)
    {
      if Cools(windows[i], q) { return true; }
    }
    return false;
  }

  method Least(slacks: set<Slack>) returns (least: Option<Slack>)
    ensures least.Some? == Minimum(slacks).Some?
    ensures least.Some? ==> least.value.share == Minimum(slacks).value.share
  {
    least := None;
    var todo := slacks;
    while todo != {}
      invariant todo <= slacks
      invariant least.None? <==> todo == slacks
      invariant least.Some? ==> least.value in slacks && forall x :: x in slacks && x !in todo ==> least.value.share <= x.share
      decreases |todo|
    {
      var x :| x in todo;
      if least.None? || x.share < least.value.share { least := Some(x); }
      todo := todo - {x};
    }
  }

  // ---------------------------------------------------------------- credential non-interference

  function Observed(e: Evidence, o: Observation): Evidence {
    e.(observations := e.observations + [o])
  }

  function Stored(e: Evidence, s: Snapshot): Evidence {
    e.(snapshots := e.snapshots[Identity(s) := s])
  }

  datatype Report = LiveObservation(o: Observation) | DurableSnapshot(s: Snapshot)

  function Received(e: Evidence, r: Report): Evidence {
    match r
    case LiveObservation(o) => Observed(e, o)
    case DurableSnapshot(s) => Stored(e, s)
  }

  function ReceivedAll(e: Evidence, rs: seq<Report>): Evidence
    decreases |rs|
  {
    if rs == [] then e else ReceivedAll(Received(e, rs[0]), rs[1..])
  }

  function SubjectOf(r: Report): Option<Id> {
    match r
    case LiveObservation(o) => o.subject
    case DurableSnapshot(s) => s.subject
  }

  /** Snapshots are stored under their own identity. */
  ghost predicate Filed(e: Evidence) {
    forall id :: id in e.snapshots ==> Identity(e.snapshots[id]) == id
  }

  lemma OtherSubjectsObservation(e: Evidence, o: Observation, q: Query)
    requires q.subject.Some? && o.subject != q.subject.value
    ensures CooldownActive(Observed(e, o), q) == CooldownActive(e, q)
    ensures BindingPaceSlack(Observed(e, o), q) == BindingPaceSlack(e, q)
  {
    var n := |e.observations|;
    var obs := e.observations + [o];
    assert !Concerns(obs[n], q);
    assert forall i :: 0 <= i < n ==> obs[i] == e.observations[i];
    forall i: nat | i < n ensures IsLatest(obs, q, i, n + 1) <==> IsLatest(e.observations, q, i, n) {
    }
    assert ObservedSlacks(obs, q) == ObservedSlacks(e.observations, q);
    assert SnapshotSlacks(Observed(e, o), q) == SnapshotSlacks(e, q);
    forall i | 0 <= i < n ensures Concerns(obs[i], q) == Concerns(e.observations[i], q) {
    }
  }

  lemma OtherSubjectsSnapshot(e: Evidence, s: Snapshot, q: Query)
    requires Filed(e) && q.subject.Some? && s.subject.GetOr("") != q.subject.value.GetOr("")
    ensures CooldownActive(Stored(e, s), q) == CooldownActive(e, q)
    ensures BindingPaceSlack(Stored(e, s), q) == BindingPaceSlack(e, q)
  {
    var e' := Stored(e, s);
    forall id ensures (id in e'.snapshots && SnapshotConcerns(e'.snapshots[id], q))
                 <==> (id in e.snapshots && SnapshotConcerns(e.snapshots[id], q))
    {
      if id == Identity(s) && id in e.snapshots {
        assert e.snapshots[id].subject.GetOr("") == s.subject.GetOr("");
      }
    }
    assert forall id :: id != Identity(s) ==> (id in e'.snapshots <==> id in e.snapshots);
    assert SnapshotSlacks(e', q) == SnapshotSlacks(e, q);
  }

  lemma OneOtherReport(e: Evidence, r: Report, q: Query)
    requires Filed(e) && q.subject.Some? && SubjectOf(r).GetOr("") != q.subject.value.GetOr("")
    ensures Filed(Received(e, r))
    ensures CooldownActive(Received(e, r), q) == CooldownActive(e, q)
    ensures BindingPaceSlack(Received(e, r), q) == BindingPaceSlack(e, q)
  {
    match r
    case LiveObservation(o) => OtherSubjectsObservation(e, o, q);
    case DurableSnapshot(s) => OtherSubjectsSnapshot(e, s, q);
  }

  /** Whatever is observed or snapshotted for other credential subjects, in whatever order, a
      caller that names its subject gets the same cooldown and the same pace slack. */
  lemma {:induction false} OtherSubjectsNeverInterfere(e: Evidence, rs: seq<Report>, q: Query)
    requires Filed(e) && q.subject.Some?
    requires forall r :: r in rs ==> SubjectOf(r).GetOr("") != q.subject.value.GetOr("")
    ensures CooldownActive(ReceivedAll(e, rs), q) == CooldownActive(e, q)
    ensures BindingPaceSlack(ReceivedAll(e, rs), q) == BindingPaceSlack(e, q)
    decreases |rs|
  {
    if rs != [] {
      assert rs[0] in rs;
      OneOtherReport(e, rs[0], q);
      OtherSubjectsNeverInterfere(Received(e, rs[0]), rs[1..], q);
    }
  }

  // ---------------------------------------------------------------- what a window says

  function LaterOf(a: Option<real>, b: Option<real>): Option<real> {
    if a == None then b else if b == None then a else if a.value < b.value then b else a
  }

  /** Until when a window says not to send: its cooldown, or its reset if it is used up. */
  function CoolsUntil(w: Window): Option<real> {
    LaterOf(w.cooldownUntil, if w.usedRatio.Some? && 1.0 <= w.usedRatio.value then w.resetsAt else None)
  }

  /** A window that applies cools before that instant, and at no other time. */
  lemma CoolsExactlyUntil(w: Window, q: Query)
    ensures Cools(w, q) <==> Applies(w.scope, q.model) && CoolsUntil(w).Some? && q.now < CoolsUntil(w).value
  {
  }

  lemma Scaled(a: real, b: real, k: real)
    requires k > 0.0
    ensures a <= b <==> a * k <= b * k
  {
    if a <= b { assert (b - a) * k >= 0.0; } else { assert (a - b) * k > 0.0; }
  }

  lemma Fractions(part: real, whole: real)
    requires whole > 0.0
    ensures (part / whole) * whole == part
    ensures part >= whole ==> part / whole >= 1.0
    ensures 0.0 <= part <= whole ==> 0.0 <= part / whole <= 1.0
  {
    var share := part / whole;
    assert share * whole == part;
    Scaled(1.0, share, whole);
    Scaled(0.0, share, whole);
    Scaled(share, 1.0, whole);
  }

  /** The pacing slack of an open window: what has elapsed of it, since it opened, minus what was
      used of it.  In milliseconds of the window, so that nothing is divided. */
  lemma SlackReads(w: Window, now: real)
    requires w.usedRatio.Some? && w.windowSeconds.Some? && w.resetsAt.Some?
    ensures var length := 1000.0 * w.windowSeconds.value;
            var openedAt := w.resetsAt.value - length;
            && (SlackOf(w, now).Some? <==> now < w.resetsAt.value)
            && (openedAt <= now < w.resetsAt.value ==> SlackOf(w, now).value.share * length == (now - openedAt) - w.usedRatio.value * length)
            && (now < openedAt ==> SlackOf(w, now).value.share == -w.usedRatio.value)
  {
    var seconds := w.windowSeconds.value;
    var left := (w.resetsAt.value - now) / 1000.0;
    Fractions(left, seconds);
    if now < w.resetsAt.value {
      var share := left / seconds;
      assert SlackOf(w, now) == Some(Slack(1.0 - Clamp01(share) - w.usedRatio.value));
      if left <= seconds {
        var length := 1000.0 * seconds;
        assert share * length == 1000.0 * (share * seconds) == w.resetsAt.value - now;
      }
    }
  }

  /** A window that does not say how much is used, how long it is or when it resets has none. */
  lemma IncompleteWindowsHaveNoSlack(w: Window, now: real)
    requires w.usedRatio == None || w.windowSeconds == None || w.resetsAt == None
    ensures SlackOf(w, now) == None
  {
  }

  // ---------------------------------------------------------------- what evidence concerns whom

  /** A scope that names no model, or a run that knows of none, is in scope; the vendor's default
      where the scope says so; a named model when listed, or under a listed prefix. */
  lemma ModelsInScope(s: Scope, id: Id, prefix: Id)
    ensures AppliesToModel(s, NoModelContext)
    ensures s.models == None && s.prefixes == [] ==> AppliesToModel(s, VendorDefault) && AppliesToModel(s, Named(id))
    ensures s.models.Some? || s.prefixes != [] ==> (AppliesToModel(s, VendorDefault) <==> s.unspecifiedModel)
    ensures s.models.Some? && id in s.models.value ==> AppliesToModel(s, Named(id))
    ensures prefix in s.prefixes ==> AppliesToModel(s, Named(prefix + id))
    ensures AppliesToModel(s, Named(id)) ==>
              || (s.models == None && s.prefixes == []) || (s.models.Some? && id in s.models.value)
              || exists i, rest: Id :: 0 <= i < |s.prefixes| && id == s.prefixes[i] + rest
  {
    if prefix in s.prefixes {
      var i :| 0 <= i < |s.prefixes| && s.prefixes[i] == prefix;
      assert s.prefixes[i] <= prefix + id;
    }
    if i :| 0 <= i < |s.prefixes| && s.prefixes[i] <= id {
      assert id == s.prefixes[i] + id[|s.prefixes[i]|..];
    }
  }

  /** Live evidence of another harness, request kind or model never counts; of another subject only
      when the question names none; of another route only when the question or the observation
      names none. */
  lemma WhoseObservationsCount(o: Observation, q: Query)
    ensures o.harness != q.harness || !o.window.scope.appliesToRequestKind || !AppliesToModel(o.window.scope, q.model) ==> !Concerns(o, q)
    ensures q.subject.Some? && o.subject != q.subject.value ==> !Concerns(o, q)
    ensures q.route.Some? && o.route.Some? && o.route.value != q.route.value ==> !Concerns(o, q)
    ensures o.harness == q.harness && o.window.scope.appliesToRequestKind && AppliesToModel(o.window.scope, q.model)
            && (q.subject == None || q.subject == Some(o.subject)) && (q.route == None || o.route == None || q.route == o.route)
            ==> Concerns(o, q)
  {
  }

  /** Snapshots count while fresh, for exactly the route asked about, and like observations for the
      subject; without a route none does. */
  lemma WhoseSnapshotsCount(s: Snapshot, q: Query)
    ensures !s.isFresh || s.harness != q.harness || q.route == None || q.route.value != s.route ==> !SnapshotConcerns(s, q)
    ensures q.subject.Some? && s.subject != q.subject.value ==> !SnapshotConcerns(s, q)
    ensures s.isFresh && s.harness == q.harness && q.route == Some(s.route) && (q.subject == None || q.subject == Some(s.subject)) ==>
              SnapshotConcerns(s, q)
  {
  }

  /** Two observations are of the same window exactly when route, subject (the engine default being
      the empty one) and constraint agree; an observation without a constraint is of none. */
  lemma SameWindow(a: Observation, b: Observation, q: Query)
    requires a.constraintId.Some? && b.constraintId.Some?
    ensures KeyOf(a) == KeyOf(b) <==>
              && a.route == b.route && a.constraintId == b.constraintId
              && (a.subject == b.subject || (a.subject.GetOr("") == "" && b.subject.GetOr("") == ""))
    ensures IsWindow(a, q) <==> a.isConstraint && a.constraintId != Some("") && Concerns(a, q)
  {
  }

  /** A snapshot is stored beside those of other harnesses, routes, subjects and slots, and in place
      of its own. */
  lemma SameSnapshot(a: Snapshot, b: Snapshot)
    ensures Identity(a) == Identity(b) <==>
              && a.harness == b.harness && a.route == b.route && a.slot == b.slot
              && (a.subject == b.subject || (a.subject.GetOr("") == "" && b.subject.GetOr("") == ""))
  {
  }

  /** One live cooldown, or one cooling window of a fresh snapshot, is enough, and nothing else is. */
  lemma OneReasonCools(e: Evidence, q: Query)
    ensures CooldownActive(e, q) <==>
      || (exists o :: o in e.observations && Concerns(o, q) && o.window.cooldownUntil.Some? && q.now < o.window.cooldownUntil.value)
      || (exists id, w :: id in e.snapshots && SnapshotConcerns(e.snapshots[id], q) && w in e.snapshots[id].windows && Cools(w, q))
  {
    if o :| o in e.observations && Concerns(o, q) && o.window.cooldownUntil.Some? && q.now < o.window.cooldownUntil.value {
      var i :| 0 <= i < |e.observations| && e.observations[i] == o;
    }
    if id, w :| id in e.snapshots && SnapshotConcerns(e.snapshots[id], q) && w in e.snapshots[id].windows && Cools(w, q) {
      var k :| 0 <= k < |e.snapshots[id].windows| && e.snapshots[id].windows[k] == w;
    }
  }

  // ---------------------------------------------------------------- the tightest window

  /** The observation has the last word on its window: it concerns the question, and no later one
      of the same route, subject and constraint does. */
  ghost predicate LastWord(e: Evidence, q: Query, i: nat) {
    && i < |e.observations| && IsWindow(e.observations[i], q)
    && !exists j :: i < j < |e.observations| && IsWindow(e.observations[j], q) && KeyOf(e.observations[j]) == KeyOf(e.observations[i])
  }

  /** Some window says this slack: observed, as its last word, or in a snapshot that counts. */
  ghost predicate Says(e: Evidence, q: Query, share: real) {
    || (exists i: nat :: LastWord(e, q, i) && SlackOf(e.observations[i].window, q.now) == Some(Slack(share)))
    || (exists id, k: nat :: SnapshotSays(e, q, id, k, share))
  }

  ghost predicate SnapshotSays(e: Evidence, q: Query, id: SnapshotId, k: nat, share: real) {
    && id in e.snapshots && SnapshotConcerns(e.snapshots[id], q) && k < |e.snapshots[id].windows|
    && Applies(e.snapshots[id].windows[k].scope, q.model)
    && SlackOf(e.snapshots[id].windows[k], q.now) == Some(Slack(share))
  }

  lemma SaidSlacks(e: Evidence, q: Query, share: real)
    ensures Slack(share) in ObservedSlacks(e.observations, q) + SnapshotSlacks(e, q) <==> Says(e, q, share)
  {
    if i: nat :| LastWord(e, q, i) && SlackOf(e.observations[i].window, q.now) == Some(Slack(share)) {
      assert IsLatest(e.observations, q, i, |e.observations|);
    }
    if i :| 0 <= i < |e.observations| && IsLatest(e.observations, q, i, |e.observations|)
            && SlackOf(e.observations[i].window, q.now) == Some(Slack(share))
    {
      assert LastWord(e, q, i);
    }
    if id, k: nat :| SnapshotSays(e, q, id, k, share) {
      assert SlackOf(e.snapshots[id].windows[k], q.now).value in SnapshotSlacks(e, q);
    }
    if id, k :| id in e.snapshots && SnapshotConcerns(e.snapshots[id], q) && 0 <= k < |e.snapshots[id].windows|
                && Applies(e.snapshots[id].windows[k].scope, q.model)
                && SlackOf(e.snapshots[id].windows[k], q.now) == Some(Slack(share))
    {
      assert SnapshotSays(e, q, id, k, share);
    }
  }

  /** The binding slack is the least that any window says; there is none exactly when no window
      says one. */
  lemma PaceSlackIsTheTightest(e: Evidence, q: Query)
    ensures BindingPaceSlack(e, q) == None <==> !exists share :: Says(e, q, share)
    ensures forall least :: BindingPaceSlack(e, q) == Some(least) <==>
              Says(e, q, least) && forall share :: Says(e, q, share) ==> least <= share
  {
    var slacks := ObservedSlacks(e.observations, q) + SnapshotSlacks(e, q);
    var m := Minimum(slacks);
    forall share ensures Slack(share) in slacks <==> Says(e, q, share) { SaidSlacks(e, q, share); }
    if m.Some? {
      assert m.value == Slack(m.value.share);
      assert Says(e, q, m.value.share);
      forall share | Says(e, q, share) ensures m.value.share <= share { assert Slack(share) in slacks; }
    } else {
      forall share ensures !Says(e, q, share) { assert Slack(share) !in slacks; }
    }
  }
}
