/** The display cache of account observations.  Acquisitions and run probes are in flight while
    credentials change under them; generation stamps and entry identity keep stale results out. */
module AccountObservations {
  type Id = string

  datatype Key = Key(kind: string, harness: Id, profile: Id)

  /** `fingerprint` stands for the serialized profile. */
  datatype Profile = Profile(harness: Id, profile: Id, fingerprint: string)

  const PROFILE_KIND := "profile"

  /** One cache entry; `id` is the identity of the entry object. */
  datatype Entry = Entry(fingerprint: string, id: nat, pending: bool)

  datatype Stamp = Stamp(generation: nat, harnessGeneration: nat)

  datatype Cache = Cache(entries: map<Key, Entry>, generation: nat, harnessGenerations: map<Id, nat>, nextId: nat)

  const EMPTY_CACHE := Cache(map[], 0, map[], 0)

  function KeyFor(kind: string, p: Profile): Key {
    Key(kind, p.harness, p.profile)
  }

  function GenerationFor(c: Cache, harness: Id): Stamp {
    Stamp(c.generation, if harness in c.harnessGenerations then c.harnessGenerations[harness] else 0)
  }

  function Keep(entries: map<Key, Entry>, drop: Key -> bool): map<Key, Entry> {
    map k | k in entries && !drop(k) :: entries[k]
  }

  function Invalidate(c: Cache): Cache {
    Cache(map[], c.generation + 1, map[], c.nextId)
  }

  function InvalidateHarness(c: Cache, harness: Id): Cache {
    c.(harnessGenerations := c.harnessGenerations[harness := GenerationFor(c, harness).harnessGeneration + 1],
       entries := Keep(c.entries, (k: Key) => k.harness == harness))
  }

  function InvalidateCatalogs(c: Cache): Cache {
    c.(entries := Keep(c.entries, (k: Key) => k.kind != PROFILE_KIND))
  }

  /** Whether a read is served by the entry already there. */
  predicate Joins(c: Cache, kind: string, p: Profile, refresh: bool) {
    var k := KeyFor(kind, p);
    k in c.entries && c.entries[k].fingerprint == p.fingerprint && (!refresh || c.entries[k].pending)
  }

  function Read(c: Cache, kind: string, p: Profile, refresh: bool): Cache {
    if Joins(c, kind, p, refresh) then c
    else c.(entries := c.entries[KeyFor(kind, p) := Entry(p.fingerprint, c.nextId, true)], nextId := c.nextId + 1)
  }

  /** The entry is still the one this acquisition created. */
  predicate Current(c: Cache, k: Key, id: nat) {
    k in c.entries && c.entries[k].id == id
  }

  /** An acquisition ended, well or badly: the entry stays, no longer pending. */
  function Complete(c: Cache, k: Key, id: nat): Cache {
    if Current(c, k, id) then c.(entries := c.entries[k := c.entries[k].(pending := false)]) else c
  }

  predicate Retains(c: Cache, p: Profile, stamp: Stamp, receiptMatches: bool) {
    && stamp == GenerationFor(c, p.harness)
    && !(KeyFor(PROFILE_KIND, p) in c.entries && c.entries[KeyFor(PROFILE_KIND, p)].pending)
    && receiptMatches
  }

  function ObserveProfile(c: Cache, p: Profile, stamp: Stamp, receiptMatches: bool): Cache {
    if Retains(c, p, stamp, receiptMatches)
    then c.(entries := c.entries[KeyFor(PROFILE_KIND, p) := Entry(p.fingerprint, c.nextId, false)], nextId := c.nextId + 1)
    else c
  }

  class AccountObservations {
    var entries: map<Key, Entry>
    var generation: nat
    var harnessGenerations: map<Id, nat>
    var nextId: nat

    constructor ()
      ensures Value() == EMPTY_CACHE
    {
      entries, generation, harnessGenerations, nextId := map[], 0, map[], 0;
    }

    ghost function Value(): Cache
      reads this
    {
      Cache(entries, generation, harnessGenerations, nextId)
    }

    method InvalidateAll()
      modifies this
      ensures Value() == Invalidate(old(Value()))
    {
      entries := map[];
      generation := generation + 1;
      harnessGenerations := map[];
    }

    method StampFor(harness: Id) returns (stamp: Stamp)
      ensures stamp == GenerationFor(Value(), harness)
    {
      stamp := Stamp(generation, if harness in harnessGenerations then harnessGenerations[harness] else 0);
    }

    method InvalidateOne(harness: Id)
      modifies this
      ensures Value() == InvalidateHarness(old(Value()), harness)
    {
      var stamp := StampFor(harness);
      harnessGenerations := harnessGenerations[harness := stamp.harnessGeneration + 1];
      DeleteWhere((k: Key) => k.harness == harness);
    }

    method InvalidateAllCatalogs()
      modifies this
      ensures Value() == InvalidateCatalogs(old(Value()))
    {
      DeleteWhere((k: Key) => k.kind != PROFILE_KIND);
    }

    method DeleteWhere(drop: Key -> bool)
      modifies this`entries
      ensures entries == Keep(old(entries), drop)
    {
      var todo := entries.Keys;
      while todo != {}
        invariant todo <= old(entries).Keys
        invariant entries == map k | k in old(entries) && (k in todo || !drop(k)) :: old(entries)[k]
        decreases |todo|
      {
        var key :| key in todo;
        if drop(key) { entries := entries - {key}; }
        todo := todo - {key};
      }
    }

    /** Serves a read: joins the entry there is, or starts one acquisition under a new entry. */
    method Acquire(kind: string, p: Profile, refresh: bool) returns (id: nat, started: bool)
      modifies this
      ensures Value() == Read(old(Value()), kind, p, refresh)
      ensures started <==> !Joins(old(Value()), kind, p, refresh)
      ensures Current(Value(), KeyFor(kind, p), id)
    {
      var key := KeyFor(kind, p);
      if key in entries {
        var current := entries[key];
        if current.fingerprint == p.fingerprint && (!refresh || current.pending) {
          return current.id, false;
        }
      }
      id, started := nextId, true;
      entries := entries[key := Entry(p.fingerprint, id, true)];
      nextId := nextId + 1;
    }

    /** The acquisition settled.  Its value is delivered only if its entry is still the one in
        the cache; a failure leaves the entry in place. */
    method Settle(key: Key, id: nat) returns (delivered: bool)
      modifies this
      ensures Value() == Complete(old(Value()), key, id)
      ensures delivered <==> Current(old(Value()), key, id)
    {
      delivered := key in entries && entries[key].id == id;
      if delivered { entries := entries[key := entries[key].(pending := false)]; }
    }

    method Retain(p: Profile, stamp: Stamp, receiptMatches: bool)
      modifies this
      ensures Value() == ObserveProfile(old(Value()), p, stamp, receiptMatches)
    {
      var now := StampFor(p.harness);
      if stamp != now { return; }
      var key := KeyFor(PROFILE_KIND, p);
      if key in entries && entries[key].pending { return; }
      if !receiptMatches { return; }
      entries := entries[key := Entry(p.fingerprint, nextId, false)];
      nextId := nextId + 1;
    }
  }

  // ---------------------------------------------------------------- runs

  datatype Probe = Probe(profile: Profile, stamp: Stamp, startedAt: nat)

  /** The cache, the probes in flight, and for the record: when each entry's work began and
      when each key was last invalidated. */
  datatype World = World(
    cache: Cache,
    probes: map<nat, Probe>,
    began: map<nat, nat>,
    clock: nat,
    marks: Marks)

  /** When everything, one harness, or all catalogs were last invalidated. */
  datatype Marks = Marks(all: nat, harness: map<Id, nat>, catalogs: nat)

  const START := World(EMPTY_CACHE, map[], map[], 1, Marks(0, map[], 0))

  datatype Op =
    | DoInvalidate
    | DoInvalidateHarness(harness: Id)
    | DoInvalidateCatalogs
    | DoRead(kind: string, profile: Profile, refresh: bool)
    | DoComplete(key: Key, id: nat)
    | DoStartProbe(probe: nat, p: Profile)
    | DoFinishProbe(probe: nat, receiptMatches: bool)

  function Tick(w: World): World { w.(clock := w.clock + 1) }

  function Step(w: World, op: Op): World {
    match op
    case DoInvalidate => Tick(w.(cache := Invalidate(w.cache), marks := w.marks.(all := w.clock)))
    case DoInvalidateHarness(h) => Tick(w.(cache := InvalidateHarness(w.cache, h), marks := w.marks.(harness := w.marks.harness[h := w.clock])))
    case DoInvalidateCatalogs => Tick(w.(cache := InvalidateCatalogs(w.cache), marks := w.marks.(catalogs := w.clock)))
    case DoRead(kind, p, refresh) =>
      Tick(w.(cache := Read(w.cache, kind, p, refresh),
              began := if Joins(w.cache, kind, p, refresh) then w.began else w.began[w.cache.nextId := w.clock]))
    case DoComplete(k, id) => Tick(w.(cache := Complete(w.cache, k, id)))
    case DoStartProbe(n, p) =>
      Tick(if n in w.probes then w else w.(probes := w.probes[n := Probe(p, GenerationFor(w.cache, p.harness), w.clock)]))
    case DoFinishProbe(n, ok) =>
      if n !in w.probes then Tick(w)
      else
        var probe := w.probes[n];
        Tick(w.(probes := w.probes - {n},
                cache := ObserveProfile(w.cache, probe.profile, probe.stamp, ok),
                began := if Retains(w.cache, probe.profile, probe.stamp, ok)
                         then w.began[w.cache.nextId := probe.startedAt] else w.began))
  }

  function Run(w: World, ops: seq<Op>): World
    decreases |ops|
  {
    if ops == [] then w else Run(Step(w, ops[0]), ops[1..])
  }

  function Later(a: nat, b: nat): nat { if a < b then b else a }

  function HarnessInvalidatedAt(m: Marks, harness: Id): nat {
    Later(m.all, if harness in m.harness then m.harness[harness] else 0)
  }

  /** When this key's evidence was last invalidated. */
  function InvalidatedAt(m: Marks, k: Key): nat {
    Later(HarnessInvalidatedAt(m, k.harness), if k.kind == PROFILE_KIND then 0 else m.catalogs)
  }

  predicate Earlier(a: Stamp, b: Stamp) {
    a.generation < b.generation || (a.generation == b.generation && a.harnessGeneration < b.harnessGeneration)
  }

  /** What is cached began after its key was last invalidated. */
  ghost predicate EntriesAreFresh(entries: map<Key, Entry>, began: map<nat, nat>, m: Marks) {
    forall k :: k in entries ==> entries[k].id in began && InvalidatedAt(m, k) < began[entries[k].id]
  }

  /** A probe carries the current stamp exactly when its harness was not invalidated since it began. */
  predicate Stamped(probe: Probe, now: Stamp, m: Marks) {
    if HarnessInvalidatedAt(m, probe.profile.harness) < probe.startedAt then probe.stamp == now else Earlier(probe.stamp, now)
  }

  ghost predicate ProbesAreStamped(probes: map<nat, Probe>, c: Cache, m: Marks, clock: nat) {
    forall n :: n in probes ==> probes[n].startedAt < clock && Stamped(probes[n], GenerationFor(c, probes[n].profile.harness), m)
  }

  ghost predicate Past(m: Marks, clock: nat) {
    m.all < clock && m.catalogs < clock && forall h :: h in m.harness ==> m.harness[h] < clock
  }

  ghost predicate Inv(w: World) {
    && EntriesAreFresh(w.cache.entries, w.began, w.marks)
    && (forall id :: id in w.began ==> id < w.cache.nextId)
    && ProbesAreStamped(w.probes, w.cache, w.marks, w.clock)
    && Past(w.marks, w.clock)
  }

  /** Stamps never come back: every invalidation of a harness moves its stamp strictly up. */
  lemma InvalidationsRaiseStamps(c: Cache, harness: Id)
    ensures Earlier(GenerationFor(c, harness), GenerationFor(Invalidate(c), harness))
    ensures Earlier(GenerationFor(c, harness), GenerationFor(InvalidateHarness(c, harness), harness))
    ensures forall other :: other != harness ==> GenerationFor(InvalidateHarness(c, harness), other) == GenerationFor(c, other)
  {
  }

  lemma InvalidationsKeepInv(w: World, op: Op)
    requires Inv(w) && (op.DoInvalidate? || op.DoInvalidateHarness? || op.DoInvalidateCatalogs?)
    ensures Inv(Step(w, op))
  {
    var next := Step(w, op);
    forall n | n in w.probes
      ensures Stamped(w.probes[n], GenerationFor(next.cache, w.probes[n].profile.harness), next.marks)
    {
      InvalidationsRaiseStamps(w.cache, w.probes[n].profile.harness);
      if op.DoInvalidateHarness? { InvalidationsRaiseStamps(w.cache, op.harness); }
    }
  }

  /** Storing an entry whose work began late enough keeps the invariant. */
  lemma StoreKeepsInv(w: World, k: Key, entry: Entry, startedAt: nat)
    requires Inv(w) && entry.id == w.cache.nextId && InvalidatedAt(w.marks, k) < startedAt
    ensures var cache := w.cache.(entries := w.cache.entries[k := entry], nextId := w.cache.nextId + 1);
            Inv(Tick(w.(cache := cache, began := w.began[entry.id := startedAt])))
  {
    var cache := w.cache.(entries := w.cache.entries[k := entry], nextId := w.cache.nextId + 1);
    var began := w.began[entry.id := startedAt];
    assert EntriesAreFresh(cache.entries, began, w.marks);
    assert forall h :: GenerationFor(cache, h) == GenerationFor(w.cache, h);
    assert ProbesAreStamped(w.probes, cache, w.marks, w.clock + 1);
  }

  lemma ReadKeepsInv(w: World, op: Op)
    requires Inv(w) && op.DoRead?
    ensures Inv(Step(w, op))
  {
    if !Joins(w.cache, op.kind, op.profile, op.refresh) {
      StoreKeepsInv(w, KeyFor(op.kind, op.profile), Entry(op.profile.fingerprint, w.cache.nextId, true), w.clock);
    }
  }

  lemma FinishKeepsInv(w: World, op: Op)
    requires Inv(w) && op.DoFinishProbe?
    ensures Inv(Step(w, op))
  {
    if op.probe in w.probes {
      var probe := w.probes[op.probe];
      var rest := w.(probes := w.probes - {op.probe});
      assert Inv(rest);
      if Retains(w.cache, probe.profile, probe.stamp, op.receiptMatches) {
        var entry := Entry(probe.profile.fingerprint, w.cache.nextId, false);
        StoreKeepsInv(rest, KeyFor(PROFILE_KIND, probe.profile), entry, probe.startedAt);
      }
    }
  }

  lemma CompleteKeepsInv(w: World, op: Op)
    requires Inv(w) && op.DoComplete?
    ensures Inv(Step(w, op))
  {
    var next := Complete(w.cache, op.key, op.id);
    assert forall k :: k in next.entries ==> k in w.cache.entries && next.entries[k].id == w.cache.entries[k].id;
    assert forall h :: GenerationFor(next, h) == GenerationFor(w.cache, h);
  }

  lemma StartProbeKeepsInv(w: World, op: Op)
    requires Inv(w) && op.DoStartProbe?
    ensures Inv(Step(w, op))
  {
    if op.probe !in w.probes {
      var probe := Probe(op.p, GenerationFor(w.cache, op.p.harness), w.clock);
      assert HarnessInvalidatedAt(w.marks, op.p.harness) < w.clock;
      assert ProbesAreStamped(w.probes[op.probe := probe], w.cache, w.marks, w.clock + 1);
    }
  }

  lemma StepKeepsInv(w: World, op: Op)
    requires Inv(w)
    ensures Inv(Step(w, op))
  {
    match op
    case DoRead(_, _, _) => ReadKeepsInv(w, op);
    case DoFinishProbe(_, _) => FinishKeepsInv(w, op);
    case DoComplete(_, _) => CompleteKeepsInv(w, op);
    case DoStartProbe(_, _) => StartProbeKeepsInv(w, op);
    case DoInvalidate => InvalidationsKeepInv(w, op);
    case DoInvalidateHarness(_) => InvalidationsKeepInv(w, op);
    case DoInvalidateCatalogs => InvalidationsKeepInv(w, op);
  }

  lemma {:induction false} RunKeepsInv(w: World, ops: seq<Op>)
    requires Inv(w)
    ensures Inv(Run(w, ops))
    decreases |ops|
  {
    if ops != [] {
      StepKeepsInv(w, ops[0]);
      RunKeepsInv(Step(w, ops[0]), ops[1..]);
    }
  }

  // ---------------------------------------------------------------- freshness over every run

  /** However reads, completions, probes and invalidations interleave: an acquisition whose
      value is delivered, and a probe whose receipt is retained, began after the last
      invalidation of their key; and so did whatever a read joins. */
  lemma AcceptedValuesAreFresh(ops: seq<Op>, k: Key, id: nat, n: nat, receiptMatches: bool)
    ensures var w := Run(START, ops);
            && (Current(w.cache, k, id) ==> id in w.began && InvalidatedAt(w.marks, k) < w.began[id])
            && (n in w.probes && Retains(w.cache, w.probes[n].profile, w.probes[n].stamp, receiptMatches) ==>
                  InvalidatedAt(w.marks, KeyFor(PROFILE_KIND, w.probes[n].profile)) < w.probes[n].startedAt)
  {
    RunKeepsInv(START, ops);
  }

  /** The stamp of a harness and the time of its last invalidation move together, and only up. */
  ghost predicate Rises(w: World, later: World, harness: Id) {
    var before := GenerationFor(w.cache, harness);
    var after := GenerationFor(later.cache, harness);
    if HarnessInvalidatedAt(later.marks, harness) == HarnessInvalidatedAt(w.marks, harness) then before == after
    else HarnessInvalidatedAt(w.marks, harness) < HarnessInvalidatedAt(later.marks, harness) && Earlier(before, after)
  }

  lemma StepRises(w: World, op: Op, harness: Id)
    requires Inv(w)
    ensures Rises(w, Step(w, op), harness)
  {
    match op
    case DoInvalidate =>
    case DoInvalidateHarness(h) => InvalidationsRaiseStamps(w.cache, h);
    case DoInvalidateCatalogs =>
    case DoRead(_, _, _) =>
    case DoComplete(_, _) =>
    case DoStartProbe(_, _) =>
    case DoFinishProbe(_, _) =>
  }

  lemma {:induction false} StampsOnlyRise(w: World, ops: seq<Op>, harness: Id)
    requires Inv(w)
    ensures Rises(w, Run(w, ops), harness)
    decreases |ops|
  {
    if ops != [] {
      StepKeepsInv(w, ops[0]);
      StepRises(w, ops[0], harness);
      StampsOnlyRise(Step(w, ops[0]), ops[1..], harness);
    }
  }

  /** No ABA: two moments of a run carry the same stamp for a harness exactly when nothing
      invalidated that harness in between. */
  lemma NoStampRepeats(before: seq<Op>, between: seq<Op>, harness: Id)
    ensures var w := Run(START, before);
            var later := Run(w, between);
            GenerationFor(w.cache, harness) == GenerationFor(later.cache, harness)
            <==> HarnessInvalidatedAt(later.marks, harness) == HarnessInvalidatedAt(w.marks, harness)
  {
    RunKeepsInv(START, before);
    StampsOnlyRise(Run(START, before), between, harness);
  }

  // ---------------------------------------------------------------- cold-once acquisition

  /** The operation neither refreshes nor invalidates the key, nor changes its profile. */
  predicate Quiet(op: Op, k: Key, fingerprint: string, probes: map<nat, Probe>) {
    match op
    case DoInvalidate => false
    case DoInvalidateHarness(h) => h != k.harness
    case DoInvalidateCatalogs => k.kind == PROFILE_KIND
    case DoRead(kind, p, refresh) => KeyFor(kind, p) == k ==> !refresh && p.fingerprint == fingerprint
    case DoComplete(_, _) => true
    case DoStartProbe(_, p) => KeyFor(PROFILE_KIND, p) == k ==> p.fingerprint == fingerprint
    case DoFinishProbe(n, _) =>
      n in probes && KeyFor(PROFILE_KIND, probes[n].profile) == k ==> probes[n].profile.fingerprint == fingerprint
  }

  predicate QuietRun(w: World, ops: seq<Op>, k: Key, fingerprint: string)
    decreases |ops|
  {
    ops == [] || (Quiet(ops[0], k, fingerprint, w.probes) && QuietRun(Step(w, ops[0]), ops[1..], k, fingerprint))
  }

  predicate Starts(w: World, op: Op, k: Key) {
    op.DoRead? && KeyFor(op.kind, op.profile) == k && !Joins(w.cache, op.kind, op.profile, op.refresh)
  }

  /** How often the run calls the vendor for this key. */
  function Acquisitions(w: World, ops: seq<Op>, k: Key): nat
    decreases |ops|
  {
    if ops == [] then 0
    else (if Starts(w, ops[0], k) then 1 else 0) + Acquisitions(Step(w, ops[0]), ops[1..], k)
  }

  ghost predicate Cached(w: World, k: Key, fingerprint: string) {
    k in w.cache.entries && w.cache.entries[k].fingerprint == fingerprint
  }

  lemma CachedStays(w: World, op: Op, k: Key, fingerprint: string)
    requires Cached(w, k, fingerprint) && Quiet(op, k, fingerprint, w.probes)
    ensures Cached(Step(w, op), k, fingerprint) && !Starts(w, op, k)
  {
  }

  lemma {:induction false} CachedNeverReacquires(w: World, ops: seq<Op>, k: Key, fingerprint: string)
    requires Cached(w, k, fingerprint) && QuietRun(w, ops, k, fingerprint)
    ensures Acquisitions(w, ops, k) == 0
    decreases |ops|
  {
    if ops != [] {
      CachedStays(w, ops[0], k, fingerprint);
      CachedNeverReacquires(Step(w, ops[0]), ops[1..], k, fingerprint);
    }
  }

  /** From any state: without refresh, invalidation or profile change a key is acquired at most
      once, whether that acquisition succeeds, fails or is still pending. */
  lemma {:induction false} AcquiredAtMostOnce(w: World, ops: seq<Op>, k: Key, fingerprint: string)
    requires QuietRun(w, ops, k, fingerprint)
    ensures Acquisitions(w, ops, k) <= 1
    decreases |ops|
  {
    if ops != [] {
      var next := Step(w, ops[0]);
      if Starts(w, ops[0], k) {
        assert Cached(next, k, fingerprint);
        CachedNeverReacquires(next, ops[1..], k, fingerprint);
      } else {
        AcquiredAtMostOnce(next, ops[1..], k, fingerprint);
      }
    }
  }

  // ---------------------------------------------------------------- what a read gets

  /** A read is served by what is cached unless it asks for a refresh of a settled entry, the
      profile changed, or nothing is cached; then it starts an acquisition of its own, under a new
      pending entry that replaces the old one. */
  lemma ReadsJoinOrStart(c: Cache, kind: string, p: Profile, refresh: bool)
    ensures var k := KeyFor(kind, p);
            var next := Read(c, kind, p, refresh);
            && k == Key(kind, p.harness, p.profile)
            && (k !in c.entries ==> !Joins(c, kind, p, refresh))
            && (k in c.entries ==>
                  && (c.entries[k].fingerprint != p.fingerprint ==> !Joins(c, kind, p, refresh))
                  && (c.entries[k].fingerprint == p.fingerprint && c.entries[k].pending ==> Joins(c, kind, p, refresh))
                  && (c.entries[k].fingerprint == p.fingerprint && !c.entries[k].pending ==> (Joins(c, kind, p, refresh) <==> !refresh)))
            && (Joins(c, kind, p, refresh) ==> next == c)
            && (!Joins(c, kind, p, refresh) ==>
                  && next.entries == c.entries[k := Entry(p.fingerprint, c.nextId, true)] && next.nextId == c.nextId + 1
                  && next.generation == c.generation && next.harnessGenerations == c.harnessGenerations)
  {
  }

  /** While its entry is cached an acquisition that ends leaves it settled, so a refresh after it
      reads again; once the entry is gone or replaced its end changes nothing. */
  lemma EndingSettles(c: Cache, kind: string, p: Profile, id: nat)
    ensures var k := KeyFor(kind, p);
            if k in c.entries && c.entries[k].id == id
            then Complete(c, k, id).entries == c.entries[k := Entry(c.entries[k].fingerprint, id, false)] && !Joins(Complete(c, k, id), kind, p, true)
            else Complete(c, k, id) == c
  {
  }

  /** A probe's receipt is retained exactly when its harness was not invalidated since the probe
      began, no acquisition of the profile is pending, and the receipt is the profile's; the
      profile is then cached as probed. */
  lemma ReceiptsAreRetainedExactlyWhen(ops: seq<Op>, n: nat, matches: bool)
    requires n in Run(START, ops).probes
    ensures var w := Run(START, ops);
            var probe := w.probes[n];
            var k := Key(PROFILE_KIND, probe.profile.harness, probe.profile.profile);
            var next := Step(w, DoFinishProbe(n, matches)).cache;
            if HarnessInvalidatedAt(w.marks, probe.profile.harness) < probe.startedAt && matches && (k in w.cache.entries ==> !w.cache.entries[k].pending)
            then next.entries == w.cache.entries[k := Entry(probe.profile.fingerprint, w.cache.nextId, false)]
            else next == w.cache
  {
    RunKeepsInv(START, ops);
    var w := Run(START, ops);
    assert Stamped(w.probes[n], GenerationFor(w.cache, w.probes[n].profile.harness), w.marks);
  }

  /** Invalidating drops everything, one harness's entries, or everything but profiles, and
      nothing else. */
  lemma InvalidationsDropExactly(c: Cache, h: Id, k: Key)
    ensures k !in Invalidate(c).entries
    ensures k in InvalidateHarness(c, h).entries <==> k in c.entries && k.harness != h
    ensures k in InvalidateCatalogs(c).entries <==> k in c.entries && k.kind == "profile"
    ensures k in InvalidateHarness(c, h).entries ==> InvalidateHarness(c, h).entries[k] == c.entries[k]
    ensures k in InvalidateCatalogs(c).entries ==> InvalidateCatalogs(c).entries[k] == c.entries[k]
  {
  }
}
