/** The bounded worker pool with a rate-limit short circuit, as a step system.  Between two
    awaits a worker runs atomically, so a step is either "take the next index" or "a probe
    settles"; every interleaving of the workers is a sequence of such steps. */
module WorkerPool {
  import opened Knowledge

  datatype ProbeResult = ProbeResult(rateLimited: bool, payload: string)

  datatype Slot = Probed(result: ProbeResult) | Skipped

  datatype Worker = Looping | Probing(index: nat) | Stopped

  datatype Pool = Pool(next: nat, rateLimited: bool, results: seq<Option<Slot>>, workers: seq<Worker>)

  function WorkerCount(n: nat, limit: int): nat {
    var least := if limit < n then limit else n;
    if least < 1 then 1 else least
  }

  function NewPool(n: nat, limit: int): Pool {
    Pool(0, false, seq(n, _ => None), seq(WorkerCount(n, limit), _ => Looping))
  }

  datatype Action = Take(worker: nat) | Finish(worker: nat, result: ProbeResult)

  predicate Enabled(p: Pool, a: Action) {
    && a.worker < |p.workers|
    && match a
       case Take(w) => p.workers[w].Looping?
       case Finish(w, _) => p.workers[w].Probing? && p.workers[w].index < |p.results|
  }

  function Step(p: Pool, a: Action): Pool
    requires Enabled(p, a)
  {
    match a
    case Take(w) =>
      if p.next >= |p.results| then p.(workers := p.workers[w := Stopped])
      else if p.rateLimited then p.(next := p.next + 1, results := p.results[p.next := Some(Skipped)])
      else p.(next := p.next + 1, workers := p.workers[w := Probing(p.next)])
    case Finish(w, result) =>
      p.(results := p.results[p.workers[w].index := Some(Probed(result))],
         rateLimited := p.rateLimited || result.rateLimited,
         workers := p.workers[w := Looping])
  }

  /** A schedule: every action is enabled when its turn comes. */
  predicate Runnable(p: Pool, acts: seq<Action>)
    decreases |acts|
  {
    acts == [] || (Enabled(p, acts[0]) && Runnable(Step(p, acts[0]), acts[1..]))
  }

  function Run(p: Pool, acts: seq<Action>): Pool
    requires Runnable(p, acts)
    decreases |acts|
  {
    if acts == [] then p else Run(Step(p, acts[0]), acts[1..])
  }

  /** The stateful pool, with the results in one buffer. */
  class BoundedMap {
    var next: nat
    var rateLimited: bool
    const results: array<Option<Slot>>
    var workers: seq<Worker>

    constructor (n: nat, limit: int)
      ensures fresh(results) && Value() == NewPool(n, limit)
    {
      next, rateLimited := 0, false;
      results := new Option<Slot>[n](_ => None);
      workers := seq(WorkerCount(n, limit), _ => Looping);
    }

    ghost function Value(): Pool
      reads this, results
    {
      Pool(next, rateLimited, results[..], workers)
    }

    /** One turn of a worker's loop up to its next await. */
    method TakeNext(w: nat)
      requires Enabled(Value(), Take(w))
      modifies this, results
      ensures Value() == Step(old(Value()), Take(w))
    {
      var index := next;
      if index >= results.Length {
        workers := workers[w := Stopped];
        return;
      }
      next := next + 1;
      if rateLimited {
        results[index] := Some(Skipped);
      } else {
        workers := workers[w := Probing(index)];
      }
    }

    /** The worker's probe settled. */
    method Settle(w: nat, result: ProbeResult)
      requires Enabled(Value(), Finish(w, result))
      modifies this, results
      ensures Value() == Step(old(Value()), Finish(w, result))
    {
      results[workers[w].index] := Some(Probed(result));
      if result.rateLimited { rateLimited := true; }
      workers := workers[w := Looping];
    }
  }

  // ---------------------------------------------------------------- what every step keeps

  ghost predicate InFlight(p: Pool, i: nat) {
    exists w :: 0 <= w < |p.workers| && p.workers[w] == Probing(i)
  }

  predicate IsSkipped(p: Pool, i: nat) {
    i < |p.results| && p.results[i] == Some(Skipped)
  }

  predicate IsRateLimited(s: Option<Slot>) {
    s.Some? && s.value.Probed? && s.value.result.rateLimited
  }

  ghost predicate Inv(p: Pool) {
    && p.next <= |p.results|
    && |p.workers| >= 1
    // taken indices are either stored or being probed, never both; the rest are untouched
    && (forall w :: 0 <= w < |p.workers| && p.workers[w].Probing? ==>
          p.workers[w].index < p.next && p.results[p.workers[w].index].None?)
    && (forall i :: 0 <= i < p.next && p.results[i].None? ==> InFlight(p, i))
    && (forall i :: p.next <= i < |p.results| ==> p.results[i].None?)
    && (forall v, w :: 0 <= v < w < |p.workers| && p.workers[v].Probing? && p.workers[w].Probing? ==>
          p.workers[v].index != p.workers[w].index)
    // the flag says exactly that a rate-limited result is stored
    && (p.rateLimited <==> exists i :: 0 <= i < |p.results| && IsRateLimited(p.results[i]))
    // skipping starts at one index, never before a stored rate limit, and never ends
    && (forall i :: 0 <= i < |p.results| && p.results[i] == Some(Skipped) ==> p.rateLimited)
    && (forall i, j :: 0 <= i < j < p.next && p.results[i] == Some(Skipped) ==> p.results[j] == Some(Skipped))
    && (forall w :: 0 <= w < |p.workers| && p.workers[w].Stopped? ==> p.next == |p.results|)
  }

  lemma NewPoolInv(n: nat, limit: int)
    ensures Inv(NewPool(n, limit))
  {
  }

  lemma InFlightKept(p: Pool, q: Pool, w: nat, i: nat)
    requires w < |p.workers| && InFlight(p, i) && p.workers[w] != Probing(i)
    requires |q.workers| == |p.workers| && forall v :: 0 <= v < |p.workers| && v != w ==> q.workers[v] == p.workers[v]
    ensures InFlight(q, i)
  {
    var v :| 0 <= v < |p.workers| && p.workers[v] == Probing(i);
    assert q.workers[v] == Probing(i);
  }

  lemma SkipKeepsInv(p: Pool, w: nat)
    requires Inv(p) && Enabled(p, Take(w)) && p.next < |p.results| && p.rateLimited
    ensures Inv(Step(p, Take(w)))
  {
    var q := Step(p, Take(w));
    forall i | 0 <= i < q.next && q.results[i].None? ensures InFlight(q, i) {
      InFlightKept(p, q, w, i);
    }
    var i :| 0 <= i < |p.results| && IsRateLimited(p.results[i]);
    assert q.results[i] == p.results[i];
  }

  lemma StartKeepsInv(p: Pool, w: nat)
    requires Inv(p) && Enabled(p, Take(w)) && p.next < |p.results| && !p.rateLimited
    ensures Inv(Step(p, Take(w)))
  {
    var q := Step(p, Take(w));
    forall i | 0 <= i < q.next && q.results[i].None? ensures InFlight(q, i) {
      if i < p.next { InFlightKept(p, q, w, i); } else { assert q.workers[w] == Probing(i); }
    }
  }

  lemma StopKeepsInv(p: Pool, w: nat)
    requires Inv(p) && Enabled(p, Take(w)) && p.next >= |p.results|
    ensures Inv(Step(p, Take(w)))
  {
    var q := Step(p, Take(w));
    forall i | 0 <= i < q.next && q.results[i].None? ensures InFlight(q, i) {
      InFlightKept(p, q, w, i);
    }
  }

  lemma FinishKeepsInv(p: Pool, w: nat, result: ProbeResult)
    requires Inv(p) && Enabled(p, Finish(w, result))
    ensures Inv(Step(p, Finish(w, result)))
  {
    var q := Step(p, Finish(w, result));
    forall i | 0 <= i < q.next && q.results[i].None? ensures InFlight(q, i) {
      assert q.workers == p.workers[w := Looping];
      InFlightKept(p, q, w, i);
    }
    if p.rateLimited {
      var i :| 0 <= i < |p.results| && IsRateLimited(p.results[i]);
      assert q.results[i] == p.results[i];
    }
    if result.rateLimited { assert IsRateLimited(q.results[p.workers[w].index]); }
  }

  lemma StepKeepsInv(p: Pool, a: Action)
    requires Inv(p) && Enabled(p, a)
    ensures Inv(Step(p, a))
  {
    match a
    case Take(w) =>
      if p.next >= |p.results| { StopKeepsInv(p, w); }
      else if p.rateLimited { SkipKeepsInv(p, w); }
      else { StartKeepsInv(p, w); }
    case Finish(w, result) => FinishKeepsInv(p, w, result);
  }

  lemma {:induction false} RunKeepsInv(p: Pool, acts: seq<Action>)
    requires Inv(p) && Runnable(p, acts)
    ensures Inv(Run(p, acts))
    ensures |Run(p, acts).workers| == |p.workers| && |Run(p, acts).results| == |p.results|
    decreases |acts|
  {
    if acts != [] {
      StepKeepsInv(p, acts[0]);
      RunKeepsInv(Step(p, acts[0]), acts[1..]);
    }
  }

  // ---------------------------------------------------------------- over every interleaving

  function Count(workers: seq<Worker>): nat {
    if workers == [] then 0 else (if workers[0].Probing? then 1 else 0) + Count(workers[1..])
  }

  function Idle(workers: seq<Worker>): nat {
    if workers == [] then 0 else (if workers[0].Stopped? then 0 else 1) + Idle(workers[1..])
  }

  lemma {:induction false} CountUpdate(workers: seq<Worker>, w: nat, x: Worker)
    requires w < |workers|
    ensures Count(workers[w := x])
         == Count(workers) - (if workers[w].Probing? then 1 else 0) + (if x.Probing? then 1 else 0)
    ensures Idle(workers[w := x])
         == Idle(workers) - (if workers[w].Stopped? then 0 else 1) + (if x.Stopped? then 0 else 1)
  {
    if w == 0 {
      assert workers[w := x][1..] == workers[1..];
    } else {
      CountUpdate(workers[1..], w - 1, x);
      assert workers[w := x][1..] == workers[1..][w - 1 := x];
    }
  }

  lemma {:induction false} CountAtMost(workers: seq<Worker>)
    ensures Count(workers) <= |workers| && Idle(workers) <= |workers|
  {
    if workers != [] { CountAtMost(workers[1..]); }
  }

  /** A stored result is final: each index is written at most once. */
  lemma {:induction false} WrittenOnce(p: Pool, acts: seq<Action>, i: nat)
    requires Inv(p) && Runnable(p, acts) && i < |p.results| && p.results[i].Some?
    ensures |Run(p, acts).results| == |p.results| && Run(p, acts).results[i] == p.results[i]
    decreases |acts|
  {
    if acts != [] {
      StepKeepsInv(p, acts[0]);
      WrittenOnce(Step(p, acts[0]), acts[1..], i);
    }
  }

  /** Never more probes in flight than the limit (or one, for a limit below one). */
  lemma BoundedConcurrency(n: nat, limit: int, acts: seq<Action>)
    requires Runnable(NewPool(n, limit), acts)
    ensures Count(Run(NewPool(n, limit), acts).workers) <= if limit < 1 then 1 else limit
  {
    NewPoolInv(n, limit);
    RunKeepsInv(NewPool(n, limit), acts);
    CountAtMost(Run(NewPool(n, limit), acts).workers);
  }

  /** Once a rate-limited result is stored, no probe starts: whoever is probing later was
      already probing then, and every index not yet taken is skipped. */
  lemma {:induction false} NoProbeAfterRateLimit(p: Pool, acts: seq<Action>)
    requires Inv(p) && Runnable(p, acts) && p.rateLimited
    ensures var q := Run(p, acts);
            && |q.workers| == |p.workers| && |q.results| == |p.results| && p.next <= q.next
            && (forall w :: 0 <= w < |q.workers| && q.workers[w].Probing? ==> q.workers[w] == p.workers[w])
            && (forall i: nat :: p.next <= i < q.next ==> IsSkipped(q, i))
    decreases |acts|
  {
    if acts != [] {
      var s := Step(p, acts[0]);
      StepKeepsInv(p, acts[0]);
      RunKeepsInv(s, acts[1..]);
      NoProbeAfterRateLimit(s, acts[1..]);
      if s.next == p.next + 1 { WrittenOnce(s, acts[1..], p.next); }
    }
  }

  /** Work left: two steps per index not taken, one per probe in flight, one per worker to stop. */
  function Measure(p: Pool): int {
    2 * (|p.results| - p.next) + Count(p.workers) + Idle(p.workers)
  }

  lemma StepDecreases(p: Pool, a: Action)
    requires Inv(p) && Enabled(p, a)
    ensures 0 <= Measure(Step(p, a)) < Measure(p)
  {
    StepKeepsInv(p, a);
    var w := a.worker;
    CountUpdate(p.workers, w, Stopped);
    CountUpdate(p.workers, w, Looping);
    CountUpdate(p.workers, w, Probing(p.next));
  }

  /** Termination: no schedule is longer than two steps per candidate plus one per worker. */
  lemma {:induction false} EveryScheduleEnds(p: Pool, acts: seq<Action>)
    requires Inv(p) && Runnable(p, acts)
    ensures |acts| <= Measure(p)
    decreases |acts|
  {
    CountAtMost(p.workers);
    if acts != [] {
      StepKeepsInv(p, acts[0]);
      StepDecreases(p, acts[0]);
      EveryScheduleEnds(Step(p, acts[0]), acts[1..]);
    }
  }

  /** No deadlock: until every worker has stopped, some step is enabled. */
  lemma NeverStuck(p: Pool, w: nat, result: ProbeResult)
    requires Inv(p) && w < |p.workers| && !p.workers[w].Stopped?
    ensures Enabled(p, Take(w)) || Enabled(p, Finish(w, result))
  {
  }

  /** What `Promise.all` delivers when the last worker stops, under every interleaving: a slot
      for every candidate, probed ones first, then skipped ones; nothing is skipped unless some
      probe reported a rate limit. */
  lemma FinishedPool(n: nat, limit: int, acts: seq<Action>)
    requires Runnable(NewPool(n, limit), acts)
    requires forall w :: 0 <= w < |Run(NewPool(n, limit), acts).workers| ==> Run(NewPool(n, limit), acts).workers[w].Stopped?
    ensures var results := Run(NewPool(n, limit), acts).results;
            && |results| == n
            && (exists k: nat :: SplitsAt(results, k))
            && ((forall i :: 0 <= i < n ==> !IsRateLimited(results[i])) ==> SplitsAt(results, n))
  {
    var start := NewPool(n, limit);
    var p := Run(start, acts);
    NewPoolInv(n, limit);
    RunKeepsInv(start, acts);
    assert p.workers[0].Stopped?;
    forall i | 0 <= i < n ensures p.results[i].Some? {
      assert p.results[i].Some? || InFlight(p, i);
    }
    var k := FirstSkipped(p.results, 0);
    assert SplitsAt(p.results, k);
  }

  /** Probed up to `k`, skipped from there on. */
  ghost predicate SplitsAt(results: seq<Option<Slot>>, k: nat) {
    && k <= |results|
    && (forall i :: 0 <= i < k ==> results[i].Some? && results[i].value.Probed?)
    && (forall i :: k <= i < |results| ==> results[i] == Some(Skipped))
  }

  function FirstSkipped(results: seq<Option<Slot>>, from: nat): (k: nat)
    requires from <= |results|
    ensures from <= k <= |results|
    ensures forall i :: from <= i < k ==> results[i] != Some(Skipped)
    ensures k < |results| ==> results[k] == Some(Skipped)
    decreases |results| - from
  {
    if from == |results| || results[from] == Some(Skipped) then from else FirstSkipped(results, from + 1)
  }

  // ---------------------------------------------------------------- what a slot holds

  /** In the schedule from `p`, a worker that was probing index `i` settled with this result. */
  predicate SettledWith(p: Pool, acts: seq<Action>, i: nat, result: ProbeResult)
    requires Runnable(p, acts)
    decreases |acts|
  {
    acts != [] && (|| (acts[0].Finish? && p.workers[acts[0].worker] == Probing(i) && acts[0].result == result)
                   || SettledWith(Step(p, acts[0]), acts[1..], i, result))
  }

  /** A probed slot holds exactly what the probe of that index settled with. */
  lemma {:induction false} SlotsHoldWhatWasProbed(p: Pool, acts: seq<Action>, i: nat, result: ProbeResult)
    requires Inv(p) && Runnable(p, acts) && i < |p.results| && p.results[i].None?
    ensures |Run(p, acts).results| == |p.results|
    ensures Run(p, acts).results[i] == Some(Probed(result)) <==> SettledWith(p, acts, i, result)
    decreases |acts|
  {
    if acts != [] {
      var next := Step(p, acts[0]);
      StepKeepsInv(p, acts[0]);
      RunKeepsInv(next, acts[1..]);
      if next.results[i].None? {
        SlotsHoldWhatWasProbed(next, acts[1..], i, result);
      } else {
        WrittenOnce(next, acts[1..], i);
        NothingSettlesTwice(next, acts[1..], i, result);
      }
    }
  }

  lemma {:induction false} NothingSettlesTwice(p: Pool, acts: seq<Action>, i: nat, result: ProbeResult)
    requires Inv(p) && Runnable(p, acts) && i < |p.results| && p.results[i].Some?
    ensures !SettledWith(p, acts, i, result)
    decreases |acts|
  {
    if acts != [] {
      StepKeepsInv(p, acts[0]);
      NothingSettlesTwice(Step(p, acts[0]), acts[1..], i, result);
    }
  }

  // ---------------------------------------------------------------- full use of the limit

  /** Workers `from` and on each take an index, in order. */
  function TakeAll(from: nat, count: nat): seq<Action>
    decreases count
  {
    if count == 0 then [] else [Take(from)] + TakeAll(from + 1, count - 1)
  }

  /** Workers below `from` probe their own index, the others have not begun. */
  ghost predicate Filling(p: Pool, from: nat, n: nat) {
    && |p.results| == n && from <= |p.workers| <= n && p.next == from && !p.rateLimited
    && (forall w :: 0 <= w < from ==> p.workers[w] == Probing(w))
    && (forall w :: from <= w < |p.workers| ==> p.workers[w] == Looping)
  }

  lemma {:induction false} FillingRuns(p: Pool, from: nat, n: nat)
    requires Filling(p, from, n)
    ensures var acts := TakeAll(from, |p.workers| - from);
            && Runnable(p, acts) && |Run(p, acts).workers| == |p.workers| && Filling(Run(p, acts), |p.workers|, n)
    decreases |p.workers| - from
  {
    if from < |p.workers| {
      var acts := TakeAll(from, |p.workers| - from);
      assert acts[0] == Take(from) && acts[1..] == TakeAll(from + 1, |p.workers| - from - 1);
      FillingRuns(Step(p, acts[0]), from + 1, n);
    }
  }

  lemma {:induction false} AllProbing(workers: seq<Worker>)
    requires forall w :: 0 <= w < |workers| ==> workers[w].Probing?
    ensures Count(workers) == |workers|
  {
    if workers != [] { AllProbing(workers[1..]); }
  }

  /** The limit is used in full: with `n` candidates and a limit of at least one, some schedule has
      as many probes in flight as the smaller of the two. */
  lemma LimitIsUsedInFull(n: nat, limit: int)
    requires 1 <= n && 1 <= limit
    ensures exists acts :: Runnable(NewPool(n, limit), acts) && Count(Run(NewPool(n, limit), acts).workers) == if limit < n then limit else n
  {
    var p := NewPool(n, limit);
    FillingRuns(p, 0, n);
    var acts := TakeAll(0, |p.workers|);
    AllProbing(Run(p, acts).workers);
    assert Runnable(p, acts);
  }
}
