/** The memory of rejected OAuth tokens: bounded by recent churn, re-verified one token per
    cycle, and fenced against cycles that started before a credential change. */
module OauthRejections {
  import opened Sequences

  /** Six hours, in milliseconds. */
  const REVOKED_TOKEN_REPROBE_MS := 6 * 60 * 60_000

  type TokenHash = string

  datatype Entry = Entry(token: TokenHash, at: int)

  /** The remembered rejections in insertion order, and the credential epoch. */
  datatype Memory = Memory(rejected: seq<Entry>, epoch: nat)

  predicate Expired(e: Entry, now: int) {
    !(now - e.at < REVOKED_TOKEN_REPROBE_MS && now - e.at >= 0)
  }

  predicate Holds(s: seq<Entry>, token: TokenHash) {
    exists i :: 0 <= i < |s| && s[i].token == token
  }

  ghost predicate DistinctTokens(s: seq<Entry>) {
    forall i, j :: 0 <= i < j < |s| ==> s[i].token != s[j].token
  }

  /** Index `i` is the first of the oldest expired entries. */
  ghost predicate IsOldestExpired(s: seq<Entry>, now: int, i: nat) {
    && i < |s| && Expired(s[i], now)
    && (forall j :: 0 <= j < |s| && Expired(s[j], now) ==> s[i].at <= s[j].at)
    && (forall j :: 0 <= j < i && Expired(s[j], now) ==> s[i].at < s[j].at)
  }

  /** Position of the entry a cycle releases, or the length when nothing has expired. */
  function OldestExpired(s: seq<Entry>, now: int, n: nat): (i: nat)
    requires n <= |s|
    ensures i == |s| ==> forall j :: 0 <= j < n ==> !Expired(s[j], now)
    ensures i != |s| ==> i < n && IsOldestExpired(s[..n], now, i)
  {
    if n == 0 then |s|
    else
      var i := OldestExpired(s, now, n - 1);
      if Expired(s[n-1], now) && (i == |s| || s[n-1].at < s[i].at) then n - 1 else i
  }

  function Release(m: Memory, now: int): Memory {
    var i := OldestExpired(m.rejected, now, |m.rejected|);
    if i < |m.rejected| then m.(rejected := Without(m.rejected, i)) else m
  }

  function IndexOf(s: seq<Entry>, token: TokenHash): (i: nat)
    ensures i <= |s|
    ensures i < |s| ==> s[i].token == token
    ensures i == |s| <==> !Holds(s, token)
  {
    if s == [] then 0
    else if s[0].token == token then 0
    else
      var i := IndexOf(s[1..], token);
      assert forall k :: 1 <= k < |s| ==> s[k] == s[1..][k-1];
      i + 1
  }

  /** A map entry keeps its place when it is set again. */
  function Put(s: seq<Entry>, token: TokenHash, at: int): seq<Entry> {
    var i := IndexOf(s, token);
    if i < |s| then s[i := Entry(token, at)] else s + [Entry(token, at)]
  }

  function Drop(s: seq<Entry>, token: TokenHash): seq<Entry> {
    var i := IndexOf(s, token);
    if i < |s| then Without(s, i) else s
  }

  class RejectionMemory {
    var rejectedTokens: seq<Entry>
    var rejectionEpoch: nat

    constructor ()
      ensures Value() == Memory([], 0)
    {
      rejectedTokens, rejectionEpoch := [], 0;
    }

    ghost function Value(): Memory
      reads this
    {
      Memory(rejectedTokens, rejectionEpoch)
    }

    method ForgetClaudeOauthRejections()
      modifies this
      ensures Value() == Memory([], old(rejectionEpoch) + 1)
    {
      rejectedTokens := [];
      rejectionEpoch := rejectionEpoch + 1;
    }

    /** Releases the oldest expired entry, if any; younger expired siblings wait. */
    method ReleaseExpiredRejection(now: int)
      modifies this
      ensures Value() == Release(old(Value()), now)
    {
      var oldest := |rejectedTokens|;
      for n := 0 to |rejectedTokens|
        invariant oldest == OldestExpired(rejectedTokens, now, n)
      {
        var entry := rejectedTokens[n];
        if !Expired(entry, now) { continue; }
        if oldest == |rejectedTokens| || entry.at < rejectedTokens[oldest].at { oldest := n; }
      }
      if oldest < |rejectedTokens| {
        rejectedTokens := rejectedTokens[..oldest] + rejectedTokens[oldest+1..];
      }
    }

    /** A proven rejection counts only if no credential change intervened since the cycle began. */
    method Remember(token: TokenHash, at: int, cycleEpoch: nat)
      modifies this
      ensures Value() == if cycleEpoch == old(rejectionEpoch)
                         then old(Value()).(rejected := Put(old(rejectedTokens), token, at)) else old(Value())
    {
      if cycleEpoch == rejectionEpoch {
        rejectedTokens := Put(rejectedTokens, token, at);
      }
    }

    method NoteAccepted(token: TokenHash)
      modifies this
      ensures Value() == old(Value()).(rejected := Drop(old(rejectedTokens), token))
    {
      rejectedTokens := Drop(rejectedTokens, token);
    }
  }

  // ---------------------------------------------------------------- runs

  /** What happens to the memory, each at an instant: a cycle begins, its probe of a token is
      rejected or accepted, or credentials change. */
  datatype Op = Begin(now: int) | Reject(token: TokenHash, now: int) | Accept(token: TokenHash) | Forget

  /** One cycle at a time: `cycleEpoch` is what the running cycle captured at its start. */
  datatype State = State(memory: Memory, cycleEpoch: nat, clock: int)

  /** The clock never steps backwards. */
  predicate InOrder(clock: int, ops: seq<Op>)
    decreases |ops|
  {
    ops == [] || (&& (ops[0].Begin? || ops[0].Reject? ==> clock <= ops[0].now)
                  && InOrder(Later(clock, ops[0]), ops[1..]))
  }

  function Later(clock: int, op: Op): int {
    if op.Begin? || op.Reject? then op.now else clock
  }

  function Step(s: State, op: Op): State {
    match op
    case Begin(now) => State(Release(s.memory, now), s.memory.epoch, now)
    case Reject(token, now) =>
      State(if s.cycleEpoch == s.memory.epoch then s.memory.(rejected := Put(s.memory.rejected, token, now)) else s.memory,
            s.cycleEpoch, now)
    case Accept(token) => s.(memory := s.memory.(rejected := Drop(s.memory.rejected, token)))
    case Forget => s.(memory := Memory([], s.memory.epoch + 1))
  }

  function Run(s: State, ops: seq<Op>): State
    decreases |ops|
  {
    if ops == [] then s else Run(Step(s, ops[0]), ops[1..])
  }

  // ---------------------------------------------------------------- one release per cycle

  /** A cycle forgets at most one entry, and only the oldest of those past the time limit. */
  lemma ReleaseIsMinimal(m: Memory, now: int)
    ensures var r := Release(m, now);
            && r.epoch == m.epoch
            && (r == m <==> forall j :: 0 <= j < |m.rejected| ==> !Expired(m.rejected[j], now))
            && (r != m ==> exists i: nat :: IsOldestExpired(m.rejected, now, i) && r.rejected == Without(m.rejected, i))
  {
    var i := OldestExpired(m.rejected, now, |m.rejected|);
    assert m.rejected[..|m.rejected|] == m.rejected;
    if i < |m.rejected| { assert |Without(m.rejected, i)| == |m.rejected| - 1; }
  }

  // ---------------------------------------------------------------- the memory bound

  /** Entries other than `token` recorded at `t` or earlier. */
  function Older(s: seq<Entry>, token: TokenHash, t: int): nat {
    if s == [] then 0 else (if s[0].token != token && s[0].at <= t then 1 else 0) + Older(s[1..], token, t)
  }

  function Weight(e: Entry, token: TokenHash, t: int): nat {
    if e.token != token && e.at <= t then 1 else 0
  }

  lemma {:induction false} OlderWithout(s: seq<Entry>, i: nat, token: TokenHash, t: int)
    requires i < |s|
    ensures Older(s, token, t) == Older(Without(s, i), token, t) + Weight(s[i], token, t)
  {
    if i == 0 {
      assert Without(s, 0) == s[1..];
    } else {
      OlderWithout(s[1..], i - 1, token, t);
      assert Without(s, i)[1..] == Without(s[1..], i - 1);
    }
  }

  lemma {:induction false} OlderUpdate(s: seq<Entry>, i: nat, e: Entry, token: TokenHash, t: int)
    requires i < |s|
    ensures Older(s[i := e], token, t) == Older(s, token, t) - Weight(s[i], token, t) + Weight(e, token, t)
  {
    if i == 0 {
      assert s[i := e][1..] == s[1..];
    } else {
      OlderUpdate(s[1..], i - 1, e, token, t);
      assert s[i := e][1..] == s[1..][i - 1 := e];
    }
  }

  lemma {:induction false} OlderAppend(s: seq<Entry>, e: Entry, token: TokenHash, t: int)
    ensures Older(s + [e], token, t) == Older(s, token, t) + Weight(e, token, t)
  {
    if s == [] {
      assert s + [e] == [e];
    } else {
      OlderAppend(s[1..], e, token, t);
      assert (s + [e])[1..] == s[1..] + [e];
    }
  }

  lemma WithoutKeepsOthers(s: seq<Entry>, i: nat, e: Entry)
    requires i < |s| && e in s && s[i] != e
    ensures e in Without(s, i)
  {
    var k :| 0 <= k < |s| && s[k] == e;
    assert Without(s, i)[if k < i then k else k - 1] == e;
  }

  /** A cycle that begins six hours after `t` or later. */
  predicate Due(op: Op, t: int) {
    op.Begin? && op.now >= t + 6 * 60 * 60 * 1000
  }

  function DueCycles(ops: seq<Op>, t: int): nat {
    if ops == [] then 0 else (if Due(ops[0], t) then 1 else 0) + DueCycles(ops[1..], t)
  }

  ghost predicate NeverRejected(ops: seq<Op>, token: TokenHash) {
    forall i :: 0 <= i < |ops| && ops[i].Reject? ==> ops[i].token != token
  }

  /** `token` is either gone, or still there with fewer older siblings than before by `spent`,
      up to `gained` new ones. */
  ghost predicate Progress(before: seq<Entry>, after: seq<Entry>, token: TokenHash, t: int, spent: nat, gained: nat) {
    && DistinctTokens(after)
    && (|| !Holds(after, token)
        || (Entry(token, t) in after && Older(after, token, t) + spent <= Older(before, token, t) + gained))
  }

  lemma WithoutKeepsDistinct(s: seq<Entry>, i: nat)
    requires DistinctTokens(s) && i < |s|
    ensures DistinctTokens(Without(s, i)) && !Holds(Without(s, i), s[i].token)
  {
    var r := Without(s, i);
    assert forall k :: 0 <= k < |r| ==> r[k] == s[if k < i then k else k + 1];
  }

  lemma ReleaseProgresses(s: seq<Entry>, now: int, token: TokenHash, t: int)
    requires DistinctTokens(s) && Entry(token, t) in s && t <= now
    ensures Progress(s, Release(Memory(s, 0), now).rejected, token, t,
                     if now >= t + 6 * 60 * 60 * 1000 then 1 else 0, 0)
  {
    var i := OldestExpired(s, now, |s|);
    assert s[..|s|] == s;
    var k :| 0 <= k < |s| && s[k] == Entry(token, t);
    if i < |s| {
      WithoutKeepsDistinct(s, i);
      OlderWithout(s, i, token, t);
      if i != k { WithoutKeepsOthers(s, i, Entry(token, t)); }
    }
  }

  lemma RejectProgresses(s: seq<Entry>, other: TokenHash, now: int, token: TokenHash, t: int)
    requires DistinctTokens(s) && Entry(token, t) in s && t <= now && other != token
    ensures Progress(s, Put(s, other, now), token, t, 0, if now == t then 1 else 0)
  {
    var i := IndexOf(s, other);
    var k :| 0 <= k < |s| && s[k] == Entry(token, t);
    assert Put(s, other, now)[k] == Entry(token, t);
    if i < |s| { OlderUpdate(s, i, Entry(other, now), token, t); } else { OlderAppend(s, Entry(other, now), token, t); }
  }

  lemma AcceptProgresses(s: seq<Entry>, other: TokenHash, token: TokenHash, t: int)
    requires DistinctTokens(s) && Entry(token, t) in s
    ensures Progress(s, Drop(s, other), token, t, 0, 0)
  {
    var i := IndexOf(s, other);
    if i < |s| {
      WithoutKeepsDistinct(s, i);
      OlderWithout(s, i, token, t);
      if other != token { WithoutKeepsOthers(s, i, Entry(token, t)); }
    }
  }

  lemma AbsentStays(s: State, op: Op, token: TokenHash)
    requires !Holds(s.memory.rejected, token) && !(op.Reject? && op.token == token)
    requires DistinctTokens(s.memory.rejected)
    ensures !Holds(Step(s, op).memory.rejected, token) && DistinctTokens(Step(s, op).memory.rejected)
  {
  }

  /** Another token is rejected at the very instant `t`. */
  predicate AtTheSameInstant(op: Op, token: TokenHash, t: int) {
    op.Reject? && op.token != token && op.now == t
  }

  function SameInstant(ops: seq<Op>, token: TokenHash, t: int): nat {
    if ops == [] then 0 else (if AtTheSameInstant(ops[0], token, t) then 1 else 0) + SameInstant(ops[1..], token, t)
  }

  lemma StepProgresses(s: State, op: Op, token: TokenHash, t: int)
    requires DistinctTokens(s.memory.rejected) && Entry(token, t) in s.memory.rejected && t <= s.clock
    requires op.Begin? || op.Reject? ==> s.clock <= op.now
    requires !(op.Reject? && op.token == token)
    ensures Progress(s.memory.rejected, Step(s, op).memory.rejected, token, t, if Due(op, t) then 1 else 0,
                     if AtTheSameInstant(op, token, t) then 1 else 0)
  {
    match op
    case Begin(now) => ReleaseProgresses(s.memory.rejected, now, token, t);
    case Reject(other, now) =>
      if s.cycleEpoch == s.memory.epoch { RejectProgresses(s.memory.rejected, other, now, token, t); }
    case Accept(other) => AcceptProgresses(s.memory.rejected, other, token, t);
    case Forget =>
  }

  lemma {:induction false} AbsentForGood(s: State, ops: seq<Op>, token: TokenHash)
    requires !Holds(s.memory.rejected, token) && NeverRejected(ops, token) && DistinctTokens(s.memory.rejected)
    ensures !Holds(Run(s, ops).memory.rejected, token)
    decreases |ops|
  {
    if ops != [] {
      AbsentStays(s, ops[0], token);
      AbsentForGood(Step(s, ops[0]), ops[1..], token);
    }
  }

  lemma {:induction false} EntryIsForgotten(s: State, ops: seq<Op>, token: TokenHash, t: int)
    requires DistinctTokens(s.memory.rejected) && Entry(token, t) in s.memory.rejected && t <= s.clock
    requires InOrder(s.clock, ops) && NeverRejected(ops, token)
    requires DueCycles(ops, t) > Older(s.memory.rejected, token, t) + SameInstant(ops, token, t)
    ensures !Holds(Run(s, ops).memory.rejected, token)
    decreases |ops|
  {
    var next := Step(s, ops[0]);
    StepProgresses(s, ops[0], token, t);
    if Holds(next.memory.rejected, token) {
      EntryIsForgotten(next, ops[1..], token, t);
    } else {
      AbsentForGood(next, ops[1..], token);
    }
  }

  lemma RecordingRemembers(s: seq<Entry>, token: TokenHash, t: int)
    requires DistinctTokens(s)
    ensures DistinctTokens(Put(s, token, t)) && Entry(token, t) in Put(s, token, t)
  {
    var i := IndexOf(s, token);
    assert Put(s, token, t)[i] == Entry(token, t);
  }

  /** The memory bound, from the recording on: a rejection recorded at `t`, with `k` others
      recorded no later (before it, or still at that instant), is gone after `k + 1` cycles that
      start once its time is up, unless the token is rejected again. */
  lemma RejectionIsForgotten(s: State, token: TokenHash, t: int, ops: seq<Op>)
    requires DistinctTokens(s.memory.rejected) && s.cycleEpoch == s.memory.epoch
    requires InOrder(t, ops) && NeverRejected(ops, token)
    requires var recorded := Step(s, Reject(token, t));
             DueCycles(ops, t) > Older(recorded.memory.rejected, token, t) + SameInstant(ops, token, t)
    ensures !Holds(Run(Step(s, Reject(token, t)), ops).memory.rejected, token)
  {
    RecordingRemembers(s.memory.rejected, token, t);
    EntryIsForgotten(Step(s, Reject(token, t)), ops, token, t);
  }

  // ---------------------------------------------------------------- the epoch fence

  ghost predicate NoCycleBegins(ops: seq<Op>) {
    forall i :: 0 <= i < |ops| ==> !ops[i].Begin?
  }

  lemma {:induction false} StaleCycleStoresNothing(s: State, ops: seq<Op>)
    requires s.cycleEpoch < s.memory.epoch && s.memory.rejected == [] && NoCycleBegins(ops)
    ensures Run(s, ops).memory.rejected == []
    decreases |ops|
  {
    if ops != [] { StaleCycleStoresNothing(Step(s, ops[0]), ops[1..]); }
  }

  /** The epoch a cycle captured is never ahead of the memory's. */
  lemma {:induction false} EpochsNeverAhead(s: State, ops: seq<Op>)
    requires s.cycleEpoch <= s.memory.epoch
    ensures Run(s, ops).cycleEpoch <= Run(s, ops).memory.epoch
    decreases |ops|
  {
    if ops != [] { EpochsNeverAhead(Step(s, ops[0]), ops[1..]); }
  }

  /** After a credential change, nothing the running cycle still reports is stored: the memory
      stays empty until a cycle begins under the new credentials. */
  lemma ForgetFencesOlderCycles(before: seq<Op>, after: seq<Op>, clock: int)
    requires NoCycleBegins(after)
    ensures var s := Run(State(Memory([], 0), 0, clock), before);
            Run(Step(s, Forget), after).memory.rejected == []
  {
    var start := State(Memory([], 0), 0, clock);
    EpochsNeverAhead(start, before);
    StaleCycleStoresNothing(Step(Run(start, before), Forget), after);
  }

  // ---------------------------------------------------------------- kept for its whole time

  /** Nothing in the operations may make the memory give up the token: no cycle begins after its
      time is up, it is neither accepted nor rejected anew, and credentials stay. */
  predicate Undisturbed(ops: seq<Op>, token: TokenHash, t: int) {
    forall i :: 0 <= i < |ops| ==>
      match ops[i]
      case Begin(now) => t <= now < t + 6 * 60 * 60 * 1000
      case Reject(other, _) => other != token
      case Accept(other) => other != token
      case Forget => false
  }

  lemma UndisturbedStays(s: State, op: Op, token: TokenHash, t: int)
    requires DistinctTokens(s.memory.rejected) && Entry(token, t) in s.memory.rejected && Undisturbed([op], token, t)
    ensures DistinctTokens(Step(s, op).memory.rejected) && Entry(token, t) in Step(s, op).memory.rejected
  {
    var rejected := s.memory.rejected;
    var k :| 0 <= k < |rejected| && rejected[k] == Entry(token, t);
    assert [op][0] == op;
    match op
    case Begin(now) =>
      var i := OldestExpired(rejected, now, |rejected|);
      assert rejected[..|rejected|] == rejected;
      if i < |rejected| {
        WithoutKeepsDistinct(rejected, i);
        WithoutKeepsOthers(rejected, i, Entry(token, t));
      }
    case Reject(other, now) =>
      assert Put(rejected, other, now)[k] == Entry(token, t);
    case Accept(other) =>
      var i := IndexOf(rejected, other);
      if i < |rejected| {
        WithoutKeepsDistinct(rejected, i);
        WithoutKeepsOthers(rejected, i, Entry(token, t));
      }
    case Forget =>
  }

  /** A rejection is remembered, at its instant, through every cycle that begins within six hours
      of it, whatever else is remembered and forgotten meanwhile. */
  lemma {:induction false} RejectionIsKeptForSixHours(s: State, token: TokenHash, t: int, ops: seq<Op>)
    requires DistinctTokens(s.memory.rejected) && Entry(token, t) in s.memory.rejected && Undisturbed(ops, token, t)
    ensures Entry(token, t) in Run(s, ops).memory.rejected
    decreases |ops|
  {
    if ops != [] {
      UndisturbedStays(s, ops[0], token, t);
      forall i | 0 <= i < |ops[1..]| ensures Undisturbed([ops[1..][i]], token, t) { assert ops[1..][i] == ops[i + 1]; }
      RejectionIsKeptForSixHours(Step(s, ops[0]), token, t, ops[1..]);
    }
  }

  /** An accepted token is forgotten and no other; so is everything when credentials change. */
  lemma AcceptingForgetsTheTokenAlone(s: State, token: TokenHash, other: Entry)
    requires DistinctTokens(s.memory.rejected)
    ensures !Holds(Step(s, Accept(token)).memory.rejected, token)
    ensures other.token != token ==> (other in Step(s, Accept(token)).memory.rejected <==> other in s.memory.rejected)
    ensures Step(s, Forget).memory.rejected == []
  {
    var rejected := s.memory.rejected;
    var i := IndexOf(rejected, token);
    if i < |rejected| {
      WithoutKeepsDistinct(rejected, i);
      if other in rejected && other.token != token { WithoutKeepsOthers(rejected, i, other); }
    } else {
      assert Drop(rejected, token) == rejected;
    }
  }
}
