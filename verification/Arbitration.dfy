/** Evidence-first arbitration: eight ordered axes rank the candidates, and every published
    record (decisive axis, tie disclosure, pairwise artifact, scorecard) is derived from the
    same registry.  Proves that the records explain the ranking that was taken. */
module Arbitration {
  import opened Knowledge
  import opened StableSorting

  datatype GateStatus = GatePassed | GateFailed | GateOther

  datatype Gate = Gate(id: string, required: bool, status: GateStatus)

  datatype Candidate = Candidate(
    attemptId: string,
    name: string,
    gates: seq<Gate>,
    acceptanceCovered: nat,
    acceptanceTotal: int,
    blockers: nat,
    testsPassed: int,
    testsTotal: int,
    finalReviewClean: bool,
    toolWarnings: Option<int>,
    diffSize: Option<int>,
    costUsd: Option<real>)

  datatype Axis =
    | RequiredGates | AcceptanceCoverage | Blockers | Tests | CleanReview | ToolWarnings | DiffSize | Cost

  /** The ranking axes, in precedence order. */
  const AXES: seq<Axis> :=
    [RequiredGates, AcceptanceCoverage, Blockers, Tests, CleanReview, ToolWarnings, DiffSize, Cost]

  predicate RequiredGatesPassed(c: Candidate) {
    forall i :: 0 <= i < |c.gates| && c.gates[i].required ==> c.gates[i].status.GatePassed?
  }

  function Fraction(part: int, total: int): real {
    if total > 0 then part as real / total as real else 0.0
  }

  /** Value of an axis; higher is better. */
  function Value(axis: Axis, c: Candidate): real {
    match axis
    case RequiredGates => if RequiredGatesPassed(c) then 1.0 else 0.0
    case AcceptanceCoverage => Fraction(c.acceptanceCovered, c.acceptanceTotal)
    case Blockers => -(c.blockers as real)
    case Tests => Fraction(c.testsPassed, c.testsTotal)
    case CleanReview => if c.finalReviewClean then 1.0 else 0.0
    case ToolWarnings => -(c.toolWarnings.GetOr(0) as real)
    case DiffSize => -(c.diffSize.GetOr(0) as real)
    case Cost => -c.costUsd.GetOr(0.0)
  }

  function ScoreTuple(c: Candidate): (t: seq<real>)
    ensures |t| == |AXES| && forall i :: 0 <= i < |AXES| ==> t[i] == Value(AXES[i], c)
  {
    seq(|AXES|, i requires 0 <= i < |AXES| => Value(AXES[i], c))
  }

  /** First position at which two candidates differ; `|AXES|` when they never do. */
  function FirstDifference(a: Candidate, b: Candidate, from: nat): (k: nat)
    requires from <= |AXES|
    ensures from <= k <= |AXES|
    ensures forall i :: from <= i < k ==> Value(AXES[i], a) == Value(AXES[i], b)
    ensures k < |AXES| ==> Value(AXES[k], a) != Value(AXES[k], b)
    decreases |AXES| - from
  {
    if from == |AXES| || Value(AXES[from], a) != Value(AXES[from], b) then from
    else FirstDifference(a, b, from + 1)
  }

  /** `a` ranks ahead of or level with `b`. */
  predicate NotBehind(a: Candidate, b: Candidate) {
    var k := FirstDifference(a, b, 0);
    k == |AXES| || Value(AXES[k], a) > Value(AXES[k], b)
  }

  function DecidingAxis(a: Candidate, b: Candidate): Option<Axis> {
    var k := FirstDifference(a, b, 0);
    if k < |AXES| then Some(AXES[k]) else None
  }

  predicate Level(a: Candidate, b: Candidate) {
    forall i :: 0 <= i < |AXES| ==> Value(AXES[i], a) == Value(AXES[i], b)
  }

  /** Lexicographic comparison of score tuples, missing entries counting as zero: negative when
      `a` belongs first. */
  method CompareTuples(a: seq<real>, b: seq<real>) returns (order: int)
    ensures order == 0 <==> forall i :: 0 <= i < |a| || 0 <= i < |b| ==> At(a, i) == At(b, i)
    ensures order < 0 <==> exists k :: (0 <= k < |a| || 0 <= k < |b|) && At(a, k) > At(b, k)
                             && forall i :: 0 <= i < k ==> At(a, i) == At(b, i)
    ensures order == 0 || order == -1 || order == 1
  {
    var n := if |a| < |b| then |b| else |a|;
    for i := 0 to n
      invariant forall k :: 0 <= k < i ==> At(a, k) == At(b, k)
    {
      if At(a, i) != At(b, i) {
        return if At(a, i) > At(b, i) then -1 else 1;
      }
    }
    return 0;
  }

  function At(t: seq<real>, i: nat): real {
    if i < |t| then t[i] else 0.0
  }

  /** A missing entry is a zero: appending one makes no difference. */
  lemma MissingIsZero(t: seq<real>, i: nat)
    ensures At(t + [0.0], i) == At(t, i)
  {
  }

  method CompareCandidates(a: Candidate, b: Candidate) returns (order: int)
    ensures order <= 0 <==> NotBehind(a, b)
    ensures order == 0 <==> Level(a, b)
  {
    order := CompareTuples(ScoreTuple(a), ScoreTuple(b));
    var k := FirstDifference(a, b, 0);
    assert forall i: nat :: i < |AXES| ==> At(ScoreTuple(a), i) == Value(AXES[i], a) && At(ScoreTuple(b), i) == Value(AXES[i], b);
  }

  // ---------------------------------------------------------------- what the axes say

  /** `a` beats `b` on an axis, read off the evidence itself. */
  predicate Beats(axis: Axis, a: Candidate, b: Candidate) {
    match axis
    case RequiredGates => RequiredGatesPassed(a) && !RequiredGatesPassed(b)
    case AcceptanceCoverage =>
      HigherShare(a.acceptanceCovered, a.acceptanceTotal, b.acceptanceCovered, b.acceptanceTotal)
    case Blockers => a.blockers < b.blockers
    case Tests => HigherShare(a.testsPassed, a.testsTotal, b.testsPassed, b.testsTotal)
    case CleanReview => a.finalReviewClean && !b.finalReviewClean
    case ToolWarnings => a.toolWarnings.GetOr(0) < b.toolWarnings.GetOr(0)
    case DiffSize => a.diffSize.GetOr(0) < b.diffSize.GetOr(0)
    case Cost => a.costUsd.GetOr(0.0) < b.costUsd.GetOr(0.0)
  }

  /** Shares compared by cross-multiplication; no total at all is a share of zero. */
  predicate HigherShare(p: int, n: int, q: int, m: int) {
    if n > 0 && m > 0 then p * m > q * n
    else if n > 0 then p > 0
    else m > 0 && q < 0
  }

  lemma FractionsCompare(p: int, n: int, q: int, m: int)
    requires n > 0 && m > 0
    ensures Fraction(p, n) > Fraction(q, m) <==> p * m > q * n
  {
    var x, y := Fraction(p, n), Fraction(q, m);
    var k := n as real * m as real;
    assert x * k == p as real * m as real == (p * m) as real;
    assert y * k == q as real * n as real == (q * n) as real;
    if x > y { assert (x - y) * k > 0.0; } else { assert (x - y) * k <= 0.0; }
  }

  /** Every axis value orders candidates the way its evidence reads. */
  lemma ValuesReadAsEvidence(axis: Axis, a: Candidate, b: Candidate)
    ensures Value(axis, a) > Value(axis, b) <==> Beats(axis, a, b)
  {
    if axis.AcceptanceCoverage? && a.acceptanceTotal > 0 && b.acceptanceTotal > 0 {
      FractionsCompare(a.acceptanceCovered, a.acceptanceTotal, b.acceptanceCovered, b.acceptanceTotal);
    }
    if axis.Tests? && a.testsTotal > 0 && b.testsTotal > 0 {
      FractionsCompare(a.testsPassed, a.testsTotal, b.testsPassed, b.testsTotal);
    }
  }

  // ---------------------------------------------------------------- ranking

  function Ahead(): (Candidate, Candidate) -> bool {
    (a, b) => NotBehind(a, b)
  }

  lemma NotBehindIsTransitive(a: Candidate, b: Candidate, c: Candidate)
    requires NotBehind(a, b) && NotBehind(b, c)
    ensures NotBehind(a, c)
  {
    var i, j, k := FirstDifference(a, b, 0), FirstDifference(b, c, 0), FirstDifference(a, c, 0);
    if k < |AXES| {
      assert i <= k || j <= k;
      if i < j { assert Value(AXES[i], a) > Value(AXES[i], c); }
      else if j < i { assert Value(AXES[j], a) > Value(AXES[j], c); }
    }
  }

  lemma FirstDifferenceIsSymmetric(a: Candidate, b: Candidate)
    ensures FirstDifference(a, b, 0) == FirstDifference(b, a, 0)
  {
  }

  /** The ranking order is a total preorder whose ties are exactly the level candidates. */
  lemma RankingOrderIsTotal()
    ensures TotalPreorder(Ahead())
    ensures forall a, b :: Tied(Ahead(), a, b) <==> Level(a, b)
  {
    forall a, b ensures Ahead()(a, b) || Ahead()(b, a) { FirstDifferenceIsSymmetric(a, b); }
    forall a, b, c | Ahead()(a, b) && Ahead()(b, c) ensures Ahead()(a, c) { NotBehindIsTransitive(a, b, c); }
    forall a, b ensures Tied(Ahead(), a, b) <==> Level(a, b) { FirstDifferenceIsSymmetric(a, b); }
  }

  function Ranking(candidates: seq<Candidate>): seq<Candidate> {
    StableSort(Ahead(), candidates)
  }

  // ---------------------------------------------------------------- the published records

  datatype Winner = WonByA | WonByB | Tie

  /** One pairwise record: a winner per axis, for every axis of the registry. */
  datatype Pairwise = Pairwise(a: Candidate, b: Candidate, criteria: map<Axis, Winner>)

  function WinnerOn(axis: Axis, a: Candidate, b: Candidate): Winner {
    if Value(axis, a) == Value(axis, b) then Tie else if Value(axis, a) > Value(axis, b) then WonByA else WonByB
  }

  method ComparePair(a: Candidate, b: Candidate) returns (p: Pairwise)
    ensures p.a == a && p.b == b
    ensures p.criteria.Keys == set axis | axis in AXES
    ensures forall axis :: axis in p.criteria ==> p.criteria[axis] == WinnerOn(axis, a, b)
  {
    var criteria := map[];
    for i := 0 to |AXES|
      invariant criteria.Keys == set k | 0 <= k < i :: AXES[k]
      invariant forall axis :: axis in criteria ==> criteria[axis] == WinnerOn(axis, a, b)
    {
      criteria := criteria[AXES[i] := WinnerOn(AXES[i], a, b)];
    }
    p := Pairwise(a, b, criteria);
    assert forall axis :: axis in AXES <==> exists k :: 0 <= k < |AXES| && AXES[k] == axis;
  }

  method DecisiveAxis(winner: Candidate, runnerUp: Candidate) returns (axis: Option<Axis>)
    ensures axis.None? <==> Level(winner, runnerUp)
    ensures axis == DecidingAxis(winner, runnerUp)
  {
    for i := 0 to |AXES|
      invariant forall k :: 0 <= k < i ==> Value(AXES[k], winner) == Value(AXES[k], runnerUp)
    {
      if Value(AXES[i], winner) != Value(AXES[i], runnerUp) { return Some(AXES[i]); }
    }
    return None;
  }

  /** The ranking half of a decision. */
  datatype Decision = Decision(
    ranking: seq<Candidate>,
    pairs: seq<Pairwise>,
    decisiveAxis: Option<Axis>,
    tieDisclosed: bool,
    scorecard: seq<map<Axis, real>>,
    scoreAxes: seq<Axis>)

  /** One scorecard entry per ranked candidate, a value for every axis of the registry. */
  ghost predicate Scored(ranking: seq<Candidate>, scorecard: seq<map<Axis, real>>) {
    && |scorecard| == |ranking|
    && forall i :: 0 <= i < |ranking| ==>
         && scorecard[i].Keys == (set axis | axis in AXES)
         && forall axis :: axis in scorecard[i] ==> scorecard[i][axis] == Value(axis, ranking[i])
  }

  /** Every pair of positions is recorded, and nothing else. */
  ghost predicate AllRecorded(ranking: seq<Candidate>, pairs: seq<Pairwise>) {
    && |pairs| == |ranking| * (|ranking| - 1) / 2
    && (forall p :: p in pairs ==> exists i, j :: IsPair(ranking, i, j, p))
    && (forall i, j :: 0 <= i < j < |ranking| ==> Recorded(pairs, ranking, i, j))
  }

  method Scorecard(ranking: seq<Candidate>) returns (scorecard: seq<map<Axis, real>>)
    ensures Scored(ranking, scorecard)
  {
    scorecard := [];
    for i := 0 to |ranking|
      invariant |scorecard| == i
      invariant forall k :: 0 <= k < i ==>
                  && scorecard[k].Keys == (set axis | axis in AXES)
                  && forall axis :: axis in scorecard[k] ==> scorecard[k][axis] == Value(axis, ranking[k])
    {
      scorecard := scorecard + [map axis | axis in AXES :: Value(axis, ranking[i])];
    }
  }

  /** The decisive axis of the winner against the runner-up, and whether they tie. */
  method TopOfRanking(ranking: seq<Candidate>) returns (decisive: Option<Axis>, tie: bool)
    ensures |ranking| < 2 ==> decisive.None? && !tie
    ensures |ranking| >= 2 ==>
              && (tie <==> Level(ranking[0], ranking[1]))
              && (decisive.None? <==> tie)
              && decisive == DecidingAxis(ranking[0], ranking[1])
  {
    decisive, tie := None, false;
    if |ranking| >= 2 {
      var order := CompareCandidates(ranking[0], ranking[1]);
      tie := order == 0;
      decisive := DecisiveAxis(ranking[0], ranking[1]);
    }
  }

  method Arbitrate(candidates: seq<Candidate>) returns (d: Decision)
    ensures d.ranking == Ranking(candidates)
    ensures d.scoreAxes == if candidates == [] then [] else AXES
    ensures Scored(d.ranking, d.scorecard) && AllRecorded(d.ranking, d.pairs)
    ensures |d.ranking| < 2 ==> d.decisiveAxis.None? && !d.tieDisclosed
    ensures |d.ranking| >= 2 ==>
              && (d.tieDisclosed <==> Level(d.ranking[0], d.ranking[1]))
              && (d.decisiveAxis.None? <==> d.tieDisclosed)
              && d.decisiveAxis == DecidingAxis(d.ranking[0], d.ranking[1])
  {
    if candidates == [] { return Decision([], [], None, false, [], []); }
    var ranking := Ranking(candidates);
    var decisive, tie := TopOfRanking(ranking);
    var pairs := AllPairs(ranking);
    var scorecard := Scorecard(ranking);
    d := Decision(ranking, pairs, decisive, tie, scorecard, AXES);
  }

  /** The pairwise record of positions `i < j`. */
  ghost predicate IsPair(ranking: seq<Candidate>, i: int, j: int, p: Pairwise) {
    && 0 <= i < j < |ranking|
    && p.a == ranking[i] && p.b == ranking[j]
    && p.criteria.Keys == (set axis | axis in AXES)
    && forall axis :: axis in p.criteria ==> p.criteria[axis] == WinnerOn(axis, ranking[i], ranking[j])
  }

  ghost predicate Recorded(pairs: seq<Pairwise>, ranking: seq<Candidate>, i: int, j: int) {
    exists p :: p in pairs && IsPair(ranking, i, j, p)
  }

  method AllPairs(ranking: seq<Candidate>) returns (pairs: seq<Pairwise>)
    ensures AllRecorded(ranking, pairs)
  {
    pairs := [];
    for i := 0 to |ranking|
      invariant 2 * |pairs| == i * (2 * |ranking| - 1 - i)
      invariant forall p :: p in pairs ==> exists x, y :: IsPair(ranking, x, y, p)
      invariant forall x, y :: 0 <= x < i && x < y < |ranking| ==> Recorded(pairs, ranking, x, y)
    {
      ghost var before := |pairs|;
      for j := i + 1 to |ranking|
        invariant |pairs| == before + (j - i - 1)
        invariant forall p :: p in pairs ==> exists x, y :: IsPair(ranking, x, y, p)
        invariant forall x, y :: 0 <= x < y < |ranking| && (x < i || (x == i && y < j)) ==>
                    Recorded(pairs, ranking, x, y)
      {
        var p := ComparePair(ranking[i], ranking[j]);
        ghost var recorded := pairs;
        pairs := pairs + [p];
        assert IsPair(ranking, i, j, p) && p in pairs;
        forall x, y | Recorded(recorded, ranking, x, y) ensures Recorded(pairs, ranking, x, y) {
          var r :| r in recorded && IsPair(ranking, x, y, r);
          assert r in pairs;
        }
      }
    }
  }

  /** The first axis of a pairwise record that is no tie, if there is one. */
  ghost predicate FirstDecided(criteria: map<Axis, Winner>, k: nat, w: Winner)
    requires criteria.Keys == set axis | axis in AXES
  {
    k < |AXES| && !w.Tie? && criteria[AXES[k]] == w && forall i :: 0 <= i < k ==> criteria[AXES[i]].Tie?
  }

  /** Every record explains the sort: in the pair of positions `i < j`, either all axes tie, or
      the first axis that does not was won by the candidate ranked earlier. */
  lemma PairwiseExplainsTheRanking(candidates: seq<Candidate>, i: nat, j: nat, p: Pairwise)
    requires IsPair(Ranking(candidates), i, j, p)
    ensures || (forall axis :: axis in p.criteria ==> p.criteria[axis].Tie?)
            || (exists k: nat :: FirstDecided(p.criteria, k, WonByA))
  {
    RankingOrderIsTotal();
    StableSortSorts(Ahead(), candidates);
    var a, b := Ranking(candidates)[i], Ranking(candidates)[j];
    assert Ahead()(a, b);
    var k := FirstDifference(a, b, 0);
    if k < |AXES| {
      assert FirstDecided(p.criteria, k, WonByA);
    }
  }

  /** The ranking is the candidates, best first, level candidates in route order; and it is the
      only such list. */
  lemma RankingIsTheStableOrder(candidates: seq<Candidate>)
    ensures var r := Ranking(candidates);
            && multiset(r) == multiset(candidates)
            && (forall i, j :: 0 <= i < j < |r| ==> NotBehind(r[i], r[j]))
            && (forall c :: TiedWith(Ahead(), r, c) == TiedWith(Ahead(), candidates, c))
            && (forall other :: StablySorts(Ahead(), candidates, other) ==> other == r)
  {
    RankingOrderIsTotal();
    StableSortSorts(Ahead(), candidates);
    var r := Ranking(candidates);
    forall i, j | 0 <= i < j < |r| ensures NotBehind(r[i], r[j]) { assert Ahead()(r[i], r[j]); }
    forall other | StablySorts(Ahead(), candidates, other) ensures other == r {
      StableSortIsUnique(Ahead(), other, r);
    }
  }

  /** The disclosed decisive axis is the one the top pair's record was decided on. */
  lemma DecisiveAxisMatchesTopPair(candidates: seq<Candidate>, p: Pairwise)
    requires IsPair(Ranking(candidates), 0, 1, p)
    ensures var r := Ranking(candidates);
            var k := FirstDifference(r[0], r[1], 0);
            if k < |AXES| then FirstDecided(p.criteria, k, WonByA)
            else forall axis :: axis in p.criteria ==> p.criteria[axis].Tie?
    ensures var axis := DecidingAxis(Ranking(candidates)[0], Ranking(candidates)[1]);
            if axis == None then forall x :: x in p.criteria ==> p.criteria[x] == Tie
            else p.criteria[axis.value] == WonByA
  {
    RankingIsTheStableOrder(candidates);
  }

  // ---------------------------------------------------------------- the precedence, written out

  /** Neither candidate beats the other on the axis. */
  predicate Same(axis: Axis, a: Candidate, b: Candidate) {
    !Beats(axis, a, b) && !Beats(axis, b, a)
  }

  /** `a` wins at this axis, or the axis is even and the rest decides. */
  predicate Decides(axis: Axis, a: Candidate, b: Candidate, rest: bool) {
    Beats(axis, a, b) || (Same(axis, a, b) && rest)
  }

  lemma EvenMeansEqual(axis: Axis, a: Candidate, b: Candidate)
    ensures Same(axis, a, b) <==> Value(axis, a) == Value(axis, b)
  {
    ValuesReadAsEvidence(axis, a, b);
    ValuesReadAsEvidence(axis, b, a);
  }

  /** From axis `i` on: the first axis that is not even decides. */
  predicate WinsFrom(i: nat, a: Candidate, b: Candidate)
    decreases |AXES| - i
  {
    i < |AXES| && Decides(AXES[i], a, b, WinsFrom(i + 1, a, b))
  }

  lemma {:induction false} WinningIsRankingAhead(i: nat, a: Candidate, b: Candidate)
    requires i <= |AXES|
    ensures var k := FirstDifference(a, b, i); WinsFrom(i, a, b) <==> k < |AXES| && Value(AXES[k], a) > Value(AXES[k], b)
    decreases |AXES| - i
  {
    if i < |AXES| {
      ValuesReadAsEvidence(AXES[i], a, b);
      EvenMeansEqual(AXES[i], a, b);
      WinningIsRankingAhead(i + 1, a, b);
    }
  }

  /** A candidate ranks strictly ahead of another exactly by this order of evidence: required
      gates, acceptance coverage, open blockers, tests, a clean review, tool warnings, the size of
      the diff, cost. */
  lemma RankingPrecedence(a: Candidate, b: Candidate)
    ensures NotBehind(a, b) && !Level(a, b) <==>
              Decides(RequiredGates, a, b,
              Decides(AcceptanceCoverage, a, b,
              Decides(Blockers, a, b,
              Decides(Tests, a, b,
              Decides(CleanReview, a, b,
              Decides(ToolWarnings, a, b,
              Decides(DiffSize, a, b,
              Decides(Cost, a, b, false))))))))
  {
    WinningIsRankingAhead(0, a, b);
    assert !WinsFrom(8, a, b);
    assert WinsFrom(7, a, b) == Decides(Cost, a, b, false);
    assert WinsFrom(6, a, b) == Decides(DiffSize, a, b, WinsFrom(7, a, b));
    assert WinsFrom(5, a, b) == Decides(ToolWarnings, a, b, WinsFrom(6, a, b));
    assert WinsFrom(4, a, b) == Decides(CleanReview, a, b, WinsFrom(5, a, b));
    assert WinsFrom(3, a, b) == Decides(Tests, a, b, WinsFrom(4, a, b));
    assert WinsFrom(2, a, b) == Decides(Blockers, a, b, WinsFrom(3, a, b));
    assert WinsFrom(1, a, b) == Decides(AcceptanceCoverage, a, b, WinsFrom(2, a, b));
    assert WinsFrom(0, a, b) == Decides(RequiredGates, a, b, WinsFrom(1, a, b));
  }

  /** One more gate matters exactly when it is required, and then it has to have passed. */
  lemma OneMoreGate(c: Candidate, g: Gate)
    ensures RequiredGatesPassed(c.(gates := []))
    ensures RequiredGatesPassed(c.(gates := c.gates + [g])) <==> RequiredGatesPassed(c) && (g.required ==> g.status == GatePassed)
  {
    var more := c.gates + [g];
    assert more[|c.gates|] == g && forall i :: 0 <= i < |c.gates| ==> more[i] == c.gates[i];
  }
}
