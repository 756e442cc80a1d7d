/** The reserved row id: `<harness>-default`, then `-2`, `-3`, ... until no row of any harness
    carries it. */
module RowIds {
  import opened MigrationModel

  function Decimal(n: nat): (s: string)
    ensures |s| > 0
  {
    var digits := "0123456789";
    if n < 10 then [digits[n]] else Decimal(n / 10) + [digits[n % 10]]
  }

  lemma {:induction false} DecimalIsInjective(a: nat, b: nat)
    requires Decimal(a) == Decimal(b)
    ensures a == b
  {
    var digits := "0123456789";
    var x, y := Decimal(a), Decimal(b);
    assert x[|x| - 1] == digits[a % 10] && y[|y| - 1] == digits[b % 10];
    assert a % 10 == b % 10;
    if a >= 10 && b >= 10 {
      assert x[..|x| - 1] == Decimal(a / 10) && y[..|y| - 1] == Decimal(b / 10);
      DecimalIsInjective(a / 10, b / 10);
    }
  }

  /** The i-th candidate the search looks at, from 1. */
  function Candidate(base: Id, i: nat): Id {
    if i <= 1 then base else base + "-" + Decimal(i)
  }

  lemma CandidatesDiffer(base: Id, i: nat, j: nat)
    requires 1 <= i && 1 <= j && Candidate(base, i) == Candidate(base, j)
    ensures i == j
  {
    if i > 1 && j > 1 {
      assert Candidate(base, i)[|base| + 1..] == Decimal(i) && Candidate(base, j)[|base| + 1..] == Decimal(j);
      DecimalIsInjective(i, j);
    } else {
      assert |Candidate(base, i)| == |Candidate(base, j)|;
    }
  }

  ghost function Ids(registry: seq<Row>): set<Id> {
    set i | 0 <= i < |registry| :: registry[i].id
  }

  ghost function Candidates(base: Id, n: nat): set<Id> {
    set i | 1 <= i <= n :: Candidate(base, i)
  }

  lemma {:induction false} FewIds(registry: seq<Row>)
    ensures |Ids(registry)| <= |registry|
  {
    if registry == [] {
    } else {
      var last := |registry| - 1;
      FewIds(registry[..last]);
      assert Ids(registry) == Ids(registry[..last]) + {registry[last].id};
    }
  }

  lemma {:induction false} ManyCandidates(base: Id, n: nat)
    ensures |Candidates(base, n)| == n
  {
    if n == 0 {
      assert Candidates(base, 0) == {};
    } else {
      ManyCandidates(base, n - 1);
      assert Candidates(base, n) == Candidates(base, n - 1) + {Candidate(base, n)};
      if Candidate(base, n) in Candidates(base, n - 1) {
        var i :| 1 <= i <= n - 1 && Candidate(base, i) == Candidate(base, n);
        CandidatesDiffer(base, i, n);
      }
    }
  }

  lemma {:induction false} SubsetIsNoLarger<T>(a: set<T>, b: set<T>)
    requires a <= b
    ensures |a| <= |b|
  {
    if a == {} {
    } else {
      var x :| x in a;
      SubsetIsNoLarger(a - {x}, b - {x});
    }
  }

  /** Pigeonhole: rows cannot take one candidate more than there are rows. */
  lemma SomeCandidateIsFree(registry: seq<Row>, base: Id)
    ensures exists i :: 1 <= i <= |registry| + 1 && !Taken(registry, Candidate(base, i))
  {
    var n := |registry| + 1;
    if forall i :: 1 <= i <= n ==> Taken(registry, Candidate(base, i)) {
      assert Candidates(base, n) <= Ids(registry);
      SubsetIsNoLarger(Candidates(base, n), Ids(registry));
      FewIds(registry);
      ManyCandidates(base, n);
    }
  }

  predicate LeastFree(registry: seq<Row>, base: Id, i: nat) {
    && 1 <= i <= |registry| + 1
    && !Taken(registry, Candidate(base, i))
    && forall j :: 1 <= j < i ==> Taken(registry, Candidate(base, j))
  }

  function FirstFree(registry: seq<Row>, base: Id, i: nat): (r: nat)
    requires 1 <= i && forall j :: 1 <= j < i ==> Taken(registry, Candidate(base, j))
    requires i <= |registry| + 1
    ensures LeastFree(registry, base, r)
    decreases |registry| + 1 - i
  {
    SomeCandidateIsFree(registry, base);
    if !Taken(registry, Candidate(base, i)) then i else FirstFree(registry, base, i + 1)
  }

  function ReservedId(registry: seq<Row>, harness: Id): (id: Id)
    ensures !Taken(registry, id)
  {
    Candidate(harness + "-default", FirstFree(registry, harness + "-default", 1))
  }

  /** The search itself: it ends within one candidate more than there are rows, at the least
      free suffix, and no row of any harness carries the id it returns. */
  method ReserveRowId(registry: seq<Row>, harness: Id) returns (candidate: Id)
    ensures candidate == ReservedId(registry, harness)
    ensures exists i :: LeastFree(registry, harness + "-default", i) && candidate == Candidate(harness + "-default", i)
  {
    var base := harness + "-default";
    candidate := base;
    var i := 2;
    while Taken(registry, candidate)
      invariant 2 <= i <= |registry| + 2
      invariant candidate == Candidate(base, i - 1)
      invariant forall j :: 1 <= j < i - 1 ==> Taken(registry, Candidate(base, j))
      decreases |registry| + 2 - i
    {
      SomeCandidateIsFree(registry, base);
      candidate := base + "-" + Decimal(i);
      i := i + 1;
    }
    SomeCandidateIsFree(registry, base);
    assert LeastFree(registry, base, i - 1);
    LeastIsUnique(registry, base, i - 1, FirstFree(registry, base, 1));
  }

  lemma LeastIsUnique(registry: seq<Row>, base: Id, i: nat, j: nat)
    requires LeastFree(registry, base, i) && LeastFree(registry, base, j)
    ensures i == j
  {
  }
}
