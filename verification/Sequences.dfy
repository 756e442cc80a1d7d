/** Facts about sequences that several parts of the model share. */
module Sequences {

  function Without<T>(s: seq<T>, i: nat): seq<T>
    requires i < |s|
  {
    s[..i] + s[i+1..]
  }

  lemma WithoutMultiset<T>(s: seq<T>, i: nat)
    requires i < |s|
    ensures multiset(Without(s, i)) == multiset(s) - multiset{s[i]}
  {
    assert s == s[..i] + ([s[i]] + s[i+1..]);
    assert multiset(s) == multiset(s[..i]) + (multiset{s[i]} + multiset(s[i+1..]));
    assert multiset(Without(s, i)) == multiset(s[..i]) + multiset(s[i+1..]);
  }

  function Filter<T>(s: seq<T>, keep: T -> bool): seq<T> {
    if s == [] then [] else (if keep(s[0]) then [s[0]] else []) + Filter(s[1..], keep)
  }

  lemma {:induction false} FilterSplits<T>(a: seq<T>, b: seq<T>, keep: T -> bool)
    ensures Filter(a + b, keep) == Filter(a, keep) + Filter(b, keep)
  {
    if a == [] {
      assert a + b == b;
    } else {
      var head := if keep(a[0]) then [a[0]] else [];
      var both := a + b;
      assert both[0] == a[0] && both[1..] == a[1..] + b;
      calc {
        Filter(both, keep);
        head + Filter(a[1..] + b, keep);
        { FilterSplits(a[1..], b, keep); }
        head + (Filter(a[1..], keep) + Filter(b, keep));
        head + Filter(a[1..], keep) + Filter(b, keep);
        Filter(a, keep) + Filter(b, keep);
      }
    }
  }

  lemma {:induction false} FilterMembers<T>(s: seq<T>, keep: T -> bool, x: T)
    ensures x in Filter(s, keep) <==> x in s && keep(x)
  {
    if s != [] {
      FilterMembers(s[1..], keep, x);
      assert s == [s[0]] + s[1..];
    }
  }

  lemma {:induction false} FilterAgrees<T>(s: seq<T>, keep: T -> bool, other: T -> bool)
    requires forall i :: 0 <= i < |s| ==> keep(s[i]) == other(s[i])
    ensures Filter(s, keep) == Filter(s, other)
  {
    if s != [] {
      FilterAgrees(s[1..], keep, other);
    }
  }

  /** Whatever few dropped elements stand in the middle, the filter does not see them. */
  lemma FilterSkips<T>(a: seq<T>, middle: seq<T>, b: seq<T>, keep: T -> bool)
    requires |middle| <= 1 && forall i :: 0 <= i < |middle| ==> !keep(middle[i])
    ensures Filter(a + middle + b, keep) == Filter(a, keep) + Filter(b, keep)
  {
    var kept := Filter(a, keep);
    FilterSplits(a + middle, b, keep);
    assert Filter(a + middle, keep) == kept by {
      FilterSplits(a, middle, keep);
      assert Filter(middle, keep) == [];
      assert kept + [] == kept;
    }
  }

  lemma FilterLengths<T>(a: seq<T>, middle: seq<T>, b: seq<T>, keep: T -> bool)
    ensures |Filter(a + middle + b, keep)| == |Filter(a, keep)| + |Filter(middle, keep)| + |Filter(b, keep)|
  {
    FilterSplits(a + middle, b, keep);
    FilterSplits(a, middle, keep);
  }

  lemma FilterIgnoresMiddle<T>(s: seq<T>, i: nat, middle: seq<T>, keep: T -> bool)
    requires i < |s| && !keep(s[i])
    requires |middle| <= 1 && forall j :: 0 <= j < |middle| ==> !keep(middle[j])
    ensures Filter(s[..i] + middle + s[i + 1..], keep) == Filter(s, keep)
  {
    var a, b := s[..i], s[i + 1..];
    FilterSkips(a, middle, b, keep);
    var all := a + [s[i]] + b;
    assert Filter(all, keep) == Filter(a, keep) + Filter(b, keep) by {
      FilterSkips(a, [s[i]], b, keep);
    }
    assert all == s;
  }

  /** Replacing the only kept element. */
  lemma FilterReplacesTheOnly<T>(s: seq<T>, i: nat, middle: seq<T>, keep: T -> bool)
    requires i < |s| && keep(s[i]) && |Filter(s, keep)| <= 1
    requires |middle| <= 1 && forall j :: 0 <= j < |middle| ==> keep(middle[j])
    ensures Filter(s, keep) == [s[i]]
    ensures Filter(s[..i] + middle + s[i + 1..], keep) == middle
  {
    var a, b := s[..i], s[i + 1..];
    var all := a + [s[i]] + b;
    assert all == s;
    FilterSplits(a + [s[i]], b, keep);
    FilterSplits(a, [s[i]], keep);
    assert Filter([s[i]], keep) == [s[i]];
    assert Filter(a, keep) == [] && Filter(b, keep) == [];
    FilterSplits(a + middle, b, keep);
    FilterSplits(a, middle, keep);
    assert Filter(middle, keep) == middle;
  }

  lemma {:induction false} FilterKeepsAll<T>(s: seq<T>, keep: T -> bool)
    requires forall i :: 0 <= i < |s| ==> keep(s[i])
    ensures Filter(s, keep) == s
  {
    if s != [] {
      FilterKeepsAll(s[1..], keep);
    }
  }
}
