/** A stable sort by a total preorder.  The language guarantees that sorting is stable, not
    which algorithm runs; `StableSortIsUnique` is why that is enough. */
module StableSorting {

  ghost predicate TotalPreorder<T(!new)>(leq: (T, T) -> bool) {
    && (forall a, b :: leq(a, b) || leq(b, a))
    && (forall a, b, c :: leq(a, b) && leq(b, c) ==> leq(a, c))
  }

  predicate Tied<T>(leq: (T, T) -> bool, a: T, b: T) {
    leq(a, b) && leq(b, a)
  }

  /** The elements tied with `x`, in their order. */
  function TiedWith<T>(leq: (T, T) -> bool, s: seq<T>, x: T): seq<T> {
    if s == [] then [] else (if Tied(leq, s[0], x) then [s[0]] else []) + TiedWith(leq, s[1..], x)
  }

  ghost predicate Sorted<T>(leq: (T, T) -> bool, s: seq<T>) {
    forall i, j :: 0 <= i < j < |s| ==> leq(s[i], s[j])
  }

  /** `ys` is sorted, and tied elements kept the order they had in `xs`. */
  ghost predicate StablySorts<T(!new)>(leq: (T, T) -> bool, xs: seq<T>, ys: seq<T>) {
    Sorted(leq, ys) && forall x :: TiedWith(leq, ys, x) == TiedWith(leq, xs, x)
  }

  function Insert<T>(leq: (T, T) -> bool, x: T, s: seq<T>): seq<T> {
    if s == [] || leq(x, s[0]) then [x] + s else [s[0]] + Insert(leq, x, s[1..])
  }

  function StableSort<T>(leq: (T, T) -> bool, s: seq<T>): seq<T> {
    if s == [] then [] else Insert(leq, s[0], StableSort(leq, s[1..]))
  }

  lemma {:induction false} InsertPermutes<T>(leq: (T, T) -> bool, x: T, s: seq<T>)
    ensures multiset(Insert(leq, x, s)) == multiset{x} + multiset(s)
  {
    if s != [] && !leq(x, s[0]) {
      InsertPermutes(leq, x, s[1..]);
      assert s == [s[0]] + s[1..];
    }
  }

  lemma {:induction false} InsertSorts<T(!new)>(leq: (T, T) -> bool, x: T, s: seq<T>)
    requires TotalPreorder(leq) && Sorted(leq, s)
    ensures Sorted(leq, Insert(leq, x, s))
  {
    if s == [] {
    } else if leq(x, s[0]) {
      forall k | 0 <= k < |s| ensures leq(x, s[k]) {
        assert k == 0 || leq(s[0], s[k]);
      }
    } else {
      var rest := Insert(leq, x, s[1..]);
      InsertSorts(leq, x, s[1..]);
      InsertPermutes(leq, x, s[1..]);
      forall k | 0 <= k < |rest| ensures leq(s[0], rest[k]) {
        assert rest[k] in multiset(rest);
      }
    }
  }

  lemma {:induction false} InsertKeepsTies<T(!new)>(leq: (T, T) -> bool, x: T, s: seq<T>, y: T)
    requires Tied(leq, x, y) ==> forall i :: 0 <= i < |s| && Tied(leq, s[i], y) ==> leq(x, s[i])
    ensures TiedWith(leq, Insert(leq, x, s), y) == (if Tied(leq, x, y) then [x] else []) + TiedWith(leq, s, y)
  {
    if s == [] || leq(x, s[0]) {
      assert ([x] + s)[1..] == s;
    } else {
      var rest := Insert(leq, x, s[1..]);
      var head := if Tied(leq, s[0], y) then [s[0]] else [];
      var own := if Tied(leq, x, y) then [x] else [];
      assert Insert(leq, x, s)[1..] == rest;
      assert head == [] || own == [];
      calc {
        TiedWith(leq, Insert(leq, x, s), y);
        head + TiedWith(leq, rest, y);
        { InsertKeepsTies(leq, x, s[1..], y); }
        head + (own + TiedWith(leq, s[1..], y));
        own + (head + TiedWith(leq, s[1..], y));
        own + TiedWith(leq, s, y);
      }
    }
  }

  /** Sorting reorders: nothing is lost or made up, the result is sorted, ties keep their order. */
  lemma {:induction false} StableSortSorts<T(!new)>(leq: (T, T) -> bool, s: seq<T>)
    requires TotalPreorder(leq)
    ensures StablySorts(leq, s, StableSort(leq, s))
    ensures multiset(StableSort(leq, s)) == multiset(s)
  {
    if s != [] {
      StableSortSorts(leq, s[1..]);
      InsertSorts(leq, s[0], StableSort(leq, s[1..]));
      InsertPermutes(leq, s[0], StableSort(leq, s[1..]));
      forall y ensures TiedWith(leq, StableSort(leq, s), y) == TiedWith(leq, s, y) {
        InsertKeepsTies(leq, s[0], StableSort(leq, s[1..]), y);
      }
      assert s == [s[0]] + s[1..];
    }
  }

  lemma {:induction false} TiedWithHas<T(!new)>(leq: (T, T) -> bool, s: seq<T>, x: T)
    ensures forall y :: y in TiedWith(leq, s, x) <==> y in s && Tied(leq, y, x)
  {
    if s != [] { TiedWithHas(leq, s[1..], x); }
  }

  /** There is only one stable result, so any stable algorithm computes `StableSort`. */
  lemma {:induction false} StableSortIsUnique<T(!new)>(leq: (T, T) -> bool, a: seq<T>, b: seq<T>)
    requires TotalPreorder(leq) && Sorted(leq, a) && Sorted(leq, b)
    requires forall x :: TiedWith(leq, a, x) == TiedWith(leq, b, x)
    ensures a == b
  {
    if a == [] {
      assert forall x :: x in b ==> TiedWith(leq, b, x) == [];
    } else {
      TiedWithHas(leq, a, a[0]);
      TiedWithHas(leq, b, a[0]);
      assert a[0] in TiedWith(leq, b, a[0]);
      TiedWithHas(leq, b, b[0]);
      TiedWithHas(leq, a, b[0]);
      assert b[0] in TiedWith(leq, a, b[0]);
      assert Tied(leq, b[0], a[0]);
      assert TiedWith(leq, a, a[0])[0] == a[0];
      assert TiedWith(leq, b, a[0])[0] == b[0];
      forall x ensures TiedWith(leq, a[1..], x) == TiedWith(leq, b[1..], x) {
        var head := if Tied(leq, a[0], x) then [a[0]] else [];
        assert a[0] == b[0];
        assert TiedWith(leq, a, x) == head + TiedWith(leq, a[1..], x);
        assert TiedWith(leq, b, x) == head + TiedWith(leq, b[1..], x);
        assert head + TiedWith(leq, a[1..], x) == head + TiedWith(leq, b[1..], x);
        assert (head + TiedWith(leq, a[1..], x))[|head|..] == TiedWith(leq, a[1..], x);
        assert (head + TiedWith(leq, b[1..], x))[|head|..] == TiedWith(leq, b[1..], x);
      }
      StableSortIsUnique(leq, a[1..], b[1..]);
      assert a == [a[0]] + a[1..] && b == [b[0]] + b[1..];
    }
  }

  /** What is already in order stays as it is. */
  lemma SortedStays<T(!new)>(leq: (T, T) -> bool, s: seq<T>)
    requires TotalPreorder(leq) && Sorted(leq, s)
    ensures StableSort(leq, s) == s
  {
    StableSortSorts(leq, s);
    StableSortIsUnique(leq, s, StableSort(leq, s));
  }
}
