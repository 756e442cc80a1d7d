/** What the ledger's totals mean: they are the order-free sum of one entry per settled
    lease.  Conservation across tasks and order independence follow. */
module LedgerTotals {
  import opened Knowledge
  import opened LedgerModel
  import opened LedgerRuns
  import opened Sequences

  // ---------------------------------------------------------------- totals form a commutative monoid

  /** Two sets of totals put together. */
  function Plus(a: Totals, b: Totals): Totals {
    var cash := Join(a.cash, b.cash);
    Totals(a.cashUsd + b.cashUsd, a.valuationUsd + b.valuationUsd, cash.Some? && !cash.value.Exact?,
           cash, Join(a.controllable, b.controllable), Join(a.valuation, b.valuation))
  }

  function Single(e: Entry): Totals {
    Totals(e.cashUsd, e.valuationUsd, !e.reported.Exact?, Some(e.reported), Some(e.controllable), e.valuation)
  }

  ghost predicate FlagSane(t: Totals) {
    t.cashEstimated == (t.cash.Some? && !t.cash.value.Exact?)
  }

  /** Merging knowledge is the join of the chain null < exact < estimated < unknown. */
  lemma JoinIsLeastUpperBound(a: Option<CostKnowledge>, b: Option<CostKnowledge>)
    ensures AtMost(a, Join(a, b)) && AtMost(b, Join(a, b))
    ensures forall c :: AtMost(a, c) && AtMost(b, c) ==> AtMost(Join(a, b), c)
    ensures Rank(a) == Rank(b) ==> a == b
  {
  }

  lemma PlusLaws(a: Totals, b: Totals, c: Totals)
    ensures Plus(a, b) == Plus(b, a)
    ensures Plus(Plus(a, b), c) == Plus(a, Plus(b, c))
    ensures FlagSane(a) ==> Plus(a, ZERO_TOTALS) == a
    ensures FlagSane(Plus(a, b))
  {
  }

  lemma RecordIsPlus(t: Totals, e: Entry)
    ensures Record(t, e) == Plus(t, Single(e))
  {
  }

  // ---------------------------------------------------------------- the settlement log

  /** The entry one operation settles, if it settles one. */
  ghost function Settled(s: Family, op: Op): seq<Entry> {
    if op.DoSettle? && op.view < |s.views| && LeaseError(s.f, s.views[op.view], op.id).None?
       && s.f.leases[op.id].state.Reserved?
    then [EntryOf(s.f, op.id, op.settlement)] else []
  }

  ghost function Log(s: Family, ops: seq<Op>): seq<Entry>
    decreases |ops|
  {
    if ops == [] then [] else Settled(s, ops[0]) + Log(Step(s, ops[0]), ops[1..])
  }

  lemma LogSplit(s: Family, ops: seq<Op>, log: seq<Entry>)
    requires ops != []
    ensures log + Log(s, ops) == log + Settled(s, ops[0]) + Log(Step(s, ops[0]), ops[1..])
  {
  }

  function Sum(log: seq<Entry>): Totals {
    if log == [] then ZERO_TOTALS else Plus(Single(log[0]), Sum(log[1..]))
  }

  function IsOf(task: Id): Entry -> bool { (e: Entry) => e.task == task }

  function OfTask(log: seq<Entry>, task: Id): seq<Entry> {
    Filter(log, IsOf(task))
  }

  /** The books agree with a log when the family total is the sum of the log, and every task's
      total is the sum of that task's part of it. */
  ghost predicate BooksMatch(f: Financial, log: seq<Entry>) {
    && f.family == Sum(log)
    && (forall t :: TaskTotals(f, t) == Sum(OfTask(log, t)))
  }

  lemma {:induction false} SumSnoc(log: seq<Entry>, e: Entry)
    ensures Sum(log + [e]) == Plus(Sum(log), Single(e))
  {
    if log == [] {
      PlusLaws(Single(e), ZERO_TOTALS, ZERO_TOTALS);
      assert log + [e] == [e];
    } else {
      SumSnoc(log[1..], e);
      assert (log + [e])[1..] == log[1..] + [e];
      PlusLaws(Single(log[0]), Sum(log[1..]), Single(e));
    }
  }

  lemma StepKeepsOtherBooks(s: Family, op: Op)
    requires Settled(s, op) == []
    ensures Step(s, op).f.family == s.f.family && Step(s, op).f.totalsByTask == s.f.totalsByTask
  {
  }

  lemma SettlingMovesTheBooks(s: Family, op: Op)
    requires Settled(s, op) != []
    ensures var e := EntryOf(s.f, op.id, op.settlement);
            && Settled(s, op) == [e]
            && Step(s, op).f.family == Record(s.f.family, e)
            && Step(s, op).f.totalsByTask == s.f.totalsByTask[e.task := Record(TaskTotals(s.f, e.task), e)]
  {
  }

  lemma OneMoreOfTask(log: seq<Entry>, e: Entry, t: Id)
    ensures OfTask(log + [e], t) == if t == e.task then OfTask(log, t) + [e] else OfTask(log, t)
  {
    FilterSplits(log, [e], IsOf(t));
    assert OfTask(log, t) + [] == OfTask(log, t);
  }

  lemma EntryBooks(f: Financial, after: Financial, e: Entry, log: seq<Entry>)
    requires BooksMatch(f, log)
    requires after.family == Record(f.family, e)
    requires after.totalsByTask == f.totalsByTask[e.task := Record(TaskTotals(f, e.task), e)]
    ensures BooksMatch(after, log + [e])
  {
    SumSnoc(log, e);
    RecordIsPlus(f.family, e);
    forall t ensures TaskTotals(after, t) == Sum(OfTask(log + [e], t)) {
      OneMoreOfTask(log, e, t);
      if t == e.task {
        SumSnoc(OfTask(log, t), e);
        RecordIsPlus(TaskTotals(f, t), e);
      }
    }
  }

  lemma StepBooks(s: Family, op: Op, log: seq<Entry>)
    requires BooksMatch(s.f, log)
    ensures BooksMatch(Step(s, op).f, log + Settled(s, op))
  {
    if Settled(s, op) == [] {
      StepKeepsOtherBooks(s, op);
      assert log + [] == log;
    } else {
      SettlingMovesTheBooks(s, op);
      EntryBooks(s.f, Step(s, op).f, EntryOf(s.f, op.id, op.settlement), log);
    }
  }

  lemma {:induction false} RunBooks(s: Family, ops: seq<Op>, log: seq<Entry>)
    requires BooksMatch(s.f, log)
    ensures BooksMatch(Run(s, ops).f, log + Log(s, ops))
    decreases |ops|
  {
    if ops == [] {
      assert log + [] == log;
    } else {
      StepBooks(s, ops[0], log);
      RunBooks(Step(s, ops[0]), ops[1..], log + Settled(s, ops[0]));
      LogSplit(s, ops, log);
    }
  }

  /** In every reachable state the books are exactly the settlement log of the run. */
  lemma TotalsAreTheLog(budget: PaidBudget, thresholds: Thresholds, ops: seq<Op>)
    ensures var start := NewFamily(budget, thresholds);
            BooksMatch(Run(start, ops).f, Log(start, ops))
  {
    var start := NewFamily(budget, thresholds);
    RunBooks(start, ops, []);
    assert [] + Log(start, ops) == Log(start, ops);
  }

  // ---------------------------------------------------------------- order independence

  lemma {:induction false} SumExtract(log: seq<Entry>, i: nat)
    requires i < |log|
    ensures Sum(log) == Plus(Single(log[i]), Sum(Without(log, i)))
  {
    if i == 0 {
      assert Without(log, 0) == log[1..];
    } else {
      var rest := log[1..];
      SumExtract(rest, i - 1);
      assert Without(log, i)[1..] == Without(rest, i - 1);
      var others := Sum(Without(rest, i - 1));
      PlusLaws(Single(log[0]), Single(log[i]), others);
      PlusLaws(Single(log[i]), Single(log[0]), others);
    }
  }

  lemma {:induction false} SumPermutes(a: seq<Entry>, b: seq<Entry>)
    requires multiset(a) == multiset(b)
    ensures Sum(a) == Sum(b)
  {
    if a == [] {
      assert |multiset(b)| == 0;
    } else {
      assert a[0] in multiset(b);
      var i :| 0 <= i < |b| && b[i] == a[0];
      SumExtract(b, i);
      WithoutMultiset(a, 0);
      WithoutMultiset(b, i);
      assert Without(a, 0) == a[1..];
      SumPermutes(a[1..], Without(b, i));
    }
  }

  lemma OfTaskMultiset(log: seq<Entry>, task: Id, e: Entry)
    ensures multiset(OfTask(log, task))[e] == if e.task == task then multiset(log)[e] else 0
  {
    if log != [] {
      OfTaskMultiset(log[1..], task, e);
      assert log == [log[0]] + log[1..];
    }
  }

  /** Two runs that make the same settlements, in whatever order, between whatever other
      operations and through whatever views, end with the same totals for the family and for
      every task. */
  lemma SettlementOrderIsIrrelevant(b1: PaidBudget, t1: Thresholds, ops1: seq<Op>,
                                    b2: PaidBudget, t2: Thresholds, ops2: seq<Op>)
    requires multiset(Log(NewFamily(b1, t1), ops1)) == multiset(Log(NewFamily(b2, t2), ops2))
    ensures var f := Run(NewFamily(b1, t1), ops1).f; var g := Run(NewFamily(b2, t2), ops2).f;
            f.family == g.family && forall task :: TaskTotals(f, task) == TaskTotals(g, task)
  {
    TotalsAreTheLog(b1, t1, ops1);
    TotalsAreTheLog(b2, t2, ops2);
    var l1, l2 := Log(NewFamily(b1, t1), ops1), Log(NewFamily(b2, t2), ops2);
    SumPermutes(l1, l2);
    forall task ensures Sum(OfTask(l1, task)) == Sum(OfTask(l2, task)) {
      forall e ensures multiset(OfTask(l1, task))[e] == multiset(OfTask(l2, task))[e] {
        OfTaskMultiset(l1, task, e);
        OfTaskMultiset(l2, task, e);
      }
      assert multiset(OfTask(l1, task)) == multiset(OfTask(l2, task));
      SumPermutes(OfTask(l1, task), OfTask(l2, task));
    }
  }

  // ---------------------------------------------------------------- conservation across tasks

  /** Everything the tasks' totals add up to. */
  ghost function OverTasks(totals: map<Id, Totals>): Totals
    decreases |totals|
  {
    if totals == map[] then ZERO_TOTALS
    else
      var k :| k in totals;
      Plus(totals[k], OverTasks(totals - {k}))
  }

  lemma OverTasksRemove(totals: map<Id, Totals>, k: Id)
    requires k in totals
    ensures OverTasks(totals) == Plus(totals[k], OverTasks(totals - {k}))
    decreases |totals|
  {
    var j :| j in totals && OverTasks(totals) == Plus(totals[j], OverTasks(totals - {j}));
    if j != k {
      OverTasksRemove(totals - {j}, k);
      OverTasksRemove(totals - {k}, j);
      assert totals - {j} - {k} == totals - {k} - {j};
      var rest := OverTasks(totals - {j} - {k});
      PlusLaws(totals[j], totals[k], rest);
      PlusLaws(totals[k], totals[j], rest);
    }
  }

  lemma OverTasksRecord(f: Financial, e: Entry)
    requires forall t :: t in f.totalsByTask ==> FlagSane(f.totalsByTask[t])
    ensures OverTasks(f.totalsByTask[e.task := Record(TaskTotals(f, e.task), e)])
         == Plus(OverTasks(f.totalsByTask), Single(e))
  {
    var before := f.totalsByTask;
    var after := before[e.task := Record(TaskTotals(f, e.task), e)];
    OverTasksRemove(after, e.task);
    assert after - {e.task} == before - {e.task};
    RecordIsPlus(TaskTotals(f, e.task), e);
    var rest := OverTasks(before - {e.task});
    PlusLaws(TaskTotals(f, e.task), Single(e), rest);
    PlusLaws(Single(e), rest, TaskTotals(f, e.task));
    PlusLaws(TaskTotals(f, e.task), rest, Single(e));
    if e.task in before {
      OverTasksRemove(before, e.task);
    } else {
      assert before - {e.task} == before;
      PlusLaws(Single(e), ZERO_TOTALS, rest);
    }
  }

  lemma {:induction false} RunConserves(s: Family, ops: seq<Op>)
    requires Inv(s.f) && s.f.family == OverTasks(s.f.totalsByTask)
    ensures Run(s, ops).f.family == OverTasks(Run(s, ops).f.totalsByTask)
    decreases |ops|
  {
    if ops != [] {
      StepKeepsInv(s, ops[0]);
      if Settled(s, ops[0]) == [] {
        StepKeepsOtherBooks(s, ops[0]);
      } else {
        var e := EntryOf(s.f, ops[0].id, ops[0].settlement);
        OverTasksRecord(s.f, e);
        RecordIsPlus(s.f.family, e);
      }
      RunConserves(Step(s, ops[0]), ops[1..]);
    }
  }

  /** Conservation: in every reachable state, under any mix of root and scoped views, the
      family's cash and valuation are the sums over the tasks, each of its knowledge values is
      the join of the tasks' values, and what is reported is never more certain than what is
      controllable. */
  lemma Conservation(budget: PaidBudget, thresholds: Thresholds, ops: seq<Op>)
    ensures var f := Run(NewFamily(budget, thresholds), ops).f;
            && f.family == OverTasks(f.totalsByTask)
            && AtMost(f.family.controllable, f.family.cash)
            && forall t :: t in f.totalsByTask ==>
                 AtMost(f.totalsByTask[t].controllable, f.totalsByTask[t].cash)
  {
    RunConserves(NewFamily(budget, thresholds), ops);
    ReachableInv(budget, thresholds, ops);
  }

  // ---------------------------------------------------------------- one entry per settled lease

  ghost predicate Distinct(log: seq<Entry>) {
    forall i, j :: 0 <= i < j < |log| ==> log[i].lease != log[j].lease
  }

  ghost predicate LogNamesSettledLeases(f: Financial, log: seq<Entry>) {
    && Distinct(log)
    && (forall e :: e in log ==> e.lease in f.leases && f.leases[e.lease].state.Settled?
                                 && f.leases[e.lease].task == e.task)
    && (forall id :: id in f.leases && f.leases[id].state.Settled? ==> exists e :: e in log && e.lease == id)
  }

  lemma StepLogsOnce(s: Family, op: Op, log: seq<Entry>)
    requires LogNamesSettledLeases(s.f, log)
    ensures LogNamesSettledLeases(Step(s, op).f, log + Settled(s, op))
  {
    var t := Step(s, op);
    var more := log + Settled(s, op);
    forall e | e in more
      ensures e.lease in t.f.leases && t.f.leases[e.lease].state.Settled? && t.f.leases[e.lease].task == e.task
    {
      if e in log { ClosedStep(s, op, e.lease); }
    }
    forall id | id in t.f.leases && t.f.leases[id].state.Settled? ensures exists e :: e in more && e.lease == id {
      if id in s.f.leases && s.f.leases[id].state.Settled? {
        var e :| e in log && e.lease == id;
        assert e in more;
      } else {
        NewlySettled(s, op, id);
        assert Settled(s, op)[0] in more;
      }
    }
  }

  lemma NewlySettled(s: Family, op: Op, id: Id)
    requires id in Step(s, op).f.leases && Step(s, op).f.leases[id].state.Settled?
    requires id in s.f.leases ==> !s.f.leases[id].state.Settled?
    ensures Settled(s, op) != [] && Settled(s, op)[0].lease == id
  {
  }

  lemma {:induction false} RunLogsOnce(s: Family, ops: seq<Op>, log: seq<Entry>)
    requires LogNamesSettledLeases(s.f, log)
    ensures LogNamesSettledLeases(Run(s, ops).f, log + Log(s, ops))
    decreases |ops|
  {
    if ops == [] {
      assert log + [] == log;
    } else {
      StepLogsOnce(s, ops[0], log);
      RunLogsOnce(Step(s, ops[0]), ops[1..], log + Settled(s, ops[0]));
      LogSplit(s, ops, log);
    }
  }

  /** Family cash is one contribution per settled lease: the log names every settled lease
      exactly once and no other, and the family's totals are its sum. */
  lemma OneEntryPerSettledLease(budget: PaidBudget, thresholds: Thresholds, ops: seq<Op>)
    ensures var start := NewFamily(budget, thresholds);
            var f := Run(start, ops).f; var log := Log(start, ops);
            && Distinct(log)
            && (set e | e in log :: e.lease) == (set id | id in f.leases && f.leases[id].state.Settled?)
            && f.family == Sum(log)
  {
    var start := NewFamily(budget, thresholds);
    TotalsAreTheLog(budget, thresholds, ops);
    RunLogsOnce(start, ops, []);
    assert [] + Log(start, ops) == Log(start, ops);
  }
}
