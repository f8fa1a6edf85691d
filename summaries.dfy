/** The summary the estimator shows and exports for a list of tasks: sums of
    the three inputs, of the estimates and of the costs, and the number of
    tasks counted. The same loop is written twice, in summaryCalculator.js
    for the exports and in AppContainer.js for the screen; the two differ in
    which tasks they count and in how they work out the cost. This module
    holds what the two share: the per-task contribution of each loop and the
    fold of those contributions over a list, with the facts that make the
    result independent of the list's order. */
module Summaries {
  import opened JsValues
  import opened OrderList
  import opened Templates
  import Groups
  import Phases

  /** `{ sumBest, sumLikely, sumWorst, sumCost, sumEstimate, count }`. The
      cost is None once a NaN has been added to it. */
  datatype Summary = Summary(sumBest: real, sumLikely: real, sumWorst: real, sumEstimate: real,
                             sumCost: Option<real>, count: nat)

  /** The six accumulators before the loop. */
  function Zero(): Summary {
    Summary(0.0, 0.0, 0.0, 0.0, Some(0.0), 0)
  }

  /** NaN-propagating addition. */
  function Add(a: Option<real>, b: Option<real>): (r: Option<real>)
    ensures r.Some? <==> a.Some? && b.Some?
    ensures r.Some? ==> r.value == a.value + b.value
  {
    if a.Some? && b.Some? then Some(a.value + b.value) else None
  }

  /** Field-by-field sum of two summaries. */
  function Plus(a: Summary, b: Summary): Summary {
    Summary(a.sumBest + b.sumBest, a.sumLikely + b.sumLikely, a.sumWorst + b.sumWorst,
            a.sumEstimate + b.sumEstimate, Add(a.sumCost, b.sumCost), a.count + b.count)
  }

  /** Summaries under `Plus` form a commutative monoid with unit `Zero`. */
  lemma PlusMonoid(a: Summary, b: Summary, c: Summary)
    ensures Plus(a, Zero()) == a && Plus(Zero(), a) == a
    ensures Plus(a, b) == Plus(b, a)
    ensures Plus(Plus(a, b), c) == Plus(a, Plus(b, c))
  {
  }

  /** What the loops read besides the tasks: `groups`, `phases` and the
      global cost. */
  datatype Context = Context(groups: map<string, Groups.Group>, phases: map<string, Phases.Phase>,
                             globalCost: real)

  /** Which of the two loops: summaryCalculator.js (exports) or
      AppContainer.js (screen). */
  datatype Loop = ExportLoop | ScreenLoop

  /** `(group && group.includeInComputation === false) ||
      (phase && phase.includeInComputation === false)`, with the group found
      through the task's `groupId` and the phase through its `phaseId`. A
      missing record or a missing flag leaves the task in. */
  predicate Ignored(t: Task, ctx: Context) {
    var group := GroupOf(t, ctx.groups);
    var phase := Lookup(ctx.phases, t.phaseId.value);
    (group.Some? && group.value.includeInComputation == Bool(false))
    || (phase.Some? && phase.value.includeInComputation == Bool(false))
  }

  /** Whether the loop adds the task in. The screen loop first skips a task
      without a `groupId` or with a falsy one; the export loop has no such
      check (and throws on a task without `groupId`, see Calc). */
  predicate Counted(loop: Loop, t: Task, ctx: Context) {
    match loop
    case ExportLoop => !Ignored(t, ctx)
    case ScreenLoop => t.groupId.Some? && Truthy(t.groupId.value.value) && !Ignored(t, ctx)
  }

  /** The estimate of the 0-coerced inputs (`parseFloat(x) || 0`). */
  function CoercedEstimate(t: Task): real {
    Pert(Coerce(t.bestCase.value), Coerce(t.mostLikely.value), Coerce(t.worstCase.value))
  }

  /** What one task adds to the six accumulators. Both loops add the
      0-coerced inputs and estimate; the export loop's cost is that estimate
      times the rate it works out inline (the same four steps as
      `calculateEffectiveCost`), while the screen loop adds
      `calculateTaskTotalCost`, which does not coerce. */
  function Term(loop: Loop, t: Task, ctx: Context): (r: Summary)
    ensures r.count == if Counted(loop, t, ctx) then 1 else 0
    ensures !Counted(loop, t, ctx) ==> r == Zero()
    ensures Counted(loop, t, ctx) ==>
              r.sumBest == Coerce(t.bestCase.value) && r.sumLikely == Coerce(t.mostLikely.value)
              && r.sumWorst == Coerce(t.worstCase.value)
              && 6.0 * r.sumEstimate == r.sumBest + 4.0 * r.sumLikely + r.sumWorst
  {
    if !Counted(loop, t, ctx) then Zero()
    else
      var best := Coerce(t.bestCase.value);
      var likely := Coerce(t.mostLikely.value);
      var worst := Coerce(t.worstCase.value);
      var estimate := Pert(best, likely, worst);
      var cost := match loop
        case ExportLoop => Times(Some(estimate), EffectiveCost(t, ctx.groups, ctx.phases, ctx.globalCost))
        case ScreenLoop => TaskTotalCost(t, ctx.groups, ctx.phases, ctx.globalCost);
      Summary(best, likely, worst, estimate, cost, 1)
  }

  /** The accumulators after the loop has run over `ts`, as a fold. */
  function SumOf(loop: Loop, ctx: Context, ts: seq<Task>): Summary {
    if ts == [] then Zero()
    else Plus(SumOf(loop, ctx, ts[..|ts| - 1]), Term(loop, ts[|ts| - 1], ctx))
  }

  /** The tasks the loop counts, in list order. */
  function CountedTasks(loop: Loop, ctx: Context, ts: seq<Task>): (r: seq<Task>)
    ensures |r| <= |ts|
    ensures forall t :: t in r <==> t in ts && Counted(loop, t, ctx)
  {
    if ts == [] then []
    else
      var last := ts[|ts| - 1];
      CountedTasks(loop, ctx, ts[..|ts| - 1]) + (if Counted(loop, last, ctx) then [last] else [])
  }

  /** The tasks left out add nothing: the summary is that of the counted
      tasks alone. */
  lemma {:induction false} SumOfCounted(loop: Loop, ctx: Context, ts: seq<Task>)
    ensures SumOf(loop, ctx, ts) == SumOf(loop, ctx, CountedTasks(loop, ctx, ts))
  {
    if ts != [] {
      var p := ts[..|ts| - 1];
      var x := ts[|ts| - 1];
      SumOfCounted(loop, ctx, p);
      var c := CountedTasks(loop, ctx, p);
      if Counted(loop, x, ctx) {
        assert CountedTasks(loop, ctx, ts) == c + [x];
        assert (c + [x])[..|c|] == c;
      } else {
        assert CountedTasks(loop, ctx, ts) == c;
        PlusMonoid(SumOf(loop, ctx, p), Zero(), Zero());
      }
    }
  }

  /** `count` is the number of tasks counted. */
  lemma {:induction false} SumOfCount(loop: Loop, ctx: Context, ts: seq<Task>)
    ensures SumOf(loop, ctx, ts).count == |CountedTasks(loop, ctx, ts)| <= |ts|
  {
    if ts != [] {
      var p := ts[..|ts| - 1];
      var x := ts[|ts| - 1];
      SumOfCount(loop, ctx, p);
      assert SumOf(loop, ctx, ts) == Plus(SumOf(loop, ctx, p), Term(loop, x, ctx));
      assert CountedTasks(loop, ctx, ts)
             == CountedTasks(loop, ctx, p) + (if Counted(loop, x, ctx) then [x] else []);
    }
  }

  /** A list none of whose tasks is counted, the empty list in particular,
      sums to all zeros. */
  lemma NothingCountedIsZero(loop: Loop, ctx: Context, ts: seq<Task>)
    requires forall t :: t in ts ==> !Counted(loop, t, ctx)
    ensures SumOf(loop, ctx, ts) == Zero()
  {
    SumOfCounted(loop, ctx, ts);
    SumOfCount(loop, ctx, ts);
    assert CountedTasks(loop, ctx, ts) == [];
  }

  /** Summing a concatenation sums the parts. */
  lemma {:induction false} SumOfAppend(loop: Loop, ctx: Context, a: seq<Task>, b: seq<Task>)
    ensures SumOf(loop, ctx, a + b) == Plus(SumOf(loop, ctx, a), SumOf(loop, ctx, b))
  {
    if b == [] {
      assert a + b == a;
      PlusMonoid(SumOf(loop, ctx, a), Zero(), Zero());
    } else {
      var b' := b[..|b| - 1];
      var y := b[|b| - 1];
      assert (a + b)[..|a + b| - 1] == a + b';
      assert (a + b)[|a + b| - 1] == y;
      SumOfAppend(loop, ctx, a, b');
      PlusMonoid(SumOf(loop, ctx, a), SumOf(loop, ctx, b'), Term(loop, y, ctx));
    }
  }

  /** The sum does not depend on the order of the list: `Object.values`
      may enumerate the tasks in any order. */
  lemma {:induction false} SumOfPermutation(loop: Loop, ctx: Context, a: seq<Task>, b: seq<Task>)
    requires multiset(a) == multiset(b)
    ensures SumOf(loop, ctx, a) == SumOf(loop, ctx, b)
    decreases |a|
  {
    if a == [] {
      assert |b| == |multiset(b)| == 0;
    } else {
      var p := a[..|a| - 1];
      var x := a[|a| - 1];
      assert a == p + [x];
      assert x in multiset(b);
      var i :| 0 <= i < |b| && b[i] == x;
      RemoveMatching(a, b, i);
      var left, right := b[..i], b[i + 1..];
      assert a == p + [x] + [];
      SumOfSplit(loop, ctx, p, p, x, []);
      SumOfSplit(loop, ctx, left + right, left, x, right);
      SumOfPermutation(loop, ctx, p, left + right);
    }
  }

  /** Taking `x` out of the middle of a list takes its term out of the sum. */
  lemma SumOfSplit(loop: Loop, ctx: Context, ts: seq<Task>, left: seq<Task>, x: Task, right: seq<Task>)
    requires ts == left + right
    ensures SumOf(loop, ctx, left + [x] + right) == Plus(SumOf(loop, ctx, ts), Term(loop, x, ctx))
  {
    SumOfAppend(loop, ctx, left + [x], right);
    SumOfAppend(loop, ctx, left, [x]);
    SumOfAppend(loop, ctx, left, right);
    assert SumOf(loop, ctx, [x]) == Term(loop, x, ctx) by {
      PlusMonoid(Term(loop, x, ctx), Zero(), Zero());
    }
    var l, r, t := SumOf(loop, ctx, left), SumOf(loop, ctx, right), Term(loop, x, ctx);
    PlusMonoid(l, t, r);
    PlusMonoid(t, r, Zero());
    PlusMonoid(l, r, t);
  }

  // ---------------------------------------------------------------------
  // Lists of tasks picked out of the tasks dictionary

  /** `ids.map(id => tasks[id])`; `Object.values(tasks)` when `ids`
      enumerates the keys. */
  function Pick(tasks: map<string, Task>, ids: seq<string>): (r: seq<Task>)
    requires forall id :: id in ids ==> id in tasks
    ensures |r| == |ids| && forall i :: 0 <= i < |ids| ==> r[i] == tasks[ids[i]]
  {
    seq(|ids|, i requires 0 <= i < |ids| => tasks[ids[i]])
  }

  lemma PickAppend(tasks: map<string, Task>, a: seq<string>, b: seq<string>)
    requires forall id :: id in a + b ==> id in tasks
    ensures Pick(tasks, a + b) == Pick(tasks, a) + Pick(tasks, b)
  {
  }

  /** Picking the ids of two permutations gives two permutations. */
  lemma {:induction false} PickPermutation(tasks: map<string, Task>, a: seq<string>, b: seq<string>)
    requires forall id :: id in a ==> id in tasks
    requires forall id :: id in b ==> id in tasks
    requires multiset(a) == multiset(b)
    ensures multiset(Pick(tasks, a)) == multiset(Pick(tasks, b))
    decreases |a|
  {
    if a == [] {
      assert |b| == |multiset(b)| == 0;
    } else {
      var p := a[..|a| - 1];
      var x := a[|a| - 1];
      assert a == p + [x];
      assert x in multiset(b);
      var i :| 0 <= i < |b| && b[i] == x;
      RemoveMatching(a, b, i);
      var left, right := b[..i], b[i + 1..];
      assert a == p + [x] + [];
      PickSplit(tasks, p, p, x, []);
      PickSplit(tasks, left + right, left, x, right);
      PickPermutation(tasks, p, left + right);
    }
  }

  /** Taking `x` out of the middle of an id list takes `tasks[x]` out of
      the picked multiset. */
  lemma PickSplit(tasks: map<string, Task>, ids: seq<string>, left: seq<string>, x: string, right: seq<string>)
    requires ids == left + right
    requires forall id :: id in left + [x] + right ==> id in tasks
    ensures forall id :: id in ids ==> id in tasks
    ensures multiset(Pick(tasks, left + [x] + right)) == multiset(Pick(tasks, ids)) + multiset{tasks[x]}
  {
    PickAppend(tasks, left + [x], right);
    PickAppend(tasks, left, [x]);
    PickAppend(tasks, left, right);
  }

  /** `Object.values(tasks)` in two enumerations of the keys: a
      permutation. */
  lemma ValuesPermutation(tasks: map<string, Task>, keys1: seq<string>, keys2: seq<string>)
    requires Lists(keys1, tasks.Keys) && Lists(keys2, tasks.Keys)
    ensures multiset(Pick(tasks, keys1)) == multiset(Pick(tasks, keys2))
  {
    ListsSameMultiset(keys1, keys2, tasks.Keys);
    PickPermutation(tasks, keys1, keys2);
  }

  /** A sum over the tasks dictionary is the same in every enumeration of
      its keys. */
  lemma ValuesSumIndependent(loop: Loop, ctx: Context, tasks: map<string, Task>,
                             keys1: seq<string>, keys2: seq<string>)
    requires Lists(keys1, tasks.Keys) && Lists(keys2, tasks.Keys)
    ensures SumOf(loop, ctx, Pick(tasks, keys1)) == SumOf(loop, ctx, Pick(tasks, keys2))
  {
    ValuesPermutation(tasks, keys1, keys2);
    SumOfPermutation(loop, ctx, Pick(tasks, keys1), Pick(tasks, keys2));
  }
}
