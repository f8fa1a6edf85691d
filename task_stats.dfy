/** TaskStats.js: the four statistics cards over every task in the store.
    A third copy of the summary loop: it skips the same tasks as the screen
    loop, but adds `calculateEstimate`, which does not coerce, so a blank
    input turns the total estimate into NaN. */
module TaskStats {
  import opened JsValues
  import opened OrderList
  import opened Templates
  import opened Summaries
  import opened Store
  import AppContainer
  import Tasks
  import Groups
  import Phases

  /** `{ taskCount, totalEstimate, totalCost }`; None stands for NaN. */
  datatype Stats = Stats(taskCount: nat, totalEstimate: Option<real>, totalCost: Option<real>)

  /** The three accumulators after the loop has run over `ts`. */
  function StatsOf(ctx: Context, ts: seq<Task>): Stats {
    if ts == [] then Stats(0, Some(0.0), Some(0.0))
    else
      StatsAdd(StatsOf(ctx, ts[..|ts| - 1]), ts[|ts| - 1], ctx)
  }

  /** One task more: the screen loop's test, then the count, the estimate
      sum and the cost sum. */
  function StatsAdd(s: Stats, t: Task, ctx: Context): Stats {
    if Counted(ScreenLoop, t, ctx) then
      Stats(s.taskCount + 1, Add(s.totalEstimate, Estimate(t)),
            Add(s.totalCost, TaskTotalCost(t, ctx.groups, ctx.phases, ctx.globalCost)))
    else s
  }

  /** `mapStateToProps(state)`: a `forEach` over `Object.values(tasks)`,
      whose enumeration order is `keys`. */
  method MapStateToProps(state: AppState, keys: seq<string>) returns (r: Stats)
    requires Lists(keys, state.tasks.records.Keys)
    ensures r == StatsOf(ContextOf(state), Pick(state.tasks.records, keys))
  {
    var ctx := ContextOf(state);
    var tasks := state.tasks.records;
    var acc := Stats(0, Some(0.0), Some(0.0));
    var i := 0;
    while i < |keys|
      invariant 0 <= i <= |keys|
      invariant acc == StatsOf(ctx, Pick(tasks, keys[..i]))
    {
      StatsStep(ctx, tasks, keys, i);
      acc := StatsRound(acc, tasks[keys[i]], state.groups.records, state.phases.records, state.config.globalCost);
      i := i + 1;
    }
    assert keys[..i] == keys;
    r := acc;
  }

  /** The callback: the screen loop's test, then one more task, its
      `calculateEstimate` and its `calculateTaskTotalCost`. */
  method StatsRound(acc: Stats, task: Task, groups: map<string, Groups.Group>,
                    phases: map<string, Phases.Phase>, globalCost: real) returns (r: Stats)
    ensures r == StatsAdd(acc, task, Context(groups, phases, globalCost))
  {
    r := acc;
    if task.groupId.Some? && Truthy(task.groupId.value.value) {
      var group := Lookup(groups, task.groupId.value.value);
      var phase := Lookup(phases, task.phaseId.value);
      assert group == GroupOf(task, groups);
      if !((group.Some? && group.value.includeInComputation == Bool(false))
           || (phase.Some? && phase.value.includeInComputation == Bool(false))) {
        r := Stats(acc.taskCount + 1, Add(acc.totalEstimate, Estimate(task)),
                   Add(acc.totalCost, TaskTotalCost(task, groups, phases, globalCost)));
      }
    }
  }

  lemma StatsStep(ctx: Context, tasks: map<string, Task>, ids: seq<string>, i: nat)
    requires forall id :: id in ids ==> id in tasks
    requires i < |ids|
    ensures StatsOf(ctx, Pick(tasks, ids[..i + 1])) == StatsAdd(StatsOf(ctx, Pick(tasks, ids[..i])), tasks[ids[i]], ctx)
  {
    var s := Pick(tasks, ids[..i + 1]);
    assert s[..|s| - 1] == Pick(tasks, ids[..i]);
    assert s[|s| - 1] == tasks[ids[i]];
  }

  /** `taskCount > 0 ? totalEstimate / taskCount : 0`. */
  function AvgEstimate(s: Stats): (r: Option<real>)
    ensures s.taskCount == 0 ==> r == Some(0.0)
    ensures s.taskCount > 0 ==> (r.Some? <==> s.totalEstimate.Some?)
    ensures s.taskCount > 0 && r.Some? ==> r.value * (s.taskCount as real) == s.totalEstimate.value
  {
    if s.taskCount > 0 then
      if s.totalEstimate.Some? then Some(s.totalEstimate.value / (s.taskCount as real)) else None
    else Some(0.0)
  }

  /** Every counted task has three inputs that parse. */
  predicate EstimatesParse(ctx: Context, ts: seq<Task>) {
    forall t :: t in ts && Counted(ScreenLoop, t, ctx) ==> Estimate(t).Some?
  }

  /** The statistics are the screen summary of the same tasks: the same
      count and the same cost, and the same estimate sum when every counted
      task's inputs parse (NaN otherwise). */
  lemma {:induction false} StatsIsScreenSummary(ctx: Context, ts: seq<Task>)
    ensures var s := SumOf(ScreenLoop, ctx, ts);
            StatsOf(ctx, ts) == Stats(s.count, if EstimatesParse(ctx, ts) then Some(s.sumEstimate) else None, s.sumCost)
  {
    if ts != [] {
      var front := ts[..|ts| - 1];
      StatsIsScreenSummary(ctx, front);
      EstimatesParseLast(ctx, ts);
      StatsAddMatches(StatsOf(ctx, front), SumOf(ScreenLoop, ctx, front), EstimatesParse(ctx, front), ts[|ts| - 1], ctx);
    }
  }

  /** One round of each loop keeps the statistics and the summary in step. */
  lemma StatsAddMatches(s: Stats, sum: Summary, parsed: bool, t: Task, ctx: Context)
    requires s == Stats(sum.count, if parsed then Some(sum.sumEstimate) else None, sum.sumCost)
    ensures var next := Plus(sum, Term(ScreenLoop, t, ctx));
            StatsAdd(s, t, ctx)
            == Stats(next.count, if parsed && (Counted(ScreenLoop, t, ctx) ==> Estimate(t).Some?)
                                 then Some(next.sumEstimate) else None, next.sumCost)
  {
    if Counted(ScreenLoop, t, ctx) {
      AppContainer.ScreenTermCounted(t, ctx);
      if Estimate(t).Some? {
        CoercedIsParsed(t);
      }
    } else {
      PlusMonoid(sum, Zero(), Zero());
    }
  }

  lemma EstimatesParseLast(ctx: Context, ts: seq<Task>)
    requires ts != []
    ensures var t := ts[|ts| - 1];
            EstimatesParse(ctx, ts)
            <==> EstimatesParse(ctx, ts[..|ts| - 1]) && (Counted(ScreenLoop, t, ctx) ==> Estimate(t).Some?)
  {
    assert ts == ts[..|ts| - 1] + [ts[|ts| - 1]];
    assert forall u :: u in ts <==> u in ts[..|ts| - 1] || u == ts[|ts| - 1];
  }

  lemma StatsOfSnoc(ctx: Context, front: seq<Task>, t: Task)
    ensures StatsOf(ctx, front + [t]) == StatsAdd(StatsOf(ctx, front), t, ctx)
  {
    var ts := front + [t];
    assert ts[..|ts| - 1] == front && ts[|ts| - 1] == t;
  }

  /** When the three inputs parse, coercing them changes nothing. */
  lemma CoercedIsParsed(t: Task)
    requires Estimate(t).Some?
    ensures CoercedEstimate(t) == Estimate(t).value
  {
  }

  /** Like the screen summary, the statistics do not depend on the order in
      which `Object.values` enumerates the tasks. */
  lemma StatsIndependentOfKeys(ctx: Context, tasks: map<string, Task>, keys1: seq<string>, keys2: seq<string>)
    requires Lists(keys1, tasks.Keys) && Lists(keys2, tasks.Keys)
    ensures StatsOf(ctx, Pick(tasks, keys1)) == StatsOf(ctx, Pick(tasks, keys2))
  {
    var a, b := Pick(tasks, keys1), Pick(tasks, keys2);
    ValuesPermutation(tasks, keys1, keys2);
    ValuesSumIndependent(ScreenLoop, ctx, tasks, keys1, keys2);
    assert forall t :: t in a <==> t in b by {
      assert forall t :: t in a <==> t in multiset(a);
      assert forall t :: t in b <==> t in multiset(b);
    }
    StatsIsScreenSummary(ctx, a);
    StatsIsScreenSummary(ctx, b);
  }

  /** With a valid task slice, the statistics cards agree with the
      screen's `calcSummary` over all of `tasksOrder`: the same count and
      cost, and the same estimate sum when the inputs parse. */
  lemma StatsMatchScreenSummary(state: AppState, keys: seq<string>)
    requires Tasks.Valid(state.tasks)
    requires Lists(keys, state.tasks.records.Keys)
    ensures forall id :: id in state.tasks.order ==> id in state.tasks.records
    ensures var stats := StatsOf(ContextOf(state), Pick(state.tasks.records, keys));
            var s := AppContainer.ScreenSum(ContextOf(state), state.tasks.records, state.tasks.order);
            && stats.taskCount == s.count
            && stats.totalCost == s.sumCost
            && (EstimatesParse(ContextOf(state), Pick(state.tasks.records, keys)) ==>
                  stats.totalEstimate == Some(s.sumEstimate))
  {
    var ctx := ContextOf(state);
    StatsIsScreenSummary(ctx, Pick(state.tasks.records, keys));
    ValuesSumIndependent(ScreenLoop, ctx, state.tasks.records, keys, state.tasks.order);
  }

  /** Three tasks typed in as 10, 15 and 20 in the default group and phase
      of a fresh store make three tasks and a total estimate of 45, at the
      default rate of 50 a total cost of 2250. */
  lemma ThreeTasksExample(ts: seq<Task>)
    requires |ts| == 3
    requires forall t :: t in ts ==> TypedInDefault(t)
    ensures var stats := StatsOf(ContextOf(Initial()), ts);
            stats.taskCount == 3 && stats.totalEstimate == Some(45.0) && stats.totalCost == Some(2250.0)
  {
    var t0, t1, t2 := ts[0], ts[1], ts[2];
    assert t0 in ts && t1 in ts && t2 in ts;
    assert ts == [t0, t1, t2];
    TypedInDefaultCounts(t0);
    TypedInDefaultCounts(t1);
    TypedInDefaultCounts(t2);
    ThreeCounted(ContextOf(Initial()), t0, t1, t2);
  }

  lemma ThreeCounted(ctx: Context, t0: Task, t1: Task, t2: Task)
    requires CountsFifteen(ctx, t0) && CountsFifteen(ctx, t1) && CountsFifteen(ctx, t2)
    ensures StatsOf(ctx, [t0, t1, t2]) == Stats(3, Some(45.0), Some(2250.0))
  {
    assert [] + [t0] == [t0] && [t0] + [t1] == [t0, t1] && [t0, t1] + [t2] == [t0, t1, t2];
    assert StatsOf(ctx, []) == Stats(0, Some(0.0), Some(0.0));
    StatsSnoc(ctx, [], t0, 0, 0.0, 0.0);
    StatsSnoc(ctx, [t0], t1, 1, 15.0, 750.0);
    StatsSnoc(ctx, [t0, t1], t2, 2, 30.0, 1500.0);
  }

  /** A counted task estimated at 15 and costing 750. */
  predicate CountsFifteen(ctx: Context, t: Task) {
    && Counted(ScreenLoop, t, ctx) && Estimate(t) == Some(15.0)
    && TaskTotalCost(t, ctx.groups, ctx.phases, ctx.globalCost) == Some(750.0)
  }

  lemma StatsSnoc(ctx: Context, ts: seq<Task>, t: Task, n: nat, e: real, c: real)
    requires StatsOf(ctx, ts) == Stats(n, Some(e), Some(c))
    requires CountsFifteen(ctx, t)
    ensures StatsOf(ctx, ts + [t]) == Stats(n + 1, Some(e + 15.0), Some(c + 750.0))
  {
    StatsOfSnoc(ctx, ts, t);
  }

  /** A task of the default group and phase with 10, 15 and 20 typed in. */
  predicate TypedInDefault(t: Task) {
    && t.bestCase.value == Str("10") && t.mostLikely.value == Str("15") && t.worstCase.value == Str("20")
    && t.groupId.Some? && t.groupId.value.value == Str("default") && t.phaseId.value == Str("default")
    && t.costOverride.value == Str("")
  }

  lemma TypedInDefaultCounts(t: Task)
    requires TypedInDefault(t)
    ensures CountsFifteen(ContextOf(Initial()), t)
  {
    var ctx := ContextOf(Initial());
    var groups, phases := Groups.Initial().records, Phases.Initial().records;
    assert ctx == Context(groups, phases, 50.0);
    EstimateExample(t);
    var group := GroupOf(t, groups);
    var phase := Lookup(phases, t.phaseId.value);
    assert group == Some(groups["default"]);
    assert phase == Some(phases["default"]);
    assert !Ignored(t, ctx);
    assert EffectiveCost(t, groups, phases, 50.0) == Some(50.0);
    assert Times(Some(15.0), Some(50.0)) == Some(750.0);
  }
}
