/** summaryCalculator.js: the summaries the exporters print, for the whole
    project, per phase and per group. Its loop reads `task.groupId.value`
    unguarded, so a task without a `groupId` (EDIT_TASK_VALUE on `phaseId`
    leaves one behind) makes it throw a TypeError. */
module SummaryCalculator {
  import opened JsValues
  import opened OrderList
  import opened Templates
  import opened Summaries
  import opened Store
  import opened Collections

  /** `calcSummary(tasksArr, ...)`: the export loop over the list, throwing
      at the first task without a `groupId`. */
  function Calc(ts: seq<Task>, ctx: Context): (r: Result<Summary>)
    ensures r.TypeError? <==> exists t :: t in ts && t.groupId.None?
    ensures r.Ok? ==> r.value == SumOf(ExportLoop, ctx, ts)
  {
    if ts == [] then Ok(Zero())
    else
      match Calc(ts[..|ts| - 1], ctx)
      case TypeError => TypeError
      case Ok(s) =>
        var t := ts[|ts| - 1];
        if t.groupId.None? then TypeError else Ok(Plus(s, Term(ExportLoop, t, ctx)))
  }

  /** The `forEach` loop over the six accumulators, each task handed to
      the callback ExportRound. */
  method CalcSummary(tasksArr: seq<Task>, groups: map<string, Groups.Group>, phases: map<string, Phases.Phase>,
                     globalCost: real) returns (r: Result<Summary>)
    ensures r == Calc(tasksArr, Context(groups, phases, globalCost))
  {
    var ctx := Context(groups, phases, globalCost);
    var acc := Summary(0.0, 0.0, 0.0, 0.0, Some(0.0), 0);
    var i := 0;
    while i < |tasksArr|
      invariant 0 <= i <= |tasksArr|
      invariant Calc(tasksArr[..i], ctx) == Ok(acc)
    {
      var next := ExportRound(acc, tasksArr[i], groups, phases, globalCost);
      if next.TypeError? {
        CalcThrowsOn(tasksArr, i, ctx);
        return TypeError;
      }
      CalcStep(tasksArr, i, ctx, acc);
      acc := next.value;
      i := i + 1;
    }
    assert tasksArr[..i] == tasksArr;
    r := Ok(acc);
  }

  /** The callback: reads `task.groupId.value` (throwing when there is no
      `groupId`), skips an ignored task, and otherwise adds the 0-coerced
      inputs, their estimate, that estimate times the rate it works out
      inline, and one to the count. */
  method ExportRound(acc: Summary, task: Task, groups: map<string, Groups.Group>,
                     phases: map<string, Phases.Phase>, globalCost: real) returns (r: Result<Summary>)
    ensures task.groupId.None? ==> r == TypeError
    ensures task.groupId.Some? ==> r == Ok(Plus(acc, Term(ExportLoop, task, Context(groups, phases, globalCost))))
  {
    if task.groupId.None? {
      return TypeError;
    }
    var ctx := Context(groups, phases, globalCost);
    var group := Lookup(groups, task.groupId.value.value);
    var phase := Lookup(phases, task.phaseId.value);
    assert group == GroupOf(task, groups);
    if (group.Some? && group.value.includeInComputation == Bool(false))
       || (phase.Some? && phase.value.includeInComputation == Bool(false)) {
      assert Term(ExportLoop, task, ctx) == Zero();
      PlusMonoid(acc, Zero(), Zero());
      return Ok(acc);
    }
    var best := Coerce(task.bestCase.value);
    var likely := Coerce(task.mostLikely.value);
    var worst := Coerce(task.worstCase.value);
    var estimate := (best + 4.0 * likely + worst) / 6.0;
    var effectiveCost := Some(globalCost);
    if task.costOverride.value != Str("") {
      effectiveCost := ParseNumber(task.costOverride.value);
    } else if group.Some? && group.value.costOverride != Str("") {
      effectiveCost := ParseNumber(group.value.costOverride);
    } else if phase.Some? && phase.value.costOverride != Str("") {
      effectiveCost := ParseNumber(phase.value.costOverride);
    }
    assert effectiveCost == EffectiveCost(task, groups, phases, globalCost);
    CountedRound(acc, task, ctx, best, likely, worst, estimate, effectiveCost);
    r := Ok(Summary(acc.sumBest + best, acc.sumLikely + likely, acc.sumWorst + worst, acc.sumEstimate + estimate,
                    Add(acc.sumCost, Times(Some(estimate), effectiveCost)), acc.count + 1));
  }

  /** What a task the export loop counts adds. */
  lemma ExportTermCounted(t: Task, ctx: Context)
    requires !Ignored(t, ctx)
    ensures var estimate := Pert(Coerce(t.bestCase.value), Coerce(t.mostLikely.value), Coerce(t.worstCase.value));
            Term(ExportLoop, t, ctx)
            == Summary(Coerce(t.bestCase.value), Coerce(t.mostLikely.value), Coerce(t.worstCase.value), estimate,
                       Times(Some(estimate), EffectiveCost(t, ctx.groups, ctx.phases, ctx.globalCost)), 1)
  {
  }

  /** The six accumulators after a counted task, as the loop body adds it. */
  lemma CountedRound(before: Summary, t: Task, ctx: Context, best: real, likely: real, worst: real,
                     estimate: real, effectiveCost: Option<real>)
    requires !Ignored(t, ctx)
    requires best == Coerce(t.bestCase.value) && likely == Coerce(t.mostLikely.value)
             && worst == Coerce(t.worstCase.value) && estimate == (best + 4.0 * likely + worst) / 6.0
    requires effectiveCost == EffectiveCost(t, ctx.groups, ctx.phases, ctx.globalCost)
    ensures Plus(before, Term(ExportLoop, t, ctx))
            == Summary(before.sumBest + best, before.sumLikely + likely, before.sumWorst + worst,
                       before.sumEstimate + estimate, Add(before.sumCost, Times(Some(estimate), effectiveCost)),
                       before.count + 1)
  {
    assert estimate == Pert(best, likely, worst);
    ExportTermCounted(t, ctx);
  }

  /** One more round of the loop. */
  lemma CalcStep(ts: seq<Task>, i: nat, ctx: Context, acc: Summary)
    requires i < |ts| && Calc(ts[..i], ctx) == Ok(acc) && ts[i].groupId.Some?
    ensures Calc(ts[..i + 1], ctx) == Ok(Plus(acc, Term(ExportLoop, ts[i], ctx)))
  {
    var s := ts[..i + 1];
    assert s[..|s| - 1] == ts[..i];
    assert s[|s| - 1] == ts[i];
  }

  /** A task without `groupId` makes the whole loop throw. */
  lemma CalcThrowsOn(ts: seq<Task>, i: nat, ctx: Context)
    requires i < |ts| && ts[i].groupId.None?
    ensures Calc(ts, ctx) == TypeError
  {
    assert ts[i] in ts;
  }

  /** `averageRate`: the cost per estimated hour, or "N/A" when the estimate
      sum is not positive. */
  datatype AverageRate = Rate(value: Option<real>) | NotAvailable

  function AverageRateOf(s: Summary): (r: AverageRate)
    ensures r.NotAvailable? <==> s.sumEstimate <= 0.0
    ensures r.Rate? ==> (r.value.Some? <==> s.sumCost.Some?)
    ensures r.Rate? && r.value.Some? ==> r.value.value * s.sumEstimate == s.sumCost.value
  {
    if s.sumEstimate > 0.0 then Rate(if s.sumCost.Some? then Some(s.sumCost.value / s.sumEstimate) else None)
    else NotAvailable
  }

  /** `computeOverallSummary`: the summary with its average rate. */
  datatype Overall = Overall(summary: Summary, averageRate: AverageRate)

  /** The tasks of the store in the enumeration `keys` of
      `Object.values(state.tasks.tasks)`. */
  function Values(state: AppState, keys: seq<string>): seq<Task>
    requires Lists(keys, state.tasks.records.Keys)
  {
    Pick(state.tasks.records, keys)
  }

  function ComputeOverallSummary(state: AppState, keys: seq<string>): Result<Overall>
    requires Lists(keys, state.tasks.records.Keys)
  {
    match Calc(Values(state, keys), ContextOf(state))
    case TypeError => TypeError
    case Ok(s) => Ok(Overall(s, AverageRateOf(s)))
  }

  /** A task of the list is one of the store's tasks, and the other way
      round. */
  lemma ValuesAreTheTasks(state: AppState, keys: seq<string>)
    requires Lists(keys, state.tasks.records.Keys)
    ensures forall t :: t in Values(state, keys) <==> exists k :: k in state.tasks.records && state.tasks.records[k] == t
  {
    var ts := Values(state, keys);
    forall t ensures t in ts <==> exists k :: k in state.tasks.records && state.tasks.records[k] == t {
      if t in ts {
        var i :| 0 <= i < |ts| && ts[i] == t;
        assert keys[i] in state.tasks.records;
      }
      if exists k :: k in state.tasks.records && state.tasks.records[k] == t {
        var k :| k in state.tasks.records && state.tasks.records[k] == t;
        assert k in keys;
        var i :| 0 <= i < |keys| && keys[i] == k;
        assert ts[i] == t;
      }
    }
  }

  /** The overall summary covers every task of the store whatever
      `tasksOrder` says, in any enumeration of the dictionary; it throws
      exactly when some task has no `groupId`; `count` is the number of
      tasks not ignored; the average rate is "N/A" unless the estimate sum
      is positive, so it never divides by zero. */
  lemma OverallSpec(state: AppState, keys1: seq<string>, keys2: seq<string>)
    requires Lists(keys1, state.tasks.records.Keys) && Lists(keys2, state.tasks.records.Keys)
    ensures ComputeOverallSummary(state, keys1) == ComputeOverallSummary(state, keys2)
    ensures ComputeOverallSummary(state, keys1).TypeError?
            <==> exists k :: k in state.tasks.records && state.tasks.records[k].groupId.None?
    ensures var r := ComputeOverallSummary(state, keys1);
            r.Ok? ==>
              && r.value.summary == SumOf(ExportLoop, ContextOf(state), Values(state, keys1))
              && r.value.summary.count == |CountedTasks(ExportLoop, ContextOf(state), Values(state, keys1))|
              && r.value.summary.count <= |state.tasks.records|
              && (r.value.averageRate.NotAvailable? <==> r.value.summary.sumEstimate <= 0.0)
  {
    var ctx := ContextOf(state);
    ValuesAreTheTasks(state, keys1);
    ValuesAreTheTasks(state, keys2);
    ValuesSumIndependent(ExportLoop, ctx, state.tasks.records, keys1, keys2);
    SumOfCount(ExportLoop, ctx, Values(state, keys1));
    assert |keys1| == |state.tasks.records| by {
      ListsCardinality(keys1, state.tasks.records.Keys);
    }
  }

  /** With no tasks the summary is all zeros and the rate "N/A". */
  lemma EmptyOverall(state: AppState, keys: seq<string>)
    requires state.tasks.records == map[] && Lists(keys, state.tasks.records.Keys)
    ensures ComputeOverallSummary(state, keys) == Ok(Overall(Zero(), NotAvailable))
  {
    ListsCardinality(keys, state.tasks.records.Keys);
  }

  // ---------------------------------------------------------------------
  // Per phase and per group

  /** `computePhaseSummaries` and `computeGroupSummaries` entries: the name
      and override of the record, with fallbacks, and the summary. */
  datatype Section = Section(name: Val, costOverride: Val, summary: Summary, averageRate: AverageRate)

  /** The value a phase filter compares. */
  function TaskPhase(t: Task): Val {
    t.phaseId.value
  }

  /** The value a group filter compares; None where reading it throws. */
  function TaskGroupRef(t: Task): Option<Val> {
    if t.groupId.Some? then Some(t.groupId.value.value) else None
  }

  /** `tasksArr.filter(task => task.phaseId.value === phaseId)`: the tasks of
      the phase, each once and in list order. */
  function OfPhase(ts: seq<Task>, phaseId: string): (r: seq<Task>)
    ensures forall t :: t in r <==> t in ts && t.phaseId.value == Str(phaseId)
    ensures r == FilterKey(ts, TaskPhase, Str(phaseId))
  {
    if ts == [] then []
    else
      var last := ts[|ts| - 1];
      OfPhase(ts[..|ts| - 1], phaseId) + (if last.phaseId.value == Str(phaseId) then [last] else [])
  }

  /** `tasksArr.filter(task => task.groupId.value === groupId)`: throws as
      soon as a task has no `groupId`, and otherwise keeps the tasks of the
      group, each once and in list order. */
  function OfGroup(ts: seq<Task>, groupId: string): (r: Result<seq<Task>>)
    ensures r.TypeError? <==> exists t :: t in ts && t.groupId.None?
    ensures r.Ok? ==> forall t :: t in r.value <==> t in ts && t.groupId.Some? && t.groupId.value.value == Str(groupId)
    ensures r.Ok? ==> r.value == FilterKey(ts, TaskGroupRef, Some(Str(groupId)))
  {
    if ts == [] then Ok([])
    else
      match OfGroup(ts[..|ts| - 1], groupId)
      case TypeError => TypeError
      case Ok(front) =>
        var last := ts[|ts| - 1];
        if last.groupId.None? then TypeError
        else Ok(front + (if last.groupId.value.value == Str(groupId) then [last] else []))
  }

  /** `record?.name || id` and `record?.costOverride || ""`, then the
      summary with its average rate. */
  function MakeSection(name: Option<Val>, costOverride: Option<Val>, id: string, s: Summary): Section {
    Section(Or(name.GetOr(Undef), Str(id)), Or(costOverride.GetOr(Undef), Str("")), s, AverageRateOf(s))
  }

  function PhaseSection(ts: seq<Task>, ctx: Context, phaseId: string): Result<Section> {
    var record := if phaseId in ctx.phases then Some(ctx.phases[phaseId]) else None;
    match Calc(OfPhase(ts, phaseId), ctx)
    case TypeError => TypeError
    case Ok(s) =>
      Ok(MakeSection(if record.Some? then Some(record.value.name) else None,
                     if record.Some? then Some(record.value.costOverride) else None, phaseId, s))
  }

  function GroupSection(ts: seq<Task>, ctx: Context, groupId: string): Result<Section> {
    var record := if groupId in ctx.groups then Some(ctx.groups[groupId]) else None;
    match OfGroup(ts, groupId)
    case TypeError => TypeError
    case Ok(groupTasks) =>
      match Calc(groupTasks, ctx)
      case TypeError => TypeError
      case Ok(s) =>
        Ok(MakeSection(if record.Some? then Some(record.value.name) else None,
                       if record.Some? then Some(record.value.costOverride) else None, groupId, s))
  }

  /** `phasesOrder.map(...)`: one entry per id, in order, unless an entry
      throws. */
  function PhaseSections(ts: seq<Task>, ctx: Context, ids: seq<string>): Result<seq<Section>> {
    if exists i :: 0 <= i < |ids| && PhaseSection(ts, ctx, ids[i]).TypeError? then TypeError
    else Ok(seq(|ids|, i requires 0 <= i < |ids| => PhaseSection(ts, ctx, ids[i]).value))
  }

  /** `groupsOrder.map(...)` */
  function GroupSections(ts: seq<Task>, ctx: Context, ids: seq<string>): Result<seq<Section>> {
    if exists i :: 0 <= i < |ids| && GroupSection(ts, ctx, ids[i]).TypeError? then TypeError
    else Ok(seq(|ids|, i requires 0 <= i < |ids| => GroupSection(ts, ctx, ids[i]).value))
  }

  function ComputePhaseSummaries(state: AppState, keys: seq<string>): Result<seq<Section>>
    requires Lists(keys, state.tasks.records.Keys)
  {
    PhaseSections(Values(state, keys), ContextOf(state), state.phases.order)
  }

  function ComputeGroupSummaries(state: AppState, keys: seq<string>): Result<seq<Section>>
    requires Lists(keys, state.tasks.records.Keys)
  {
    GroupSections(Values(state, keys), ContextOf(state), state.groups.order)
  }

  /** One entry per id of `phasesOrder`, in that order, each summing the
      tasks whose own `phaseId` is that id, named after the phase or else
      the id, with the phase's override or else "". The map throws exactly
      when a task of a listed phase has no `groupId`. */
  lemma PhaseSummariesSpec(state: AppState, keys: seq<string>)
    requires Lists(keys, state.tasks.records.Keys)
    ensures var ids := state.phases.order;
            var ts := Values(state, keys);
            var r := ComputePhaseSummaries(state, keys);
            && (r.TypeError? <==> exists i, t :: 0 <= i < |ids| && t in ts && t.phaseId.value == Str(ids[i]) && t.groupId.None?)
            && (r.Ok? ==>
                  |r.value| == |ids|
                  && forall i :: 0 <= i < |ids| ==>
                     var record := if ids[i] in state.phases.records then Some(state.phases.records[ids[i]]) else None;
                     && r.value[i].summary == SumOf(ExportLoop, ContextOf(state), OfPhase(ts, ids[i]))
                     && r.value[i].name == Or(if record.Some? then record.value.name else Undef, Str(ids[i]))
                     && r.value[i].costOverride == Or(if record.Some? then record.value.costOverride else Undef, Str("")))
  {
    var ids := state.phases.order;
    var ts := Values(state, keys);
    var ctx := ContextOf(state);
    forall i | 0 <= i < |ids|
      ensures PhaseSection(ts, ctx, ids[i]).TypeError?
              <==> exists t :: t in ts && t.phaseId.value == Str(ids[i]) && t.groupId.None?
    {
      assert forall t :: t in OfPhase(ts, ids[i]) <==> t in ts && t.phaseId.value == Str(ids[i]);
    }
  }

  /** One entry per id of `groupsOrder`, in that order, each summing the
      tasks whose `groupId` is that id, named after the group or else the
      id. Every entry filters all tasks, so the map throws exactly when
      `groupsOrder` is not empty and some task has no `groupId`. */
  lemma GroupSummariesSpec(state: AppState, keys: seq<string>)
    requires Lists(keys, state.tasks.records.Keys)
    ensures var ids := state.groups.order;
            var ts := Values(state, keys);
            var r := ComputeGroupSummaries(state, keys);
            && (r.TypeError? <==> ids != [] && exists t :: t in ts && t.groupId.None?)
            && (r.Ok? ==>
                  |r.value| == |ids|
                  && forall i :: 0 <= i < |ids| ==>
                     var record := if ids[i] in state.groups.records then Some(state.groups.records[ids[i]]) else None;
                     && OfGroup(ts, ids[i]).Ok?
                     && r.value[i].summary == SumOf(ExportLoop, ContextOf(state), OfGroup(ts, ids[i]).value)
                     && r.value[i].name == Or(if record.Some? then record.value.name else Undef, Str(ids[i]))
                     && r.value[i].costOverride == Or(if record.Some? then record.value.costOverride else Undef, Str("")))
  {
    var ids := state.groups.order;
    var ts := Values(state, keys);
    var ctx := ContextOf(state);
    forall i | 0 <= i < |ids|
      ensures GroupSection(ts, ctx, ids[i]).TypeError? <==> exists t :: t in ts && t.groupId.None?
    {
      var g := OfGroup(ts, ids[i]);
      if g.Ok? {
        assert forall t :: t in g.value ==> t.groupId.Some?;
      }
    }
    if ids != [] && exists t :: t in ts && t.groupId.None? {
      assert GroupSection(ts, ctx, ids[0]).TypeError?;
    }
  }
}
