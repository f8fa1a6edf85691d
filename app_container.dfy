/** AppContainer.js without its markup: the screen's summary loop, the
    bucketing of the ordered task ids by phase and by group, the add-task
    handler and the average shown in a summary row. */
module AppContainer {
  import opened JsValues
  import opened OrderList
  import opened Collections
  import opened Templates
  import opened Summaries
  import opened Slices
  import Tasks
  import SummaryCalculator

  // ---------------------------------------------------------------------
  // calcSummary

  /** The screen summary of the ids `ids`, in the dictionary `tasks`. */
  function ScreenSum(ctx: Context, tasks: map<string, Task>, ids: seq<string>): Summary
    requires forall id :: id in ids ==> id in tasks
  {
    SumOf(ScreenLoop, ctx, Pick(tasks, ids))
  }

  /** The exported `calcSummary(taskIds, tasks, groups, phases, globalCost)`:
      a `forEach` over six accumulators that skips a task without a
      non-empty `groupId` or whose group or phase is ignored, and adds
      `calculateTaskTotalCost` to the cost. */
  method CalcSummary(taskIds: seq<string>, tasks: map<string, Task>, groups: map<string, Groups.Group>,
                     phases: map<string, Phases.Phase>, globalCost: real) returns (r: Summary)
    requires forall id :: id in taskIds ==> id in tasks
    ensures r == ScreenSum(Context(groups, phases, globalCost), tasks, taskIds)
  {
    var ctx := Context(groups, phases, globalCost);
    var acc := Summary(0.0, 0.0, 0.0, 0.0, Some(0.0), 0);
    var i := 0;
    while i < |taskIds|
      invariant 0 <= i <= |taskIds|
      invariant acc == SumOf(ScreenLoop, ctx, Pick(tasks, taskIds[..i]))
    {
      ScreenStep(ctx, tasks, taskIds, i);
      acc := ScreenRound(acc, tasks[taskIds[i]], groups, phases, globalCost);
      i := i + 1;
    }
    assert taskIds[..i] == taskIds;
    r := acc;
  }

  /** The callback: skips a task without a truthy `groupId` or whose group
      or phase is ignored, and otherwise adds the 0-coerced inputs, their
      estimate, `calculateTaskTotalCost` and one to the count. */
  method ScreenRound(acc: Summary, t: Task, groups: map<string, Groups.Group>,
                     phases: map<string, Phases.Phase>, globalCost: real) returns (r: Summary)
    ensures r == Plus(acc, Term(ScreenLoop, t, Context(groups, phases, globalCost)))
  {
    var ctx := Context(groups, phases, globalCost);
    if t.groupId.None? || !Truthy(t.groupId.value.value) {
      assert Term(ScreenLoop, t, ctx) == Zero();
      PlusMonoid(acc, Zero(), Zero());
      return acc;
    }
    var group := Lookup(groups, t.groupId.value.value);
    var phase := Lookup(phases, t.phaseId.value);
    assert group == GroupOf(t, groups);
    if (group.Some? && group.value.includeInComputation == Bool(false))
       || (phase.Some? && phase.value.includeInComputation == Bool(false)) {
      assert Term(ScreenLoop, t, ctx) == Zero();
      PlusMonoid(acc, Zero(), Zero());
      return acc;
    }
    var best := Coerce(t.bestCase.value);
    var likely := Coerce(t.mostLikely.value);
    var worst := Coerce(t.worstCase.value);
    var estimate := (best + 4.0 * likely + worst) / 6.0;
    assert estimate == Pert(best, likely, worst);
    ScreenTermCounted(t, ctx);
    r := Summary(acc.sumBest + best, acc.sumLikely + likely, acc.sumWorst + worst, acc.sumEstimate + estimate,
                 Add(acc.sumCost, TaskTotalCost(t, groups, phases, globalCost)), acc.count + 1);
  }

  /** What a task the screen loop counts adds. */
  lemma ScreenTermCounted(t: Task, ctx: Context)
    requires Counted(ScreenLoop, t, ctx)
    ensures var estimate := Pert(Coerce(t.bestCase.value), Coerce(t.mostLikely.value), Coerce(t.worstCase.value));
            Term(ScreenLoop, t, ctx)
            == Summary(Coerce(t.bestCase.value), Coerce(t.mostLikely.value), Coerce(t.worstCase.value), estimate,
                       TaskTotalCost(t, ctx.groups, ctx.phases, ctx.globalCost), 1)
  {
  }

  /** One more round of the loop. */
  lemma ScreenStep(ctx: Context, tasks: map<string, Task>, ids: seq<string>, i: nat)
    requires forall id :: id in ids ==> id in tasks
    requires i < |ids|
    ensures SumOf(ScreenLoop, ctx, Pick(tasks, ids[..i + 1]))
            == Plus(SumOf(ScreenLoop, ctx, Pick(tasks, ids[..i])), Term(ScreenLoop, tasks[ids[i]], ctx))
  {
    var s := Pick(tasks, ids[..i + 1]);
    assert s[..|s| - 1] == Pick(tasks, ids[..i]);
    assert s[|s| - 1] == tasks[ids[i]];
  }

  /** The summary of a concatenation of id lists is the sum of the parts'
      summaries, and an id list summarises the same in any order. */
  lemma ScreenSumAdditive(ctx: Context, tasks: map<string, Task>, a: seq<string>, b: seq<string>)
    requires forall id :: id in a + b ==> id in tasks
    ensures ScreenSum(ctx, tasks, a + b) == Plus(ScreenSum(ctx, tasks, a), ScreenSum(ctx, tasks, b))
    ensures ScreenSum(ctx, tasks, a + b) == ScreenSum(ctx, tasks, b + a)
  {
    PickAppend(tasks, a, b);
    PickAppend(tasks, b, a);
    SumOfAppend(ScreenLoop, ctx, Pick(tasks, a), Pick(tasks, b));
    SumOfAppend(ScreenLoop, ctx, Pick(tasks, b), Pick(tasks, a));
    PlusMonoid(ScreenSum(ctx, tasks, a), ScreenSum(ctx, tasks, b), Zero());
  }

  /** A permutation of an id list summarises the same. */
  lemma ScreenSumPermutation(ctx: Context, tasks: map<string, Task>, a: seq<string>, b: seq<string>)
    requires forall id :: id in a ==> id in tasks
    requires forall id :: id in b ==> id in tasks
    requires multiset(a) == multiset(b)
    ensures ScreenSum(ctx, tasks, a) == ScreenSum(ctx, tasks, b)
  {
    PickPermutation(tasks, a, b);
    SumOfPermutation(ScreenLoop, ctx, Pick(tasks, a), Pick(tasks, b));
  }

  /** `summary.count > 0 ? summary.sumEstimate / summary.count : 0`, the
      average in a summary row. */
  function AverageEstimate(s: Summary): (r: real)
    ensures s.count > 0 ==> r * (s.count as real) == s.sumEstimate
    ensures s.count == 0 ==> r == 0.0
  {
    if s.count > 0 then s.sumEstimate / (s.count as real) else 0.0
  }

  // ---------------------------------------------------------------------
  // handleAddTask

  /** The ADD_TASK_WITH_PHASE_GROUP action the "Add New Task" button sends:
      the phase and group of the last task in the order, or "default" and
      "default" when the order is empty. */
  function HandleAddTask(s: Tasks.TasksState): Tasks.Action
    requires s.order != [] ==> s.order[|s.order| - 1] in s.records
  {
    if |s.order| > 0 then
      var lastTask := s.records[s.order[|s.order| - 1]];
      Tasks.AddTask(lastTask.phaseId.value, if lastTask.groupId.Some? then lastTask.groupId.value.value else Undef)
    else Tasks.AddTask(Str("default"), Str("default"))
  }

  /** The task the button adds goes last and takes its phase and group from
      the task that was last, or "default"/"default" when there was none. */
  lemma HandleAddTaskSpec(s: Tasks.TasksState)
    requires Tasks.Valid(s)
    ensures s.order != [] ==> s.order[|s.order| - 1] in s.records
    ensures var r := Tasks.Step(s, HandleAddTask(s));
            var id := NatToString(s.next);
            && r.order == s.order + [id]
            && (s.order == [] ==>
                  r.records[id].phaseId.value == Str("default") && r.records[id].groupId.value.value == Str("default"))
            && (s.order != [] ==>
                  var lastTask := s.records[s.order[|s.order| - 1]];
                  && r.records[id].phaseId.value == lastTask.phaseId.value
                  && r.records[id].groupId.value.value
                     == if lastTask.groupId.Some? then lastTask.groupId.value.value else Undef)
  {
    if s.order != [] {
      assert s.order[|s.order| - 1] in s.order;
    }
    var a := HandleAddTask(s);
    Tasks.AddTaskSpec(s, a.phaseId, a.groupId);
  }

  // ---------------------------------------------------------------------
  // Bucketing

  /** `task.phaseId.value`, as a property key. */
  function PhaseKey(tasks: map<string, Task>): string -> Key {
    id => if id in tasks then KeyOf(tasks[id].phaseId.value) else Name("undefined")
  }

  /** `task.groupId?.value || "No Group"` */
  function GroupValue(t: Task): Val {
    Or(if t.groupId.Some? then t.groupId.value.value else Undef, Str("No Group"))
  }

  /** The group bucket key of a task. */
  function GroupKey(tasks: map<string, Task>): string -> Key {
    id => if id in tasks then KeyOf(GroupValue(tasks[id])) else Name("No Group")
  }

  /** `phasesMap` of the phase-only view, filled by `push`. */
  method PhaseBuckets(order: seq<string>, tasks: map<string, Task>) returns (phasesMap: map<Key, seq<string>>)
    requires forall id :: id in order ==> id in tasks
    ensures phasesMap == GroupByKey(order, PhaseKey(tasks))
  {
    phasesMap := map[];
    var i := 0;
    while i < |order|
      invariant 0 <= i <= |order|
      invariant phasesMap == GroupByKey(order[..i], PhaseKey(tasks))
    {
      var id := order[i];
      var p := KeyOf(tasks[id].phaseId.value);
      assert order[..i + 1][..i] == order[..i];
      phasesMap := phasesMap[p := (if p in phasesMap then phasesMap[p] else []) + [id]];
      i := i + 1;
    }
    assert order[..i] == order;
  }

  /** `groupsMap` of the group-only view, filled by `push`. */
  method GroupBuckets(order: seq<string>, tasks: map<string, Task>) returns (groupsMap: map<Key, seq<string>>)
    requires forall id :: id in order ==> id in tasks
    ensures groupsMap == GroupByKey(order, GroupKey(tasks))
  {
    groupsMap := map[];
    var i := 0;
    while i < |order|
      invariant 0 <= i <= |order|
      invariant groupsMap == GroupByKey(order[..i], GroupKey(tasks))
    {
      var id := order[i];
      var task := tasks[id];
      var g := KeyOf(Or(if task.groupId.Some? then task.groupId.value.value else Undef, Str("No Group")));
      assert order[..i + 1][..i] == order[..i];
      groupsMap := groupsMap[g := (if g in groupsMap then groupsMap[g] else []) + [id]];
      i := i + 1;
    }
    assert order[..i] == order;
  }

  /** The sections a view draws: `sectionIds.map(id => buckets[id] ? ... :
      null)` without the nulls. The phase views take `phasesOrder`, the
      group views `[...groupsOrder, "No Group"]`. */
  function Shown<V>(sectionIds: seq<string>, buckets: map<Key, V>): (r: seq<string>)
    ensures |r| <= |sectionIds|
    ensures forall id :: id in r <==> id in sectionIds && Name(id) in buckets
  {
    if sectionIds == [] then []
    else
      var rest := Shown(sectionIds[..|sectionIds| - 1], buckets);
      var last := sectionIds[|sectionIds| - 1];
      rest + if Name(last) in buckets then [last] else []
  }

  /** `[...groupsOrder, "No Group"]` */
  function GroupSectionIds(groupsOrder: seq<string>): seq<string> {
    groupsOrder + ["No Group"]
  }

  /** A task appears in a view exactly when its bucket key names one of the
      view's section ids: a task whose phase is not in `phasesOrder`, or
      whose group is neither in `groupsOrder` nor missing, is not drawn. */
  lemma ShownTasks(order: seq<string>, key: string -> Key, sectionIds: seq<string>, id: string)
    ensures (exists s :: s in Shown(sectionIds, GroupByKey(order, key)) && id in GroupByKey(order, key)[Name(s)])
            <==> id in order && exists s :: s in sectionIds && key(id) == Name(s)
  {
    var m := GroupByKey(order, key);
    if id in order && exists s :: s in sectionIds && key(id) == Name(s) {
      var s :| s in sectionIds && key(id) == Name(s);
      GroupByKeyIsFilter(order, key);
      assert id in FilterKey(order, key, Name(s));
      GroupByKeyPlacesEachOnce(order, key, id, Name(s));
    }
    if exists s :: s in Shown(sectionIds, m) && id in m[Name(s)] {
      var s :| s in Shown(sectionIds, m) && id in m[Name(s)];
      GroupByKeyPlacesEachOnce(order, key, id, Name(s));
    }
  }

  /** `nested` of the phase-and-group view: `nested[phaseId][groupId]`. */
  function Nested(order: seq<string>, tasks: map<string, Task>): map<Key, map<Key, seq<string>>> {
    if order == [] then map[]
    else
      var m := Nested(order[..|order| - 1], tasks);
      var id := order[|order| - 1];
      var p := PhaseKey(tasks)(id);
      var g := GroupKey(tasks)(id);
      var inner := if p in m then m[p] else map[];
      m[p := inner[g := (if g in inner then inner[g] else []) + [id]]]
  }

  method NestedBuckets(order: seq<string>, tasks: map<string, Task>)
    returns (nested: map<Key, map<Key, seq<string>>>)
    requires forall id :: id in order ==> id in tasks
    ensures nested == Nested(order, tasks)
  {
    nested := map[];
    var i := 0;
    while i < |order|
      invariant 0 <= i <= |order|
      invariant nested == Nested(order[..i], tasks)
    {
      var id := order[i];
      var task := tasks[id];
      var phaseId := KeyOf(task.phaseId.value);
      var groupId := KeyOf(Or(if task.groupId.Some? then task.groupId.value.value else Undef, Str("No Group")));
      var inner := if phaseId in nested then nested[phaseId] else map[];
      inner := inner[groupId := (if groupId in inner then inner[groupId] else []) + [id]];
      nested := nested[phaseId := inner];
      NestedStep(order, tasks, i);
      i := i + 1;
    }
    assert order[..i] == order;
  }

  /** One more round of the loop. */
  lemma NestedStep(order: seq<string>, tasks: map<string, Task>, i: nat)
    requires i < |order|
    ensures var m := Nested(order[..i], tasks);
            var id := order[i];
            var p := PhaseKey(tasks)(id);
            var g := GroupKey(tasks)(id);
            var inner := if p in m then m[p] else map[];
            Nested(order[..i + 1], tasks) == m[p := inner[g := (if g in inner then inner[g] else []) + [id]]]
  {
    var s := order[..i + 1];
    assert s[..|s| - 1] == order[..i] && s[|s| - 1] == order[i];
  }

  /** The phases of the nested view are the phase buckets, and inside a
      phase the group buckets of that phase's ids: every id is in exactly
      one bucket, the one of its phase and group, and every bucket keeps
      the order of `tasksOrder`. */
  lemma {:induction false} NestedIsBuckets(order: seq<string>, tasks: map<string, Task>, p: Key)
    ensures p in Nested(order, tasks) <==> FilterKey(order, PhaseKey(tasks), p) != []
    ensures p in Nested(order, tasks) ==>
              Nested(order, tasks)[p] == GroupByKey(FilterKey(order, PhaseKey(tasks), p), GroupKey(tasks))
  {
    if order != [] {
      NestedIsBuckets(order[..|order| - 1], tasks, p);
      if PhaseKey(tasks)(order[|order| - 1]) == p {
        NestedLastSamePhase(order, tasks, p);
      } else {
        NestedLastOtherPhase(order, tasks, p);
      }
    }
  }

  /** The last id leaves the buckets of the other phases alone. */
  lemma NestedLastOtherPhase(order: seq<string>, tasks: map<string, Task>, p: Key)
    requires order != [] && PhaseKey(tasks)(order[|order| - 1]) != p
    ensures var front := order[..|order| - 1];
            && FilterKey(order, PhaseKey(tasks), p) == FilterKey(front, PhaseKey(tasks), p)
            && (p in Nested(order, tasks) <==> p in Nested(front, tasks))
            && (p in Nested(front, tasks) ==> Nested(order, tasks)[p] == Nested(front, tasks)[p])
  {
  }

  /** The last id joins the group bucket of its own phase. */
  lemma NestedLastSamePhase(order: seq<string>, tasks: map<string, Task>, p: Key)
    requires order != [] && PhaseKey(tasks)(order[|order| - 1]) == p
    requires var front := order[..|order| - 1];
             && (p in Nested(front, tasks) <==> FilterKey(front, PhaseKey(tasks), p) != [])
             && (p in Nested(front, tasks) ==>
                   Nested(front, tasks)[p] == GroupByKey(FilterKey(front, PhaseKey(tasks), p), GroupKey(tasks)))
    ensures p in Nested(order, tasks)
    ensures Nested(order, tasks)[p] == GroupByKey(FilterKey(order, PhaseKey(tasks), p), GroupKey(tasks))
  {
    var front := order[..|order| - 1];
    var id := order[|order| - 1];
    var f := FilterKey(front, PhaseKey(tasks), p);
    assert FilterKey(order, PhaseKey(tasks), p) == f + [id];
    GroupByKeySnoc(f, id, GroupKey(tasks));
  }

  /** Each id of the order sits in the one bucket of its phase and group. */
  lemma NestedPlacesEachOnce(order: seq<string>, tasks: map<string, Task>, p: Key, g: Key, id: string)
    requires p in Nested(order, tasks) && g in Nested(order, tasks)[p]
    ensures id in Nested(order, tasks)[p][g] <==> id in order && PhaseKey(tasks)(id) == p && GroupKey(tasks)(id) == g
    ensures Nested(order, tasks)[p][g] == FilterKey(FilterKey(order, PhaseKey(tasks), p), GroupKey(tasks), g)
  {
    NestedIsBuckets(order, tasks, p);
    var f := FilterKey(order, PhaseKey(tasks), p);
    GroupByKeyIsFilter(f, GroupKey(tasks));
    GroupByKeyPlacesEachOnce(f, GroupKey(tasks), id, g);
  }

  /** `Object.values(phaseGroups).flat()`, with `ks` the enumeration of the
      group keys, summarised: the phase summary of the nested view. */
  function NestedPhaseSummary(ctx: Context, tasks: map<string, Task>, order: seq<string>, phaseId: string,
                              ks: seq<Key>): Option<Summary>
    requires forall id :: id in order ==> id in tasks
    requires Name(phaseId) in Nested(order, tasks) ==> Lists(ks, Nested(order, tasks)[Name(phaseId)].Keys)
  {
    var nested := Nested(order, tasks);
    if Name(phaseId) !in nested then None
    else
      var phaseGroups := nested[Name(phaseId)];
      var all := Flatten(phaseGroups, ks);
      assert forall id :: id in all ==> id in tasks by {
        NestedFlattenIsPhase(order, tasks, Name(phaseId), ks);
      }
      Some(ScreenSum(ctx, tasks, all))
  }

  /** The flattened buckets of a phase are a permutation of the phase's
      ids. */
  lemma NestedFlattenIsPhase(order: seq<string>, tasks: map<string, Task>, p: Key, ks: seq<Key>)
    requires p in Nested(order, tasks) && Lists(ks, Nested(order, tasks)[p].Keys)
    ensures multiset(Flatten(Nested(order, tasks)[p], ks)) == multiset(FilterKey(order, PhaseKey(tasks), p))
    ensures forall id :: id in Flatten(Nested(order, tasks)[p], ks) ==> id in order
  {
    NestedIsBuckets(order, tasks, p);
    var f := FilterKey(order, PhaseKey(tasks), p);
    FlattenGroupsIsPermutation(f, GroupKey(tasks), ks);
    forall id | id in Flatten(Nested(order, tasks)[p], ks) ensures id in order {
      assert id in multiset(f);
    }
  }

  /** The phase summary of the nested view covers every task of the phase,
      those in groups outside `groupsOrder` and those without a group
      included, whatever the enumeration of its buckets: it is the screen
      summary of the phase's ids, and it is the sum of the summaries of all
      its buckets. A phase without tasks gets no section. */
  lemma NestedPhaseSummarySpec(ctx: Context, tasks: map<string, Task>, order: seq<string>, phaseId: string,
                               ks: seq<Key>)
    requires forall id :: id in order ==> id in tasks
    requires Name(phaseId) in Nested(order, tasks) ==> Lists(ks, Nested(order, tasks)[Name(phaseId)].Keys)
    ensures var r := NestedPhaseSummary(ctx, tasks, order, phaseId, ks);
            var phaseIds := FilterKey(order, PhaseKey(tasks), Name(phaseId));
            && (r.None? <==> phaseIds == [])
            && (r.Some? ==> r.value == ScreenSum(ctx, tasks, phaseIds))
  {
    var p := Name(phaseId);
    NestedIsBuckets(order, tasks, p);
    if p in Nested(order, tasks) {
      var m := Nested(order, tasks)[p];
      NestedFlattenIsPhase(order, tasks, p, ks);
      ScreenSumPermutation(ctx, tasks, Flatten(m, ks), FilterKey(order, PhaseKey(tasks), p));
    }
  }

  /** The phase summary is also the sum of the summaries of the phase's
      group buckets. */
  lemma NestedPhaseSummaryIsBucketTotals(ctx: Context, tasks: map<string, Task>, order: seq<string>, p: Key,
                                         ks: seq<Key>)
    requires forall id :: id in order ==> id in tasks
    requires p in Nested(order, tasks) && Lists(ks, Nested(order, tasks)[p].Keys)
    ensures forall k :: k in ks ==> k in Nested(order, tasks)[p] && forall id :: id in Nested(order, tasks)[p][k] ==> id in tasks
    ensures forall id :: id in Flatten(Nested(order, tasks)[p], ks) ==> id in tasks
    ensures ScreenSum(ctx, tasks, Flatten(Nested(order, tasks)[p], ks))
            == BucketTotals(ctx, tasks, Nested(order, tasks)[p], ks)
  {
    var m := Nested(order, tasks)[p];
    forall k | k in ks ensures forall id :: id in m[k] ==> id in tasks {
      forall id | id in m[k] ensures id in tasks {
        NestedPlacesEachOnce(order, tasks, p, k, id);
      }
    }
    FlattenTotals(ctx, tasks, m, ks);
  }

  /** The summaries of the buckets `ks` of `m`, added up. */
  function BucketTotals(ctx: Context, tasks: map<string, Task>, m: map<Key, seq<string>>, ks: seq<Key>): Summary
    requires forall k :: k in ks ==> k in m && forall id :: id in m[k] ==> id in tasks
  {
    if ks == [] then Zero() else Plus(ScreenSum(ctx, tasks, m[ks[0]]), BucketTotals(ctx, tasks, m, ks[1..]))
  }

  lemma {:induction false} FlattenTotals(ctx: Context, tasks: map<string, Task>, m: map<Key, seq<string>>, ks: seq<Key>)
    requires forall k :: k in ks ==> k in m && forall id :: id in m[k] ==> id in tasks
    ensures forall id :: id in Flatten(m, ks) ==> id in tasks
    ensures ScreenSum(ctx, tasks, Flatten(m, ks)) == BucketTotals(ctx, tasks, m, ks)
  {
    if ks != [] {
      FlattenTotals(ctx, tasks, m, ks[1..]);
      ScreenSumAdditive(ctx, tasks, m[ks[0]], Flatten(m, ks[1..]));
    }
  }

  // ---------------------------------------------------------------------
  // Where the screen and the export summaries agree and differ

  /** On tasks that all have a non-empty `groupId` and three inputs that
      parse, the export loop and the screen loop give the same summary. */
  lemma {:induction false} LoopsAgree(ctx: Context, ts: seq<Task>)
    requires forall t :: t in ts ==> t.groupId.Some? && Truthy(t.groupId.value.value) && Estimate(t).Some?
    ensures SummaryCalculator.Calc(ts, ctx) == Ok(SumOf(ScreenLoop, ctx, ts))
  {
    if ts != [] {
      var front := ts[..|ts| - 1];
      var t := ts[|ts| - 1];
      assert forall u :: u in front ==> u in ts;
      LoopsAgree(ctx, front);
      TermsAgree(ctx, t);
    }
  }

  lemma TermsAgree(ctx: Context, t: Task)
    requires t.groupId.Some? && Truthy(t.groupId.value.value) && Estimate(t).Some?
    ensures Term(ExportLoop, t, ctx) == Term(ScreenLoop, t, ctx)
  {
  }

  /** A task without a `groupId` makes the export throw, while the screen
      skips it. */
  lemma NoGroupThrowsOnlyInExport(ctx: Context, t: Task)
    requires t.groupId.None?
    ensures SummaryCalculator.Calc([t], ctx).TypeError?
    ensures SumOf(ScreenLoop, ctx, [t]) == Zero()
  {
    assert t in [t];
    SumOfSingle(ScreenLoop, ctx, t);
  }

  /** A task whose group was cleared to "" is counted by the export but not
      by the screen. */
  lemma EmptyGroupCountedOnlyInExport(ctx: Context, t: Task)
    requires t.groupId.Some? && t.groupId.value.value == Str("") && !Ignored(t, ctx)
    ensures SummaryCalculator.Calc([t], ctx).Ok? && SummaryCalculator.Calc([t], ctx).value.count == 1
    ensures SumOf(ScreenLoop, ctx, [t]).count == 0
  {
    SumOfSingle(ScreenLoop, ctx, t);
    CalcSingle(ctx, t);
  }

  /** A counted task with a blank input: both loops add 0 for it to the
      estimate sum, but the screen's cost becomes NaN (it does not coerce)
      while the export's cost stays a number when the rate is one. */
  lemma BlankInputCost(ctx: Context, t: Task)
    requires t.groupId.Some? && Truthy(t.groupId.value.value) && !Ignored(t, ctx)
    requires t.bestCase.value == Str("")
    requires EffectiveCost(t, ctx.groups, ctx.phases, ctx.globalCost).Some?
    ensures SumOf(ScreenLoop, ctx, [t]).sumCost.None?
    ensures SummaryCalculator.Calc([t], ctx).Ok? && SummaryCalculator.Calc([t], ctx).value.sumCost.Some?
    ensures SummaryCalculator.Calc([t], ctx).value.sumEstimate == SumOf(ScreenLoop, ctx, [t]).sumEstimate
  {
    BlankIsNaN();
    var screen := Term(ScreenLoop, t, ctx);
    var exported := Term(ExportLoop, t, ctx);
    assert screen.sumCost == None by {
      ScreenTermCounted(t, ctx);
    }
    assert exported.sumCost.Some? && exported.sumEstimate == screen.sumEstimate by {
      SummaryCalculator.ExportTermCounted(t, ctx);
      ScreenTermCounted(t, ctx);
    }
    SumOfSingle(ScreenLoop, ctx, t);
    CalcSingle(ctx, t);
  }

  /** `parseFloat("")` is NaN. */
  lemma BlankIsNaN()
    ensures ParseNumber(Str("")) == None
  {
    assert TrimStart("") == "";
    assert DigitRun("") == 0;
  }

  /** The fold over one task: that task's contribution, added to zero. */
  lemma SumOfSingle(loop: Loop, ctx: Context, t: Task)
    ensures SumOf(loop, ctx, [t]) == Plus(Zero(), Term(loop, t, ctx))
    ensures !Counted(loop, t, ctx) ==> SumOf(loop, ctx, [t]) == Zero()
  {
    var s := [t];
    assert s[..|s| - 1] == [];
    assert SumOf(loop, ctx, s) == Plus(SumOf(loop, ctx, []), Term(loop, t, ctx));
    PlusMonoid(Term(loop, t, ctx), Zero(), Zero());
  }

  lemma CalcSingle(ctx: Context, t: Task)
    requires t.groupId.Some?
    ensures SummaryCalculator.Calc([t], ctx) == Ok(Plus(Zero(), Term(ExportLoop, t, ctx)))
  {
    var s := [t];
    assert s[..|s| - 1] == [];
    assert SummaryCalculator.Calc([], ctx) == Ok(Zero());
  }
}
