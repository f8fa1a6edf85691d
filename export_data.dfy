/** buildExportData.js: the table the exporters write, a fixed header of
    thirteen columns and one row per task of the store. Like the export
    summaries, it reads `task.groupId.value` unguarded and throws on a task
    without a `groupId`. */
module ExportData {
  import opened JsValues
  import opened OrderList
  import opened Templates
  import opened Summaries
  import opened Store
  import Groups
  import Phases

  /** A table cell: a property value copied as it is, or a number the
      exporter formats with two decimals (None stands for NaN). */
  datatype Cell = Text(v: Val) | Amount(x: Option<real>)

  datatype Table = Table(header: seq<string>, rows: seq<seq<Cell>>)

  /** The thirteen column titles, untranslated. */
  const Header: seq<string> :=
    ["ID", "Task Name", "Task Desc", "Best Case", "Most Likely", "Worst Case", "Estimate",
     "Rate Override", "Hourly Rate", "Group", "Group Desc", "Phase", "Phase Desc"]

  /** `(obj && obj.name) || fallback` */
  function NameOr(name: Option<Val>, fallback: Val): Val {
    Or(if name.Some? then name.value else Undef, fallback)
  }

  /** The row of one task, or the TypeError of `task.groupId.value`. */
  function Row(t: Task, groups: map<string, Groups.Group>, phases: map<string, Phases.Phase>,
               globalCost: real): Result<seq<Cell>>
  {
    if t.groupId.None? then TypeError
    else
      var groupObj := Lookup(groups, t.groupId.value.value);
      var phaseObj := Lookup(phases, t.phaseId.value);
      Ok([Text(Str(t.id.value)), Text(Str(t.taskName.value)), Text(Str(t.taskDesc.value)),
          Text(t.bestCase.value), Text(t.mostLikely.value), Text(t.worstCase.value),
          Amount(Estimate(t)), Text(t.costOverride.value),
          Amount(EffectiveCost(t, groups, phases, globalCost)),
          Text(NameOr(if groupObj.Some? then Some(groupObj.value.name) else None, t.groupId.value.value)),
          Text(NameOr(if groupObj.Some? then Some(groupObj.value.description) else None, Str(""))),
          Text(NameOr(if phaseObj.Some? then Some(phaseObj.value.name) else None, t.phaseId.value)),
          Text(NameOr(if phaseObj.Some? then Some(phaseObj.value.description) else None, Str("")))])
  }

  /** `buildExportData(state)`: the header, and `Object.values(tasks).map`
      over the rows, the tasks enumerated in the order `keys`. */
  function BuildExportData(state: AppState, keys: seq<string>): (r: Result<Table>)
    requires Lists(keys, state.tasks.records.Keys)
    ensures r.Ok? ==> r.value.header == Header && |r.value.header| == 13
  {
    var ts := Pick(state.tasks.records, keys);
    if exists t :: t in ts && t.groupId.None? then TypeError
    else Ok(Table(Header, RowsOf(ContextOf(state), ts)))
  }

  /** The table throws exactly when some task has no `groupId`. */
  lemma BuildExportDataThrows(state: AppState, keys: seq<string>)
    requires Lists(keys, state.tasks.records.Keys)
    ensures BuildExportData(state, keys).TypeError?
            <==> exists id :: id in state.tasks.records && state.tasks.records[id].groupId.None?
  {
    var tasks := state.tasks.records;
    var ts := Pick(tasks, keys);
    if exists id :: id in tasks && tasks[id].groupId.None? {
      var id :| id in tasks && tasks[id].groupId.None?;
      var i :| 0 <= i < |keys| && keys[i] == id;
      assert ts[i] in ts;
    } else {
      forall t | t in ts ensures t.groupId.Some? {
        var i :| 0 <= i < |ts| && ts[i] == t;
        assert keys[i] in tasks;
      }
    }
  }

  /** Otherwise the table has one row per task, in the enumeration order,
      each of thirteen cells aligned with the header: the inputs copied,
      the estimate, the task's own override, the effective rate, and the
      names and descriptions of the group and the phase, falling back to the
      raw reference and to "". */
  lemma BuildExportDataRows(state: AppState, keys: seq<string>)
    requires Lists(keys, state.tasks.records.Keys)
    ensures var r := BuildExportData(state, keys);
            r.Ok? ==>
              && |r.value.rows| == |keys| == |state.tasks.records|
              && forall i :: 0 <= i < |keys| ==> RowOf(ContextOf(state), state.tasks.records[keys[i]], r.value.rows[i])
  {
    var tasks := state.tasks.records;
    ListsCardinality(keys, tasks.Keys);
    assert |tasks.Keys| == |tasks|;
    var r := BuildExportData(state, keys);
    if r.Ok? {
      var ts := Pick(tasks, keys);
      forall i | 0 <= i < |keys| ensures RowOf(ContextOf(state), tasks[keys[i]], r.value.rows[i]) {
        assert ts[i] == tasks[keys[i]] && ts[i] in ts;
        RowSpec(tasks[keys[i]], ContextOf(state), r.value.rows[i]);
      }
    }
  }

  /** What the row of task `t` holds, column by column. */
  predicate RowOf(ctx: Context, t: Task, row: seq<Cell>) {
    && t.groupId.Some?
    && |row| == |Header|
    // "ID", "Task Name", "Task Desc": the task's own text fields
    && row[0] == Text(Str(t.id.value)) && row[1] == Text(Str(t.taskName.value))
    && row[2] == Text(Str(t.taskDesc.value))
    // "Best Case", "Most Likely", "Worst Case": the inputs as typed
    && row[3] == Text(t.bestCase.value)
    && row[4] == Text(t.mostLikely.value) && row[5] == Text(t.worstCase.value)
    // "Estimate": the PERT estimate; "Rate Override": the task's own override
    && row[6] == Amount(Estimate(t)) && row[7] == Text(t.costOverride.value)
    // "Hourly Rate": the rate after the task, group, phase and global fallbacks
    && row[8] == Amount(EffectiveCost(t, ctx.groups, ctx.phases, ctx.globalCost))
    // "Group", "Group Desc", "Phase", "Phase Desc"
    && GroupColumns(t, ctx.groups, row[9], row[10])
    && PhaseColumns(t, ctx.phases, row[11], row[12])
  }

  /** The group name, when the group exists and its name is truthy, else the
      raw `groupId`; the group description, else "". */
  predicate GroupColumns(t: Task, groups: map<string, Groups.Group>, name: Cell, description: Cell)
    requires t.groupId.Some?
  {
    var g := Lookup(groups, t.groupId.value.value);
    && (name == if g.Some? && Truthy(g.value.name) then Text(g.value.name) else Text(t.groupId.value.value))
    && (description == if g.Some? && Truthy(g.value.description) then Text(g.value.description) else Text(Str("")))
  }

  /** The same fallbacks for the phase, found by the task's `phaseId`. */
  predicate PhaseColumns(t: Task, phases: map<string, Phases.Phase>, name: Cell, description: Cell) {
    var p := Lookup(phases, t.phaseId.value);
    && (name == if p.Some? && Truthy(p.value.name) then Text(p.value.name) else Text(t.phaseId.value))
    && (description == if p.Some? && Truthy(p.value.description) then Text(p.value.description) else Text(Str("")))
  }

  lemma RowSpec(t: Task, ctx: Context, row: seq<Cell>)
    requires Row(t, ctx.groups, ctx.phases, ctx.globalCost) == Ok(row)
    ensures RowOf(ctx, t, row)
  {
  }

  /** Two enumerations of the tasks give the same rows, in another order. */
  lemma RowsIndependentOfKeys(state: AppState, keys1: seq<string>, keys2: seq<string>)
    requires Lists(keys1, state.tasks.records.Keys) && Lists(keys2, state.tasks.records.Keys)
    ensures BuildExportData(state, keys1).Ok? <==> BuildExportData(state, keys2).Ok?
    ensures BuildExportData(state, keys1).Ok? ==>
              multiset(BuildExportData(state, keys1).value.rows) == multiset(BuildExportData(state, keys2).value.rows)
  {
    BuildExportDataThrows(state, keys1);
    BuildExportDataThrows(state, keys2);
    if BuildExportData(state, keys1).Ok? {
      var ctx := ContextOf(state);
      var tasks := state.tasks.records;
      ValuesPermutation(tasks, keys1, keys2);
      RowsPermutation(ctx, Pick(tasks, keys1), Pick(tasks, keys2));
    }
  }

  /** `ts.map(row)`, for tasks that all have a `groupId`. */
  function RowsOf(ctx: Context, ts: seq<Task>): (r: seq<seq<Cell>>)
    requires forall t :: t in ts ==> t.groupId.Some?
    ensures |r| == |ts|
    ensures forall i :: 0 <= i < |ts| ==> r[i] == Row(ts[i], ctx.groups, ctx.phases, ctx.globalCost).value
  {
    seq(|ts|, i requires 0 <= i < |ts| => Row(ts[i], ctx.groups, ctx.phases, ctx.globalCost).value)
  }

  lemma RowsOfAppend(ctx: Context, a: seq<Task>, b: seq<Task>)
    requires forall t :: t in a + b ==> t.groupId.Some?
    ensures RowsOf(ctx, a + b) == RowsOf(ctx, a) + RowsOf(ctx, b)
  {
  }

  /** Mapping two permutations gives two permutations. */
  lemma {:induction false} RowsPermutation(ctx: Context, a: seq<Task>, b: seq<Task>)
    requires forall t :: t in a ==> t.groupId.Some?
    requires forall t :: t in b ==> t.groupId.Some?
    requires multiset(a) == multiset(b)
    ensures multiset(RowsOf(ctx, a)) == multiset(RowsOf(ctx, b))
    decreases |a|
  {
    if a == [] {
      assert |b| == |multiset(b)| == 0;
    } else {
      var p := a[..|a| - 1];
      var x := a[|a| - 1];
      assert a == p + [x];
      assert x in multiset(b);
      var i :| 0 <= i < |b| && b[i] == x;
      RemoveMatching(a, b, i);
      var left, right := b[..i], b[i + 1..];
      assert a == p + [x] + [];
      RowsSplit(ctx, p, p, x, []);
      RowsSplit(ctx, left + right, left, x, right);
      RowsPermutation(ctx, p, left + right);
    }
  }

  /** Taking a task out of the middle of a list takes its row out of the
      rows. */
  lemma RowsSplit(ctx: Context, ts: seq<Task>, left: seq<Task>, x: Task, right: seq<Task>)
    requires ts == left + right
    requires forall t :: t in left + [x] + right ==> t.groupId.Some?
    ensures forall t :: t in ts ==> t.groupId.Some?
    ensures multiset(RowsOf(ctx, left + [x] + right)) == multiset(RowsOf(ctx, ts)) + multiset(RowsOf(ctx, [x]))
  {
    assert x in left + [x] + right;
    RowsOfAppend(ctx, left + [x], right);
    RowsOfAppend(ctx, left, [x]);
    RowsOfAppend(ctx, left, right);
  }
}
