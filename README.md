# three-point-est in Dafny

three-point-est is a browser tool for three-point (PERT) project estimation.
Every task carries a best, most-likely and worst case. The tool turns these
into an estimate `(best + 4·likely + worst) / 6`, prices it at an hourly rate,
and sums the results per phase, per group and for the whole project. Rates
fall back from the task to its group, then its phase, then a global cost.
The state lives in a Redux store of four slices:

- tasks, groups and phases, each a dictionary of records plus a display
  order and an id counter;
- the configuration.

This project models, in Dafny:

- the per-task arithmetic of `src/tasks/templates.js`, including the
  `parseFloat` it relies on;
- the three copies of the summary loop: the exporters' in
  `src/exporters/summaryCalculator.js`, the screen's in
  `src/common/AppContainer.js` and the statistics cards' in
  `src/tasks/TaskStats.js`;
- the bucketing of the task list by phase and by group that the screen
  draws, the add-task button and the averages shown;
- the 13-column export table of `src/exporters/buildExportData.js`;
- the four reducers and the combined store.

The model proves:

- what each of these computes;
- where the three loops agree and where they differ;
- that the reducers keep their invariants.

Modules, one per file:

| file | module | models |
|---|---|---|
| js_values.dfy | JsValues | values, truthiness, property keys, `toString` on counters, `parseFloat` |
| templates.dfy | Templates | task record, input types, template, estimate, rate, cost |
| order_list.dfy | OrderList | the id orders: `indexOf`, `filter`, swap, `splice` |
| slices.dfy | Slices | the dictionary + order + counter shape shared by the three record slices |
| collections.dfy | Collections | `filter` by key and the bucket dictionaries built with `push` |
| tasks.dfy, groups.dfy, phases.dfy, configuration.dfy | Tasks, Groups, Phases, Configuration | the reducers |
| store.dfy | Store | the combined reducer |
| summaries.dfy | Summaries | the summary record, each loop's per-task term, the fold and its order independence |
| summary_calculator.dfy | SummaryCalculator | the export summaries |
| app_container.dfy | AppContainer | the screen summary, bucketing, add-task, average |
| task_stats.dfy | TaskStats | the statistics cards |
| export_data.dfy | ExportData | the export table |

Conventions:

- **Numbers** are exact `real`s.
- **NaN** is `None`. A sum or product with NaN is NaN (`Summaries.Add`,
  `Templates.Times`).
- **Property values** that may hold anything (inputs typed as text, the
  template's numbers, `undefined`) are a `Val`.
- **A missing `groupId` in the summaries and the export** gives
  `Result.TypeError`, because reading `task.groupId.value` throws there.
  This happens on a task whose `groupId` an edit of its phase set to
  `undefined`. It is not excluded by a precondition. Ids without a task
  are a different matter: the two task actions and the screen code require
  the id to have a task (see "## Left out").
- **The order of `Object.values`** is an explicit enumeration `keys` of the
  dictionary. Lemmas show that no result depends on it.
- **The `forEach` loops** are methods with a `while` loop over the same
  accumulators. Their callback is a method of its own, and each method is
  proved equal to a fold function.
- **The copy-and-swap of the MOVE actions and the `splice` of
  DUPLICATE_TASK** work on arrays.

## Model

| member | source | states |
|---|---|---|
| JsValues.Or | src/exporters/buildExportData.js:41-44 | `a \|\| b` is `a` when `a` is truthy and `b` otherwise |
| JsValues.Lookup | src/exporters/summaryCalculator.js:23-24 | `obj[v]` finds a record exactly when the key `v` converts to is in the dictionary, and then it is that record |
| JsValues.KeyOf | src/common/AppContainer.js:145-149 | a string value is its own bucket key; every value but a number has a string key |
| JsValues.NatToString | src/tasks/reducer.js:16 | `nextID.toString()` is a non-empty string of decimal digits |
| JsValues.NatToStringRoundTrip | src/tasks/reducer.js:16 | reading the digits of `nextID.toString()` back gives `nextID` |
| JsValues.NatToStringInjective | src/tasks/reducer.js:16 | distinct counters give distinct task ids |
| JsValues.PrefixedInjective | src/groups/reducer.js:30 | distinct counters give distinct "group-N" and "phase-N" ids |
| JsValues.ParseFloatOfNat | src/tasks/templates.js:74-76 | `parseFloat` of a counter's string form gives the counter back |
| JsValues.UnsignedDecimalOfDigits | src/tasks/templates.js:74-76 | `parseFloat` reads a run of digits as the integer it spells |
| Templates.ValidationMessage | src/tasks/reducer.js:58-60 | the stored message is "" exactly when the field has no known type or the value matches the type's pattern (`/^.+$/`, `/^[0-9.]*$/`), else that type's error message |
| Templates.NumberInputParses | src/tasks/templates.js:26-29 | a value that passes NUMBER validation never parses negative, and is NaN exactly when it is empty or a dot not followed by a digit |
| Templates.Pert | src/tasks/templates.js:73-77 | six times the estimate is best + 4·likely + worst, and the estimate lies between the least and the greatest input |
| Templates.Estimate | src/tasks/templates.js:73-77 | `calculateEstimate` is a number exactly when all three inputs parse, and then it is the weighted mean of the parsed inputs |
| Templates.PertOfEqualInputs | src/tasks/templates.js:73-77 | three equal inputs give that input back |
| Templates.EstimateExample | src/common/AppContainer.test.js:31-43 | inputs "10", "15", "20" give the estimate 15 |
| Templates.TypedIntegerParses | src/tasks/templates.js:74-76 | digits typed into a field parse as the integer they spell |
| Templates.TemplateEstimate | src/tasks/templates.js:38-48 | a new task is named "Task " + id, lies in group and phase "default", estimates to 0 and costs 0 at any numeric rate |
| Templates.TaskOverrideWins | src/tasks/templates.js:89-91 | a non-empty task override decides the rate whatever the groups, phases and global cost |
| Templates.GroupOverrideWins | src/tasks/templates.js:92-95 | without a task override, a group found by the task's `groupId` with a non-empty override decides, whatever the phases and global cost |
| Templates.GroupPhaseIgnored | src/tasks/templates.js:92-96 | the rate never reads a group's own `phaseId`: groups that agree on ids and overrides give the same rate |
| Templates.PhaseThenGlobal | src/tasks/templates.js:96-100 | failing those, the phase named by the task's own `phaseId` decides, and else the global cost; a task without group and with an unknown phase gets the global cost |
| Templates.Times | src/tasks/templates.js:115 | the product is a number exactly when both factors are, and is then their product |
| Templates.TotalIsEstimateTimesRate | src/tasks/templates.js:112-116 | the task cost is a number exactly when estimate and rate are, and is then estimate × rate |
| OrderList.IndexOf | src/tasks/reducer.js:68 | `indexOf` is -1 exactly when the id is absent, and otherwise the first position holding it |
| OrderList.Without | src/tasks/reducer.js:38 | the filtered order holds exactly the other ids, is no longer, keeps an order without the id unchanged, and keeps it free of duplicates |
| OrderList.WithoutAppend | src/tasks/reducer.js:38 | `filter` works entry by entry: filtering a concatenation filters each part |
| OrderList.WithoutKeepsOrder | src/tasks/reducer.js:38 | the ids that stay keep their relative order |
| OrderList.Swapped | src/tasks/reducer.js:71-74 | the swap exchanges the two neighbours, keeps every other slot, and is a permutation |
| OrderList.MovedUp | src/tasks/reducer.js:67-76 | MOVE_*_UP changes nothing for the first or an absent id, and otherwise exchanges the id with the one before it; the result is a permutation |
| OrderList.MovedDown | src/tasks/reducer.js:78-87 | MOVE_*_DOWN changes nothing for the last or an absent id, and otherwise exchanges the id with the one after it; the result is a permutation |
| OrderList.InsertAt | src/tasks/reducer.js:97-99 | `splice(k, 0, x)` puts `x` at `k`, keeps the entries before `k` and shifts the rest one slot right |
| OrderList.InsertKeepsLists | src/tasks/reducer.js:96-99 | splicing a fresh id into an order that lists the keys lists the keys plus that id |
| OrderList.MoveUp | src/tasks/reducer.js:68-75 | the array copy-and-swap computes MovedUp |
| OrderList.MoveDown | src/tasks/reducer.js:79-86 | the array copy-and-swap computes MovedDown |
| OrderList.Splice | src/tasks/reducer.js:98-99 | the in-place splice of a copied array computes InsertAt |
| OrderList.ListsSameMultiset | src/exporters/summaryCalculator.js:60 | two enumerations of the same keys are permutations of each other |
| OrderList.ListsCardinality | src/exporters/buildExportData.js:27 | an enumeration of the keys has one entry per key |
| Slices.AppendOrdered | src/tasks/reducer.js:22-30 | adding under a fresh id keeps the order a listing of the keys, puts the id last and keeps the other records |
| Slices.RemoveOrdered | src/tasks/reducer.js:33-39 | removing an id keeps the order a listing of the remaining keys |
| Slices.MoveOrdered | src/tasks/reducer.js:67-87 | the moves keep the order a listing of the keys |
| Slices.AppendFresh | src/groups/reducer.js:29-47 | the id the counter hands out is free, and the counter stays ahead of every id in use |
| Collections.FilterKey | src/exporters/summaryCalculator.js:82 | `filter` keeps exactly the elements with that key |
| Collections.GroupByKeyIsFilter | src/common/AppContainer.js:202-207 | the dictionary built with `push` has a bucket exactly for the keys that occur, and each bucket is the `filter` of the list by its key, in list order |
| Collections.GroupByKeyPlacesEachOnce | src/common/AppContainer.js:236-241 | each element sits in the bucket of its own key and in no other |
| Collections.FlattenGroupsIsPermutation | src/common/AppContainer.js:155 | `Object.values(buckets).flat()`, in any enumeration of the bucket keys, is a permutation of the list |
| Tasks.Reduce | src/tasks/reducer.js:12-114 | the reducer, with the array swap and splice, computes the reducer function `Step` |
| Tasks.SpliceAfter | src/tasks/reducer.js:97-99 | the splice puts the copy's id right after the original's position |
| Tasks.DuplicateInPlace | src/tasks/reducer.js:89-106 | DUPLICATE_TASK as written computes the duplicate state |
| Tasks.InitialValid | src/tasks/reducer.js:4-10 | the initial slice (task "1", `nextID` 2) satisfies the invariant |
| Tasks.StepPreservesValid | src/tasks/reducer.js:12-106 | every action but LOAD_STATE keeps the order a duplicate-free listing of the keys and every id a number below `nextID` |
| Tasks.CounterIdFresh | src/tasks/reducer.js:16 | under the invariant the string form of `nextID` is not yet an id |
| Tasks.AddTaskSpec | src/tasks/reducer.js:14-31 | ADD_TASK_WITH_PHASE_GROUP stores under a fresh id the whole template, only its phase and group values replaced by the given ones; it appends the id, bumps the counter and keeps the other tasks |
| Tasks.RemoveTaskSpec | src/tasks/reducer.js:33-40 | REMOVE_TASK drops the id from the dictionary and filters it out of the order, whose other ids keep their relative order; the rest is kept, and an absent id changes nothing |
| Tasks.EditTaskSpec | src/tasks/reducer.js:45-65 | EDIT_TASK_VALUE stores the value even when invalid, keeps the type, sets the message from the type's pattern, clears `groupId` when the phase is edited, and changes no other field or task |
| Tasks.MoveTaskUpSpec | src/tasks/reducer.js:67-76 | MOVE_TASK_UP keeps every task and the counter, permutes the order, keeps the invariant, and moves an id that is not first one place up |
| Tasks.MoveTaskDownSpec | src/tasks/reducer.js:78-87 | MOVE_TASK_DOWN likewise moves an id that is not last one place down |
| Tasks.DuplicateSpec | src/tasks/reducer.js:89-95 | DUPLICATE_TASK stores under a fresh id a copy that differs only in the values of its id and its name, "Copy of " + the name (types and messages copied), keeps the other tasks and bumps the counter |
| Tasks.DuplicateOrderSpec | src/tasks/reducer.js:96-99 | the copy's id goes right after the original, and every other id keeps its place relative to the others |
| Tasks.OrderAfterCopyListed | src/tasks/reducer.js:97-99 | splicing after a present id leaves the entries up to it alone and shifts the rest by one |
| Tasks.DuplicateExample | src/common/AppContainer.test.js:68-73 | duplicating task "1" of a fresh store gives task "2", "Copy of Task 1", right after it |
| Tasks.ClearLoadOther | src/tasks/reducer.js:42-43 | CLEAR_ALL_TASKS returns the initial state, LOAD_STATE the loaded slice or the state, any other action the state |
| Groups.Merge | src/groups/reducer.js:55 | `{ ...g, ...updates }` takes each property from the updates when named there, else from the record |
| Groups.Reduce | src/groups/reducer.js:27-114 | the reducer, with the array swap, computes `Step` |
| Groups.InitialValid | src/groups/reducer.js:11-25 | the initial slice holds only "default", listed once, and satisfies the invariant |
| Groups.StepPreservesValid | src/groups/reducer.js:29-106 | ADD, REMOVE, MOVE, and EDIT or TOGGLE of an existing group keep the order a listing of the keys and the counter ahead of every "group-N" id |
| Groups.AddGroupSpec | src/groups/reducer.js:29-48 | ADD_GROUP stores the defaults under a fresh "group-N", appends it and bumps the counter; nothing else changes |
| Groups.EditGroupSpec | src/groups/reducer.js:50-57 | EDIT_GROUP changes exactly the named properties of that group; an unknown id gets a record no order lists |
| Groups.ToggleSpec | src/groups/reducer.js:68-78 | TOGGLE_GROUP_VISIBILITY changes only `visible` |
| Groups.RemoveGroupSpec | src/groups/reducer.js:59-66 | REMOVE_GROUP drops the id from the dictionary and filters it out of the order, keeping the other ids' relative order and the invariant; it removes "default" too |
| Groups.MoveGroupSpec | src/groups/reducer.js:80-106 | the moves keep the dictionary and the counter, permute the order and keep the invariant |
| Phases.Merge | src/phases/reducer.js:55 | `{ ...p, ...updates }` takes each property from the updates when named there, else from the record |
| Phases.Reduce | src/phases/reducer.js:29-93 | the reducer, with the array swap, computes `Step` |
| Phases.InitialValid | src/phases/reducer.js:14-27 | the initial slice holds only "default", listed once, and satisfies the invariant |
| Phases.StepPreservesValid | src/phases/reducer.js:31-87 | ADD, REMOVE, MOVE, and EDIT or TOGGLE of an existing phase keep the invariant |
| Phases.AddPhaseSpec | src/phases/reducer.js:31-49 | ADD_PHASE stores the defaults under a fresh "phase-N", appends it and bumps the counter |
| Phases.EditPhaseSpec | src/phases/reducer.js:50-57 | EDIT_PHASE changes exactly the named properties of that phase |
| Phases.ToggleSpec | src/phases/reducer.js:66-73 | TOGGLE_PHASE_VISIBILITY changes only `visible` |
| Phases.RemovePhaseSpec | src/phases/reducer.js:58-65 | REMOVE_PHASE drops the id, "default" included, filters it out of the order keeping the other ids' relative order, and keeps the invariant |
| Phases.MovePhaseSpec | src/phases/reducer.js:74-87 | the moves keep the dictionary and the counter and permute the order |
| Configuration.CostFromInput | src/common/Controls.js:69-70 | the cost dispatched is the parsed input, or 0 when it does not parse, never NaN |
| Configuration.SettersReplaceOneField | src/config/reducer.js:16-25 | each setter replaces its own field and keeps the other four |
| Configuration.LoadAndOther | src/config/reducer.js:26-29 | LOAD_STATE takes the loaded config when there is one; any other action changes nothing |
| Configuration.SettersIdempotent | src/config/reducer.js:20-21 | setting the cost it already has changes nothing; of two settings the second wins |
| Store.InitialValid | src/reducers.js:11-16 | the initial store satisfies every slice's invariant |
| Store.StepPreservesValid | src/reducers.js:11-16 | every action but LOAD_STATE keeps the whole store valid |
| Store.ActionsStayInTheirSlice | src/reducers.js:11-16 | an action of one slice (LOAD_STATE, which reaches every slice, is not one) leaves the other three alone, so removing a group or phase leaves its tasks' references dangling |
| Store.LoadReplacesPresentSlices | src/reducers.js:11-16 | LOAD_STATE replaces exactly the slices the loaded state has |
| Summaries.Add | src/exporters/summaryCalculator.js:47 | a sum is NaN exactly when a summand is |
| Summaries.PlusMonoid | src/exporters/summaryCalculator.js:43-48 | adding summaries field by field is associative and commutative, with the all-zero summary as unit |
| Summaries.Term | src/exporters/summaryCalculator.js:25-48 | a task skipped by the loop adds nothing; a counted one adds its 0-coerced inputs, their weighted mean and one to the count |
| Summaries.CountedTasks | src/exporters/summaryCalculator.js:25-30 | the tasks counted are exactly those the loop's tests let through |
| Summaries.SumOfCounted | src/exporters/summaryCalculator.js:25-30 | the summary is that of the counted tasks alone |
| Summaries.SumOfCount | src/exporters/summaryCalculator.js:48 | `count` is the number of counted tasks |
| Summaries.NothingCountedIsZero | src/exporters/summaryCalculator.js:15-20 | a list without counted tasks, the empty one included, gives all zeros |
| Summaries.SumOfAppend | src/common/AppContainer.js:38-61 | the summary of a concatenation is the sum of the parts' summaries |
| Summaries.SumOfPermutation | src/exporters/summaryCalculator.js:60 | a permutation of the list gives the same summary |
| Summaries.Pick | src/exporters/summaryCalculator.js:60 | `ids.map(id => tasks[id])` has one task per id, in order |
| Summaries.PickPermutation | src/exporters/summaryCalculator.js:60 | permuted ids pick permuted tasks |
| Summaries.ValuesSumIndependent | src/exporters/summaryCalculator.js:60 | a summary over `Object.values(tasks)` is the same in every enumeration order |
| SummaryCalculator.Calc | src/exporters/summaryCalculator.js:14-51 | `calcSummary` throws exactly when some task has no `groupId`, and otherwise is the fold of the export terms |
| SummaryCalculator.CalcSummary | src/exporters/summaryCalculator.js:14-51 | the `forEach` over six accumulators computes Calc |
| SummaryCalculator.ExportRound | src/exporters/summaryCalculator.js:22-48 | the callback throws without `groupId`, and otherwise adds the task's export term, with the rate worked out inline in the four steps of `calculateEffectiveCost` |
| SummaryCalculator.ExportTermCounted | src/exporters/summaryCalculator.js:31-48 | a counted task adds its coerced inputs, their estimate, estimate × rate and one |
| SummaryCalculator.CalcThrowsOn | src/exporters/summaryCalculator.js:23 | a task without `groupId` anywhere in the list makes the loop throw |
| SummaryCalculator.AverageRateOf | src/exporters/summaryCalculator.js:65-66 | the rate is "N/A" exactly when the estimate sum is not positive, and otherwise cost / estimate, so never a division by zero |
| SummaryCalculator.ValuesAreTheTasks | src/exporters/summaryCalculator.js:60 | the list holds exactly the store's tasks |
| SummaryCalculator.OverallSpec | src/exporters/summaryCalculator.js:59-68 | the overall summary is the same in every enumeration, covers every task whatever `tasksOrder` holds, throws exactly when a task has no `groupId`, counts the tasks not ignored, and has rate "N/A" exactly when the estimate sum is not positive |
| SummaryCalculator.EmptyOverall | src/exporters/summaryCalculator.js:59-68 | with no tasks the summary is all zeros and the rate "N/A" |
| SummaryCalculator.OfPhase | src/exporters/summaryCalculator.js:82 | the phase filter keeps exactly the tasks whose own `phaseId` is the id, each once and in list order (it is `FilterKey` on the phase value) |
| SummaryCalculator.OfGroup | src/exporters/summaryCalculator.js:107 | the group filter throws exactly when a task has no `groupId`, and otherwise keeps exactly the tasks of that group, each once and in list order (it is `FilterKey` on the group reference) |
| SummaryCalculator.PhaseSummariesSpec | src/exporters/summaryCalculator.js:76-93 | one entry per id of `phasesOrder`, in order, summing that phase's tasks, named after the phase or else the id, with its override or else ""; throws exactly when a task of a listed phase has no `groupId` |
| SummaryCalculator.GroupSummariesSpec | src/exporters/summaryCalculator.js:101-118 | one entry per id of `groupsOrder`, in order, summing that group's tasks, with the same fallbacks; throws exactly when the order is non-empty and some task has no `groupId` |
| AppContainer.CalcSummary | src/common/AppContainer.js:30-62 | the screen `calcSummary` over six accumulators computes the screen fold of the ids' tasks |
| AppContainer.ScreenRound | src/common/AppContainer.js:38-59 | the callback skips a task without a truthy `groupId` or with an ignored group or phase, and otherwise adds its screen term |
| AppContainer.ScreenTermCounted | src/common/AppContainer.js:49-58 | a counted task adds its coerced inputs, their estimate, `calculateTaskTotalCost` and one |
| AppContainer.ScreenSumAdditive | src/common/AppContainer.js:38-61 | the screen summary of a concatenation of id lists is the sum of the parts', in either order |
| AppContainer.ScreenSumPermutation | src/common/AppContainer.js:155-156 | a permutation of an id list summarises the same |
| AppContainer.AverageEstimate | src/common/AppContainer.js:90 | the average times the count is the estimate sum, and 0 when the count is 0 |
| AppContainer.HandleAddTaskSpec | src/common/AppContainer.js:129-137 | the task the button adds goes last with the phase and group of the last task, or "default"/"default" when there is none |
| AppContainer.PhaseBuckets | src/common/AppContainer.js:202-207 | the `push` loop builds the phase buckets of the order |
| AppContainer.GroupBuckets | src/common/AppContainer.js:236-241 | the `push` loop builds the group buckets, "No Group" for a missing or empty `groupId` |
| AppContainer.Shown | src/common/AppContainer.js:209-211 | a section is drawn exactly for the listed ids that have a bucket |
| AppContainer.ShownTasks | src/common/AppContainer.js:243-245 | a task is drawn exactly when its bucket key is one of the view's section ids |
| AppContainer.NestedBuckets | src/common/AppContainer.js:143-150 | the nested `push` loop builds `nested[phaseId][groupId]` |
| AppContainer.NestedIsBuckets | src/common/AppContainer.js:143-150 | a phase has an entry exactly when it has tasks, and the entry is the group buckets of that phase's tasks |
| AppContainer.NestedPlacesEachOnce | src/common/AppContainer.js:143-150 | each id sits in exactly the bucket of its phase and group, and each bucket keeps the order of `tasksOrder` |
| AppContainer.NestedFlattenIsPhase | src/common/AppContainer.js:155 | the flattened buckets of a phase are a permutation of the phase's ids |
| AppContainer.NestedPhaseSummarySpec | src/common/AppContainer.js:152-156 | a phase's summary covers all its tasks, those of groups with no section included, in any enumeration of its buckets; a phase without tasks gets none |
| AppContainer.NestedPhaseSummaryIsBucketTotals | src/common/AppContainer.js:155-173 | the phase summary is the sum of the summaries of all its buckets |
| AppContainer.FlattenTotals | src/common/AppContainer.js:155 | the summary of flattened buckets is the sum of the buckets' summaries |
| AppContainer.LoopsAgree | src/common/AppContainer.js:38-58 | on tasks with a non-empty `groupId` and parsing inputs, the export and screen loops give the same summary |
| AppContainer.TermsAgree | src/common/AppContainer.js:49-57 | for such a task the two loops add the same |
| AppContainer.NoGroupThrowsOnlyInExport | src/common/AppContainer.js:40 | a task without `groupId` makes the export throw while the screen skips it |
| AppContainer.EmptyGroupCountedOnlyInExport | src/common/AppContainer.js:40 | a task whose group was cleared to "" is counted by the export and not by the screen |
| AppContainer.BlankInputCost | src/common/AppContainer.js:55-57 | a blank input adds 0 to both estimate sums, but makes the screen cost NaN while the export cost stays a number |
| TaskStats.MapStateToProps | src/tasks/TaskStats.js:31-57 | the `forEach` over three accumulators computes the statistics fold |
| TaskStats.StatsRound | src/tasks/TaskStats.js:41-54 | the callback skips as the screen loop does, and otherwise adds one, `calculateEstimate` and `calculateTaskTotalCost` |
| TaskStats.AvgEstimate | src/tasks/TaskStats.js:14 | the average times the count is the estimate total, 0 without tasks, NaN when the total is |
| TaskStats.StatsIsScreenSummary | src/tasks/TaskStats.js:41-54 | the statistics are the screen summary's count and cost, and its estimate sum when every counted task's inputs parse, NaN otherwise |
| TaskStats.StatsAddMatches | src/tasks/TaskStats.js:51-53 | one round of each loop keeps the statistics and the screen summary in step |
| TaskStats.StatsIndependentOfKeys | src/tasks/TaskStats.js:32 | the statistics do not depend on the enumeration of the tasks |
| TaskStats.StatsMatchScreenSummary | src/tasks/TaskStats.js:31-57 | with a valid task slice, the cards agree with the screen summary over all of `tasksOrder` |
| TaskStats.ThreeTasksExample | src/common/AppContainer.test.js:64-65 | three tasks typed 10/15/20 in a fresh store give count 3, estimate 45, cost 2250 |
| ExportData.BuildExportData | src/exporters/buildExportData.js:11-25 | the header has the thirteen fixed titles |
| ExportData.BuildExportDataThrows | src/exporters/buildExportData.js:27-28 | the table throws exactly when some task has no `groupId` |
| ExportData.BuildExportDataRows | src/exporters/buildExportData.js:27-46 | one row per task of the store, in enumeration order, each cell as RowSpec says |
| ExportData.RowSpec | src/exporters/buildExportData.js:28-45 | a row has 13 cells: the inputs and override copied, `calculateEstimate`, `calculateEffectiveCost`, and group and phase names and descriptions with their fallbacks to the raw id and "" |
| ExportData.RowsIndependentOfKeys | src/exporters/buildExportData.js:27 | two enumerations give the same rows in another order, and throw together |
| ExportData.RowsOf | src/exporters/buildExportData.js:27 | `map` gives one row per task, in order |
| ExportData.RowsPermutation | src/exporters/buildExportData.js:27 | mapping permuted tasks gives permuted rows |

## Left out

- Rendering: the JSX of `AppContainer`, `TaskStats` and `SummaryRow`, the
  no-grouping view, and the language `useEffect`. The model keeps the
  computations the views draw: which sections and tasks are shown, and their
  summaries.
- `i18n.t` on the export header and on labels: header titles are kept
  untranslated.
- `toFixed(2)`: amounts, averages and rates are kept as exact numbers, not
  rounded strings.
- IEEE-754 arithmetic: sums and products are exact. The literal "Infinity"
  is not read by `parseFloat` and is NaN (`None`), like a failed parse. A
  literal too large for a double (such as "1e400") keeps its exact value
  where JavaScript gives `Infinity`.
- Numeric property keys: `groups[x]` with a number `x` never finds a record.
  The `nested`, `phasesMap` and `groupsMap` buckets keep numeric keys apart
  from string keys. Such values reach a task only through a loaded state.
- `getTaskRowFields` (placeholders and input sizes) is UI text.
- EDIT_TASK_VALUE, EDIT_GROUP and EDIT_PHASE with a property name outside
  the record's own properties: the extra property is not kept.
- DUPLICATE_TASK's `JSON.parse(JSON.stringify(...))` copy is a value copy.
  It drops nothing the task record can hold.
- LOAD_STATE takes a loaded slice as it is, without checking it. The
  invariants are therefore proved for every action except LOAD_STATE.
- The "Clear All" button's confirmation dialog. CLEAR_ALL_TASKS itself is
  modelled.
- `Object.values` enumeration order is a parameter. JavaScript's own order
  (integer-like keys first) is not modelled; the results do not depend on it.
- Tasks.Step: EDIT_TASK_VALUE and DUPLICATE_TASK on an id without a task
  throw in the reducer (reading a property of `undefined`, and
  `JSON.parse(undefined)`). `Tasks.Defined` excludes these two cases by a
  precondition instead of modelling the throw. The buttons dispatch them
  only for listed tasks. `Tasks.Reduce` and `Store.Step` carry the same
  precondition.
- Store.Step: a LOAD_STATE sent to one slice alone is not an action. Every
  LOAD_STATE reaches all four reducers, so only the store's own `LoadState`
  is modelled.
- The groups and phases reducers are two modules of the same shape,
  following the two source files. They differ in the id prefix, the record
  properties and the group's `phaseId`.
- AppContainer.ScreenSum, AppContainer.CalcSummary, AppContainer.PhaseBuckets,
  AppContainer.GroupBuckets, AppContainer.NestedBuckets and
  AppContainer.HandleAddTask require every id they read to have a task.
  This is what `Tasks.Valid` guarantees for `tasksOrder`. For an order id
  without a task the screen code throws a TypeError (`tasks[tid].groupId`,
  `task.phaseId.value`, `lastTask.phaseId.value`). Such an order can only
  come from an unchecked LOAD_STATE, and that throw is not modelled.
- JsValues.Lookup: property lookup finds own records only. A plain object
  also answers names inherited from `Object.prototype`. A loaded task whose
  `groupId` is "constructor" finds the `Object` function in JavaScript, so
  its rate becomes NaN. In the model it finds no group and falls through to
  the phase or global rate. Such ids arrive only through LOAD_STATE.
