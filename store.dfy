/** The whole store: the four slices side by side, each with its own
    reducer. Every action reaches all four reducers; an action of one slice
    is an unknown action to the other three, except LOAD_STATE, which every
    slice answers. */
module Store {
  import opened JsValues
  import Tasks
  import Configuration
  import Groups
  import Phases
  import Summaries

  datatype AppState = AppState(tasks: Tasks.TasksState, config: Configuration.Config,
                               groups: Groups.GroupsState, phases: Phases.PhasesState)

  /** `action.state` of LOAD_STATE: each slice may be absent. */
  datatype Loaded = Loaded(tasks: Option<Tasks.TasksState>, config: Option<Configuration.Config>,
                           groups: Option<Groups.GroupsState>, phases: Option<Phases.PhasesState>)

  datatype Action =
    | TaskAction(task: Tasks.Action)
    | ConfigAction(config: Configuration.Action)
    | GroupAction(group: Groups.Action)
    | PhaseAction(phase: Phases.Action)
    | LoadState(loaded: Loaded)

  function Initial(): AppState {
    AppState(Tasks.Initial(), Configuration.Default(), Groups.Initial(), Phases.Initial())
  }

  /** What the summary loops read from the store besides the tasks. */
  function ContextOf(s: AppState): Summaries.Context {
    Summaries.Context(s.groups.records, s.phases.records, s.config.globalCost)
  }

  /** Task actions that name a task id need that task. LOAD_STATE is one
      action that every slice answers, so it is only ever the store's own
      LoadState, never one slice's. */
  predicate Defined(s: AppState, a: Action) {
    (a.TaskAction? ==> Tasks.Defined(s.tasks, a.task)) && !SliceLoad(a)
  }

  /** The combined reducer. */
  function Step(s: AppState, a: Action): AppState
    requires Defined(s, a)
  {
    match a
    case TaskAction(t) =>
      AppState(Tasks.Step(s.tasks, t), Configuration.Step(s.config, Configuration.Other),
               Groups.Step(s.groups, Groups.Other), Phases.Step(s.phases, Phases.Other))
    case ConfigAction(c) =>
      AppState(Tasks.Step(s.tasks, Tasks.Other), Configuration.Step(s.config, c),
               Groups.Step(s.groups, Groups.Other), Phases.Step(s.phases, Phases.Other))
    case GroupAction(g) =>
      AppState(Tasks.Step(s.tasks, Tasks.Other), Configuration.Step(s.config, Configuration.Other),
               Groups.Step(s.groups, g), Phases.Step(s.phases, Phases.Other))
    case PhaseAction(p) =>
      AppState(Tasks.Step(s.tasks, Tasks.Other), Configuration.Step(s.config, Configuration.Other),
               Groups.Step(s.groups, Groups.Other), Phases.Step(s.phases, p))
    case LoadState(l) =>
      AppState(Tasks.Step(s.tasks, Tasks.LoadState(l.tasks)),
               Configuration.Step(s.config, Configuration.LoadState(l.config)),
               Groups.Step(s.groups, Groups.LoadState(l.groups)),
               Phases.Step(s.phases, Phases.LoadState(l.phases)))
  }

  /** Every slice keeps its invariant. */
  ghost predicate Valid(s: AppState) {
    Tasks.Valid(s.tasks) && Groups.Valid(s.groups) && Phases.Valid(s.phases)
  }

  /** Edits and toggles of groups and phases name an existing record. */
  predicate Targets(s: AppState, a: Action) {
    (a.GroupAction? ==> Groups.Targets(s.groups, a.group))
    && (a.PhaseAction? ==> Phases.Targets(s.phases, a.phase))
  }

  /** A slice's own LOAD_STATE, dispatched to that slice alone. */
  predicate SliceLoad(a: Action) {
    match a
    case TaskAction(t) => t.LoadState?
    case ConfigAction(c) => c.LoadState?
    case GroupAction(g) => g.LoadState?
    case PhaseAction(p) => p.LoadState?
    case LoadState(_) => false
  }

  lemma InitialValid()
    ensures Valid(Initial())
  {
    Tasks.InitialValid();
    Groups.InitialValid();
    Phases.InitialValid();
  }

  /** Every action but LOAD_STATE keeps the whole store valid. */
  lemma StepPreservesValid(s: AppState, a: Action)
    requires Valid(s) && Defined(s, a) && Targets(s, a) && !a.LoadState?
    ensures Valid(Step(s, a))
  {
    match a
    case TaskAction(t) =>
      Tasks.StepPreservesValid(s.tasks, t);
    case ConfigAction(c) =>
    case GroupAction(g) =>
      Groups.StepPreservesValid(s.groups, g);
    case PhaseAction(p) =>
      Phases.StepPreservesValid(s.phases, p);
  }

  /** An action of one slice leaves the other three as they were: removing
      a group or a phase in particular leaves the tasks that name it alone,
      with their dangling reference. */
  lemma ActionsStayInTheirSlice(s: AppState, a: Action)
    requires Defined(s, a) && !a.LoadState?
    ensures !a.TaskAction? ==> Step(s, a).tasks == s.tasks
    ensures !a.ConfigAction? ==> Step(s, a).config == s.config
    ensures !a.GroupAction? ==> Step(s, a).groups == s.groups
    ensures !a.PhaseAction? ==> Step(s, a).phases == s.phases
  {
  }

  /** LOAD_STATE replaces the slices the loaded state has and keeps the
      others; a loaded task slice is taken as it is, valid or not. */
  lemma LoadReplacesPresentSlices(s: AppState, l: Loaded)
    ensures var r := Step(s, LoadState(l));
            && r.tasks == l.tasks.GetOr(s.tasks) && r.config == l.config.GetOr(s.config)
            && r.groups == l.groups.GetOr(s.groups) && r.phases == l.phases.GetOr(s.phases)
  {
  }
}
