/** The config slice of the store: project name, language, the global
    hourly cost and the two grouping switches, with its reducer. */
module Configuration {
  import opened JsValues

  datatype Config = Config(projectName: string, language: string, globalCost: real,
                           showGroups: bool, showPhases: bool)

  /** The defaults the reducer starts from. */
  function Default(): Config {
    Config("My Project", "en", 50.0, true, true)
  }

  datatype Action =
    | SetProjectName(projectName: string)
    | SetLanguage(language: string)
    /** Its only dispatcher passes `parseFloat(input) || 0`, so the cost is
        always a number. */
    | SetGlobalCost(cost: real)
    | ToggleGroups(show: bool)
    | TogglePhases(show: bool)
    /** `action.state.config || state` */
    | LoadState(loaded: Option<Config>)
    | Other

  function Step(c: Config, a: Action): Config {
    match a
    case SetProjectName(name) => c.(projectName := name)
    case SetLanguage(language) => c.(language := language)
    case SetGlobalCost(cost) => c.(globalCost := cost)
    case ToggleGroups(show) => c.(showGroups := show)
    case TogglePhases(show) => c.(showPhases := show)
    case LoadState(loaded) => loaded.GetOr(c)
    case Other => c
  }

  /** The number SET_GLOBAL_COST is dispatched with for what was typed into
      the cost input: the parsed number, or 0 when nothing parses. */
  function CostFromInput(text: string): (cost: real)
    ensures ParseFloat(text).Some? ==> cost == ParseFloat(text).value
    ensures ParseFloat(text).None? ==> cost == 0.0
  {
    Coerce(Str(text))
  }

  /** Each setter replaces its own field and keeps the other four. */
  lemma SettersReplaceOneField(c: Config, name: string, language: string, cost: real, show: bool)
    ensures var r := Step(c, SetProjectName(name));
            r.projectName == name && r.language == c.language && r.globalCost == c.globalCost
            && r.showGroups == c.showGroups && r.showPhases == c.showPhases
    ensures var r := Step(c, SetLanguage(language));
            r.projectName == c.projectName && r.language == language && r.globalCost == c.globalCost
            && r.showGroups == c.showGroups && r.showPhases == c.showPhases
    ensures var r := Step(c, SetGlobalCost(cost));
            r.projectName == c.projectName && r.language == c.language && r.globalCost == cost
            && r.showGroups == c.showGroups && r.showPhases == c.showPhases
    ensures var r := Step(c, ToggleGroups(show));
            r.projectName == c.projectName && r.language == c.language && r.globalCost == c.globalCost
            && r.showGroups == show && r.showPhases == c.showPhases
    ensures var r := Step(c, TogglePhases(show));
            r.projectName == c.projectName && r.language == c.language && r.globalCost == c.globalCost
            && r.showGroups == c.showGroups && r.showPhases == show
  {
  }

  /** Loading takes the loaded config when there is one; anything else
      leaves the config alone. */
  lemma LoadAndOther(c: Config, loaded: Config)
    ensures Step(c, LoadState(Some(loaded))) == loaded
    ensures Step(c, LoadState(None)) == c
    ensures Step(c, Other) == c
  {
  }

  /** Setting a field to the value it already holds changes nothing, and a
      setter applied twice keeps only the second value. */
  lemma SettersIdempotent(c: Config, cost1: real, cost2: real)
    ensures Step(c, SetGlobalCost(c.globalCost)) == c
    ensures Step(Step(c, SetGlobalCost(cost1)), SetGlobalCost(cost2)) == Step(c, SetGlobalCost(cost2))
  {
  }
}
