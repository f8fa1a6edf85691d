/** Per-task arithmetic: the field records of a task, the input types that
    validate edits, the new-task template, the three-point (PERT) estimate,
    the precedence of hourly rates and the cost of one task. */
module Templates {
  import opened JsValues
  import Groups
  import Phases

  /** A task field `{ value, type, validationMessage }`. The type is None on
      a field that EDIT_TASK_VALUE recreated after it had been cleared. */
  datatype Field<V> = Field(value: V, fieldType: Option<string>, validationMessage: string)

  /** A task. The text fields only ever receive strings; the numeric fields
      and the references to a group and a phase may hold any value (the
      template stores numbers, edits store strings, ADD_TASK without a phase
      and group stores `undefined`). `groupId` is None once an edit of the
      phase has set it to `undefined`. */
  datatype Task = Task(id: Field<string>, taskName: Field<string>, taskDesc: Field<string>,
                       bestCase: Field<Val>, mostLikely: Field<Val>, worstCase: Field<Val>,
                       costOverride: Field<Val>, groupId: Option<Field<Val>>, phaseId: Field<Val>)

  // ---------------------------------------------------------------------
  // Input types

  datatype InputType = STRING | NUMBER

  /** `inputTypes[type]` */
  function InputTypeNamed(name: Option<string>): Option<InputType> {
    match name
    case Some("STRING") => Some(STRING)
    case Some("NUMBER") => Some(NUMBER)
    case _ => None
  }

  /** The characters `.` in a regular expression does not match. */
  predicate IsLineTerminator(c: char) {
    c == '\n' || c == '\r' || c == '\U{2028}' || c == '\U{2029}'
  }

  /** `/^.+$/` for STRING and `/^[0-9.]*$/` for NUMBER. */
  predicate Validates(t: InputType, s: string) {
    match t
    case STRING => s != [] && forall i :: 0 <= i < |s| ==> !IsLineTerminator(s[i])
    case NUMBER => forall i :: 0 <= i < |s| ==> IsDigit(s[i]) || s[i] == '.'
  }

  function ErrorMessage(t: InputType): string {
    match t
    case STRING => "Field is expected to be not empty"
    case NUMBER => "Field is expected to be numeric (or empty for default)"
  }

  /** The validation message an edit stores: empty when the value matches
      the field's type or the field has no known type. */
  function ValidationMessage(fieldType: Option<string>, value: string): (m: string)
    ensures m == "" <==> InputTypeNamed(fieldType).None? || Validates(InputTypeNamed(fieldType).value, value)
    ensures m != "" ==> m == ErrorMessage(InputTypeNamed(fieldType).value)
  {
    match InputTypeNamed(fieldType)
    case None => ""
    case Some(t) => if Validates(t, value) then "" else ErrorMessage(t)
  }

  /** A string that passes NUMBER validation never parses to a negative
      number, and fails to parse exactly when it is empty or starts with a
      dot that no digit follows. */
  lemma NumberInputParses(s: string)
    requires Validates(NUMBER, s)
    ensures ParseFloat(s).None? <==> s == [] || (s[0] == '.' && (|s| == 1 || s[1] == '.'))
    ensures ParseFloat(s).Some? ==> ParseFloat(s).value >= 0.0
  {
    NumberInputUnsigned(s);
    UnsignedDecimalOfNumberInput(s);
  }

  lemma NumberInputUnsigned(s: string)
    requires Validates(NUMBER, s)
    ensures ParseFloat(s) == UnsignedDecimal(s)
  {
    if s != [] {
      assert !IsJsSpace(s[0]);
    }
    assert TrimStart(s) == s;
  }

  lemma UnsignedDecimalOfNumberInput(s: string)
    requires Validates(NUMBER, s)
    ensures UnsignedDecimal(s).None? <==> s == [] || (s[0] == '.' && (|s| == 1 || s[1] == '.'))
    ensures UnsignedDecimal(s).Some? ==> UnsignedDecimal(s).value >= 0.0
  {
    NumberInputNone(s);
    NumberInputNonNegative(s);
  }

  /** No literal: neither a digit before the dot nor one after it. */
  lemma NumberInputNone(s: string)
    requires Validates(NUMBER, s)
    ensures UnsignedDecimal(s).None? <==> s == [] || (s[0] == '.' && (|s| == 1 || s[1] == '.'))
  {
    if s != [] && DigitRun(s) == 0 {
      assert s[0] == '.';
      if |s| > 1 {
        var fraction := s[1..];
        assert fraction[0] == s[1];
        assert IsDigit(s[1]) || s[1] == '.';
      }
    }
  }

  /** Digits, a dot and digits make a non-negative number with no
      exponent. */
  lemma NumberInputNonNegative(s: string)
    requires Validates(NUMBER, s)
    ensures UnsignedDecimal(s).Some? ==> UnsignedDecimal(s).value >= 0.0
  {
    var i := DigitRun(s);
    DigitRunSpec(s);
    var fraction := if i < |s| then s[i + 1..] else [];
    var f := DigitRun(fraction);
    var rest := if i < |s| then fraction[f..] else s[i..];
    if rest != [] {
      assert rest[0] == s[i + 1 + f];
      assert IsDigit(rest[0]) || rest[0] == '.';
    }
    assert Exponent(rest) == 0;
  }

  // ---------------------------------------------------------------------
  // The template

  function NewField<V>(value: V, t: string): Field<V> {
    Field(value, Some(t), "")
  }

  /** `taskTemplate(id)` */
  function TaskTemplate(id: string): Task {
    Task(NewField(id, "STRING"), NewField("Task " + id, "STRING"), NewField("", "STRING"),
         NewField(Num(0.0), "NUMBER"), NewField(Num(0.0), "NUMBER"), NewField(Num(0.0), "NUMBER"),
         NewField(Str(""), "NUMBER"), Some(NewField(Str("default"), "STRING")),
         NewField(Str("default"), "STRING"))
  }

  // ---------------------------------------------------------------------
  // Estimate and cost

  /** The weighted mean with weights 1, 4, 1. */
  function Pert(best: real, likely: real, worst: real): (r: real)
    ensures 6.0 * r == best + 4.0 * likely + worst
    ensures Min3(best, likely, worst) <= r <= Max3(best, likely, worst)
  {
    (best + likely * 4.0 + worst) / 6.0
  }

  function Min3(a: real, b: real, c: real): real {
    if a <= b && a <= c then a else if b <= c then b else c
  }

  function Max3(a: real, b: real, c: real): real {
    if a >= b && a >= c then a else if b >= c then b else c
  }

  /** `calculateEstimate(task)`: None (NaN) as soon as one of the three
      inputs does not parse. */
  function Estimate(t: Task): (r: Option<real>)
    ensures r.Some? <==> ParseNumber(t.bestCase.value).Some? && ParseNumber(t.mostLikely.value).Some?
                         && ParseNumber(t.worstCase.value).Some?
    ensures r.Some? ==> r.value == Pert(ParseNumber(t.bestCase.value).value,
                                        ParseNumber(t.mostLikely.value).value,
                                        ParseNumber(t.worstCase.value).value)
  {
    match (ParseNumber(t.bestCase.value), ParseNumber(t.mostLikely.value), ParseNumber(t.worstCase.value))
    case (Some(b), Some(l), Some(w)) => Some(Pert(b, l, w))
    case _ => None
  }

  /** `task.groupId && groups[task.groupId.value]` */
  function GroupOf(t: Task, groups: map<string, Groups.Group>): Option<Groups.Group> {
    match t.groupId
    case None => None
    case Some(f) => Lookup(groups, f.value)
  }

  /** `calculateEffectiveCost`: the task's own override, else the override
      of its group, else that of its own phase, else the global cost. An
      override that does not parse gives None (NaN). */
  function EffectiveCost(t: Task, groups: map<string, Groups.Group>, phases: map<string, Phases.Phase>,
                         globalCost: real): Option<real>
  {
    var group := GroupOf(t, groups);
    var phase := Lookup(phases, t.phaseId.value);
    if t.costOverride.value != Str("") then ParseNumber(t.costOverride.value)
    else if group.Some? && group.value.costOverride != Str("") then ParseNumber(group.value.costOverride)
    else if phase.Some? && phase.value.costOverride != Str("") then ParseNumber(phase.value.costOverride)
    else Some(globalCost)
  }

  /** NaN-propagating product. */
  function Times(a: Option<real>, b: Option<real>): (r: Option<real>)
    ensures r.Some? <==> a.Some? && b.Some?
    ensures r.Some? ==> r.value == a.value * b.value
  {
    if a.Some? && b.Some? then Some(a.value * b.value) else None
  }

  /** `calculateTaskTotalCost` */
  function TaskTotalCost(t: Task, groups: map<string, Groups.Group>, phases: map<string, Phases.Phase>,
                         globalCost: real): Option<real>
  {
    Times(Estimate(t), EffectiveCost(t, groups, phases, globalCost))
  }

  // ---------------------------------------------------------------------
  // Properties

  /** Three equal inputs give that input back. */
  lemma PertOfEqualInputs(x: real)
    ensures Pert(x, x, x) == x
  {
  }

  /** A task with best 10, most likely 15 and worst 20 typed in is
      estimated at 15. */
  lemma EstimateExample(t: Task)
    requires t.bestCase.value == Str("10") && t.mostLikely.value == Str("15") && t.worstCase.value == Str("20")
    ensures Estimate(t) == Some(15.0)
  {
    var ten, fifteen, twenty: nat := 10, 15, 20;
    assert NatToString(10) == "10" && NatToString(15) == "15" && NatToString(20) == "20";
    TypedIntegerParses(t.bestCase.value, ten);
    TypedIntegerParses(t.mostLikely.value, fifteen);
    TypedIntegerParses(t.worstCase.value, twenty);
    assert Pert(10.0, 15.0, 20.0) == 15.0;
  }

  /** The digits of a counter typed into a field read back as that number. */
  lemma TypedIntegerParses(v: Val, n: nat)
    requires v == Str(NatToString(n))
    ensures ParseNumber(v) == Some(n as real)
  {
    ParseFloatOfNat(n);
  }

  /** A new task estimates to 0, and costs 0 whenever its rate is a number. */
  lemma TemplateEstimate(id: string, groups: map<string, Groups.Group>, phases: map<string, Phases.Phase>,
                         globalCost: real)
    ensures Estimate(TaskTemplate(id)) == Some(0.0)
    ensures EffectiveCost(TaskTemplate(id), groups, phases, globalCost).Some? ==>
              TaskTotalCost(TaskTemplate(id), groups, phases, globalCost) == Some(0.0)
    ensures TaskTemplate(id).taskName.value == "Task " + id && TaskTemplate(id).id.value == id
    ensures TaskTemplate(id).groupId == Some(Field(Str("default"), Some("STRING"), ""))
    ensures TaskTemplate(id).phaseId.value == Str("default")
  {
  }

  /** A non-empty task override wins whatever the groups, the phases and
      the global cost hold. */
  lemma TaskOverrideWins(t: Task, groups1: map<string, Groups.Group>, phases1: map<string, Phases.Phase>,
                         cost1: real, groups2: map<string, Groups.Group>, phases2: map<string, Phases.Phase>,
                         cost2: real)
    requires t.costOverride.value != Str("")
    ensures EffectiveCost(t, groups1, phases1, cost1) == EffectiveCost(t, groups2, phases2, cost2)
                                                    == ParseNumber(t.costOverride.value)
  {
  }

  /** Without a task override, a group found through the task's `groupId`
      with a non-empty override decides the rate, whatever the phases and
      the global cost hold. */
  lemma GroupOverrideWins(t: Task, groups: map<string, Groups.Group>, phases1: map<string, Phases.Phase>,
                          cost1: real, phases2: map<string, Phases.Phase>, cost2: real)
    requires t.costOverride.value == Str("")
    requires GroupOf(t, groups).Some? && GroupOf(t, groups).value.costOverride != Str("")
    ensures EffectiveCost(t, groups, phases1, cost1) == EffectiveCost(t, groups, phases2, cost2)
                                                   == ParseNumber(GroupOf(t, groups).value.costOverride)
  {
  }

  /** The rate never looks at a group's own `phaseId`: two group
      dictionaries that agree on which ids exist and on their overrides give
      the same rate. */
  lemma GroupPhaseIgnored(t: Task, groups1: map<string, Groups.Group>, groups2: map<string, Groups.Group>,
                          phases: map<string, Phases.Phase>, globalCost: real)
    requires groups1.Keys == groups2.Keys
    requires forall k :: k in groups1 ==> groups1[k].costOverride == groups2[k].costOverride
    ensures EffectiveCost(t, groups1, phases, globalCost) == EffectiveCost(t, groups2, phases, globalCost)
  {
    assert GroupOf(t, groups1).Some? <==> GroupOf(t, groups2).Some?;
  }

  /** Without a usable override on the task or its group, the phase that
      the task itself names decides, and failing that the global cost. */
  lemma PhaseThenGlobal(t: Task, groups: map<string, Groups.Group>, phases: map<string, Phases.Phase>,
                        globalCost: real)
    requires t.costOverride.value == Str("")
    requires GroupOf(t, groups).None? || GroupOf(t, groups).value.costOverride == Str("")
    ensures var phase := Lookup(phases, t.phaseId.value);
            EffectiveCost(t, groups, phases, globalCost)
            == if phase.Some? && phase.value.costOverride != Str("") then ParseNumber(phase.value.costOverride)
               else Some(globalCost)
    ensures t.groupId.None? && Lookup(phases, t.phaseId.value).None? ==>
              EffectiveCost(t, groups, phases, globalCost) == Some(globalCost)
  {
  }

  /** The total cost is the estimate times the rate, and a number exactly
      when both are. */
  lemma TotalIsEstimateTimesRate(t: Task, groups: map<string, Groups.Group>, phases: map<string, Phases.Phase>,
                                 globalCost: real)
    ensures TaskTotalCost(t, groups, phases, globalCost).Some?
            <==> Estimate(t).Some? && EffectiveCost(t, groups, phases, globalCost).Some?
    ensures TaskTotalCost(t, groups, phases, globalCost).Some? ==>
              TaskTotalCost(t, groups, phases, globalCost).value
              == Estimate(t).value * EffectiveCost(t, groups, phases, globalCost).value
  {
  }
}
