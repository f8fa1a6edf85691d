/** The tasks slice of the store (`tasks`, `tasksOrder`, `nextID`) and its
    reducer. */
module Tasks {
  import opened JsValues
  import opened OrderList
  import opened Slices
  import opened Templates

  type TasksState = Slice<Task>

  /** The state the reducer starts from and CLEAR_ALL_TASKS returns to. */
  function Initial(): TasksState {
    Slice(map["1" := TaskTemplate("1")], ["1"], 2)
  }

  /** The properties of a task that EDIT_TASK_VALUE may name. */
  datatype FieldKey = Id | TaskName | TaskDesc | BestCase | MostLikely | WorstCase | CostOverride | GroupId | PhaseId

  datatype Action =
    /** ADD_TASK (phase and group `undefined`) and ADD_TASK_WITH_PHASE_GROUP. */
    | AddTask(phaseId: Val, groupId: Val)
    | RemoveTask(id: string)
    | ClearAllTasks
    | EditTaskValue(id: string, key: FieldKey, value: string)
    | MoveTaskUp(id: string)
    | MoveTaskDown(id: string)
    | DuplicateTask(id: string)
    /** `action.state.tasks || state` */
    | LoadState(loaded: Option<TasksState>)
    | Other

  /** EDIT_TASK_VALUE reads `state.tasks[id][key]` and DUPLICATE_TASK copies
      `state.tasks[id]`; both throw for an id without a task. */
  predicate Defined(s: TasksState, a: Action) {
    (a.EditTaskValue? ==> a.id in s.records) && (a.DuplicateTask? ==> a.id in s.records)
  }

  /** `{ ...currentValue, value, validationMessage }`: a field that did not
      exist comes back without a type, and so always validates. */
  function EditField<V>(current: Option<Field<V>>, value: V, text: string): Field<V> {
    match current
    case None => Field(value, None, "")
    case Some(f) => Field(value, f.fieldType, ValidationMessage(f.fieldType, text))
  }

  /** The task after EDIT_TASK_VALUE; editing the phase also clears the
      group. */
  function EditTask(t: Task, key: FieldKey, value: string): Task {
    match key
    case Id => t.(id := EditField(Some(t.id), value, value))
    case TaskName => t.(taskName := EditField(Some(t.taskName), value, value))
    case TaskDesc => t.(taskDesc := EditField(Some(t.taskDesc), value, value))
    case BestCase => t.(bestCase := EditField(Some(t.bestCase), Str(value), value))
    case MostLikely => t.(mostLikely := EditField(Some(t.mostLikely), Str(value), value))
    case WorstCase => t.(worstCase := EditField(Some(t.worstCase), Str(value), value))
    case CostOverride => t.(costOverride := EditField(Some(t.costOverride), Str(value), value))
    case GroupId => t.(groupId := Some(EditField(t.groupId, Str(value), value)))
    case PhaseId => t.(groupId := None, phaseId := EditField(Some(t.phaseId), Str(value), value))
  }

  /** The deep copy DUPLICATE_TASK makes: a new id and "Copy of " before the
      name. */
  function Copy(original: Task, newId: string): Task {
    original.(id := original.id.(value := newId),
              taskName := original.taskName.(value := "Copy of " + original.taskName.value))
  }

  /** DUPLICATE_TASK: the copy goes under the string form of the counter,
      right after the original in the order. */
  function Duplicate(s: TasksState, id: string): TasksState
    requires id in s.records
  {
    Slice(WithCopy(s, id), OrderAfterCopy(s.order, id, NatToString(s.next)), s.next + 1)
  }

  /** The order with `newId` spliced in right after `id` (at the front when
      `id` is not in the order). */
  function OrderAfterCopy(order: seq<string>, id: string, newId: string): seq<string> {
    InsertAt(order, IndexOf(order, id) + 1, newId)
  }

  /** `{ ...state.tasks, [newId]: newTask }` */
  function WithCopy(s: TasksState, id: string): map<string, Task>
    requires id in s.records
  {
    var newId := NatToString(s.next);
    s.records[newId := Copy(s.records[id], newId)]
  }

  function Step(s: TasksState, a: Action): TasksState
    requires Defined(s, a)
  {
    match a
    case AddTask(phaseId, groupId) =>
      var id := NatToString(s.next);
      var t := TaskTemplate(id);
      Append(s, id, t.(phaseId := t.phaseId.(value := phaseId),
                       groupId := Some(t.groupId.value.(value := groupId))))
    case RemoveTask(id) => Remove(s, id)
    case ClearAllTasks => Initial()
    case EditTaskValue(id, key, value) => Put(s, id, EditTask(s.records[id], key, value))
    case MoveTaskUp(id) => s.(order := MovedUp(s.order, id))
    case MoveTaskDown(id) => s.(order := MovedDown(s.order, id))
    case DuplicateTask(id) => Duplicate(s, id)
    case LoadState(loaded) => loaded.GetOr(s)
    case Other => s
  }

  /** The reducer as it runs: the moves swap two slots of a copied array and
      DUPLICATE_TASK splices the new id into a copied array. */
  method Reduce(s: TasksState, a: Action) returns (r: TasksState)
    requires Defined(s, a)
    ensures r == Step(s, a)
  {
    match a
    case MoveTaskUp(id) =>
      var order := MoveUp(s.order, id);
      r := s.(order := order);
    case MoveTaskDown(id) =>
      var order := MoveDown(s.order, id);
      r := s.(order := order);
    case DuplicateTask(id) =>
      r := DuplicateInPlace(s, id);
    case _ =>
      r := Step(s, a);
  }

  /** `tasksOrder.indexOf(id)`, then the splice right after it (at the
      front when the id is not in the order). */
  method SpliceAfter(order: seq<string>, id: string, newId: string) returns (newOrder: seq<string>)
    ensures newOrder == OrderAfterCopy(order, id, newId)
  {
    var index := IndexOf(order, id);
    newOrder := Splice(order, index + 1, newId);
  }

  method DuplicateInPlace(s: TasksState, id: string) returns (r: TasksState)
    requires id in s.records
    ensures r == Duplicate(s, id)
  {
    var newId := NatToString(s.next);
    var order := SpliceAfter(s.order, id, newId);
    r := Slice(WithCopy(s, id), order, s.next + 1);
  }

  /** Every id is a decimal number below the counter. */
  ghost predicate IdsBelowCounter(s: TasksState) {
    forall k :: k in s.records ==> k != [] && AllDigits(k) && DigitsValue(k) < s.next
  }

  /** The order lists every task once, and every id is a decimal number
      below `nextID`. */
  ghost predicate Valid(s: TasksState) {
    Ordered(s) && IdsBelowCounter(s)
  }

  /** A counter's string form is not yet an id, and every id stays below
      the counter once it moves on. */
  lemma CounterIdFresh(s: TasksState)
    requires IdsBelowCounter(s)
    ensures NatToString(s.next) !in s.records
    ensures forall k :: k in s.records ==> DigitsValue(k) < s.next + 1
  {
    NatToStringRoundTrip(s.next);
  }

  lemma NewIdBelowCounter(s: TasksState, t: Task)
    requires IdsBelowCounter(s)
    ensures IdsBelowCounter(Append(s, NatToString(s.next), t))
  {
    NatToStringRoundTrip(s.next);
  }

  lemma InitialValid()
    ensures Valid(Initial())
  {
    assert "1" == NatToString(1);
    NatToStringRoundTrip(1);
  }

  /** Every action but LOAD_STATE keeps the slice valid. */
  lemma StepPreservesValid(s: TasksState, a: Action)
    requires Valid(s) && Defined(s, a) && !a.LoadState?
    ensures Valid(Step(s, a))
  {
    match a
    case AddTask(phaseId, groupId) =>
      AddValid(s, a);
    case RemoveTask(id) =>
      RemoveValid(s, id);
    case ClearAllTasks =>
      InitialValid();
    case EditTaskValue(id, key, value) =>
      EditValid(s, id, key, value);
    case MoveTaskUp(id) =>
      MoveValid(s, id);
    case MoveTaskDown(id) =>
      MoveValid(s, id);
    case DuplicateTask(id) =>
      assert Step(s, a) == Duplicate(s, id);
      DuplicateValid(s, id);
    case Other =>
  }

  lemma RemoveValid(s: TasksState, id: string)
    requires Valid(s)
    ensures Valid(Step(s, RemoveTask(id)))
  {
    assert Step(s, RemoveTask(id)) == Remove(s, id);
    RemoveOrdered(s, id);
  }

  lemma MoveValid(s: TasksState, id: string)
    requires Valid(s)
    ensures Valid(Step(s, MoveTaskUp(id))) && Valid(Step(s, MoveTaskDown(id)))
  {
    assert Step(s, MoveTaskUp(id)) == s.(order := MovedUp(s.order, id));
    assert Step(s, MoveTaskDown(id)) == s.(order := MovedDown(s.order, id));
    MoveOrdered(s, id);
  }

  lemma EditValid(s: TasksState, id: string, key: FieldKey, value: string)
    requires Valid(s) && id in s.records
    ensures Valid(Step(s, EditTaskValue(id, key, value)))
  {
    PutOrdered(s, id, EditTask(s.records[id], key, value));
  }

  lemma AddValid(s: TasksState, a: Action)
    requires Valid(s) && a.AddTask?
    ensures Valid(Step(s, a))
  {
    var r := Step(s, a);
    var id := NatToString(s.next);
    CounterIdFresh(s);
    AppendOrdered(s, id, r.records[id]);
    NewIdBelowCounter(s, r.records[id]);
  }

  lemma DuplicateValid(s: TasksState, id: string)
    requires Valid(s) && id in s.records
    ensures Valid(Duplicate(s, id))
  {
    DuplicateIdsBelow(s, id);
    DuplicateOrdered(s, id);
  }

  lemma DuplicateIdsBelow(s: TasksState, id: string)
    requires Valid(s) && id in s.records
    ensures IdsBelowCounter(Duplicate(s, id))
  {
    NewIdBelowCounter(s, Copy(s.records[id], NatToString(s.next)));
  }

  lemma DuplicateOrdered(s: TasksState, id: string)
    requires Valid(s) && id in s.records
    ensures Ordered(Duplicate(s, id))
  {
    var newId := NatToString(s.next);
    CounterIdFresh(s);
    InsertOrdered(s, IndexOf(s.order, id) + 1, newId, Copy(s.records[id], newId), s.next + 1);
  }

  /** ADD_TASK_WITH_PHASE_GROUP stores the template, with the given phase and
      group and every other field as the template has it, under the string
      form of the counter, which is free; it goes last in the order and no
      other task changes. */
  lemma AddTaskSpec(s: TasksState, phaseId: Val, groupId: Val)
    requires Valid(s)
    ensures var id := NatToString(s.next);
            var r := Step(s, AddTask(phaseId, groupId));
            && id !in s.records
            && r.records.Keys == s.records.Keys + {id}
            && r.records[id].phaseId.value == phaseId
            && r.records[id].groupId.Some? && r.records[id].groupId.value.value == groupId
            && r.records[id].taskName.value == "Task " + id && r.records[id].id.value == id
            && r.records[id].bestCase == TaskTemplate(id).bestCase
            && r.records[id].costOverride == TaskTemplate(id).costOverride
            && r.records[id] == TaskTemplate(id).(phaseId := TaskTemplate(id).phaseId.(value := phaseId),
                                                  groupId := Some(TaskTemplate(id).groupId.value.(value := groupId)))
            && (forall k :: k in s.records ==> r.records[k] == s.records[k])
            && r.order == s.order + [id] && r.next == s.next + 1
  {
    CounterIdFresh(s);
  }

  /** REMOVE_TASK deletes the id from the dictionary and filters it out of
      the order, whose other ids keep their relative order; an id that is in
      neither changes nothing. */
  lemma RemoveTaskSpec(s: TasksState, id: string)
    ensures var r := Step(s, RemoveTask(id));
            && id !in r.records && id !in r.order && r.next == s.next
            && r.records.Keys == s.records.Keys - {id}
            && (forall k :: k in r.records ==> r.records[k] == s.records[k])
            && (forall k :: k in s.order && k != id ==> k in r.order)
            && (id !in s.order ==> r.order == s.order)
            && (id !in s.records && id !in s.order ==> r == s)
            && r.order == Without(s.order, id)
    ensures NoDup(s.order) ==> InOrderOf(Step(s, RemoveTask(id)).order, s.order)
  {
    if NoDup(s.order) {
      WithoutKeepsOrder(s.order, id);
    }
  }

  /** A task seen as its nine properties. */
  function FieldAt(t: Task, key: FieldKey): Option<Field<Val>> {
    match key
    case Id => Some(Field(Str(t.id.value), t.id.fieldType, t.id.validationMessage))
    case TaskName => Some(Field(Str(t.taskName.value), t.taskName.fieldType, t.taskName.validationMessage))
    case TaskDesc => Some(Field(Str(t.taskDesc.value), t.taskDesc.fieldType, t.taskDesc.validationMessage))
    case BestCase => Some(t.bestCase)
    case MostLikely => Some(t.mostLikely)
    case WorstCase => Some(t.worstCase)
    case CostOverride => Some(t.costOverride)
    case GroupId => t.groupId
    case PhaseId => Some(t.phaseId)
  }

  /** EDIT_TASK_VALUE stores the value even when it is invalid, keeps the
      field's type, sets the message from that type's pattern, clears the
      group when the phase is edited, and changes nothing else. */
  lemma EditTaskSpec(s: TasksState, id: string, key: FieldKey, value: string)
    requires id in s.records
    ensures var before := s.records[id];
            var r := Step(s, EditTaskValue(id, key, value));
            var after := r.records[id];
            var fieldType := if FieldAt(before, key).Some? then FieldAt(before, key).value.fieldType else None;
            && FieldAt(after, key) == Some(Field(Str(value), fieldType, ValidationMessage(fieldType, value)))
            && (FieldAt(after, key).value.validationMessage == "" <==>
                  InputTypeNamed(fieldType).None? || Validates(InputTypeNamed(fieldType).value, value))
            && (key == PhaseId ==> after.groupId.None?)
            && (forall k :: k != key && !(key == PhaseId && k == GroupId) ==> FieldAt(after, k) == FieldAt(before, k))
            && r.records.Keys == s.records.Keys && r.order == s.order && r.next == s.next
            && (forall k :: k in s.records && k != id ==> r.records[k] == s.records[k])
  {
  }

  /** MOVE_TASK_UP keeps every task and the counter and only permutes the
      order: an id that is first or absent stays put, otherwise it trades
      places with the one before it. */
  lemma MoveTaskUpSpec(s: TasksState, id: string)
    requires Valid(s)
    ensures var up := Step(s, MoveTaskUp(id));
            && up.records == s.records && up.next == s.next && multiset(up.order) == multiset(s.order)
            && Valid(up)
    ensures id in s.order && IndexOf(s.order, id) > 0 ==>
              IndexOf(Step(s, MoveTaskUp(id)).order, id) == IndexOf(s.order, id) - 1
  {
    var up := Step(s, MoveTaskUp(id));
    assert up == s.(order := MovedUp(s.order, id));
    MoveOrdered(s, id);
    assert IdsBelowCounter(up);
    var i := IndexOf(s.order, id);
    if id in s.order && i > 0 {
      assert up.order[i - 1] == id;
      IndexOfUnique(up.order, i - 1);
    }
  }

  /** MOVE_TASK_DOWN likewise: an id that is last or absent stays put,
      otherwise it trades places with the one after it. */
  lemma MoveTaskDownSpec(s: TasksState, id: string)
    requires Valid(s)
    ensures var down := Step(s, MoveTaskDown(id));
            && down.records == s.records && down.next == s.next && multiset(down.order) == multiset(s.order)
            && Valid(down)
    ensures id in s.order && IndexOf(s.order, id) < |s.order| - 1 ==>
              IndexOf(Step(s, MoveTaskDown(id)).order, id) == IndexOf(s.order, id) + 1
  {
    var down := Step(s, MoveTaskDown(id));
    assert down == s.(order := MovedDown(s.order, id));
    MoveOrdered(s, id);
    assert IdsBelowCounter(down);
    var i := IndexOf(s.order, id);
    if id in s.order && i < |s.order| - 1 {
      assert down.order[i + 1] == id;
      IndexOfUnique(down.order, i + 1);
    }
  }

  /** DUPLICATE_TASK stores under the string form of the counter, which is
      free, a copy of the task that differs only in its id and in "Copy of "
      before its name, leaves every other task alone, and the counter moves
      on. */
  lemma DuplicateSpec(s: TasksState, id: string)
    requires Valid(s) && id in s.records
    ensures var newId := NatToString(s.next);
            var original := s.records[id];
            var r := Step(s, DuplicateTask(id));
            var copy := r.records[newId];
            && newId !in s.records
            && r.records.Keys == s.records.Keys + {newId}
            && (forall k :: k in s.records ==> r.records[k] == s.records[k])
            && copy.id.value == newId && copy.id.fieldType == original.id.fieldType
            && copy.id.validationMessage == original.id.validationMessage
            && copy.taskName.value == "Copy of " + original.taskName.value
            && copy.taskName.fieldType == original.taskName.fieldType
            && copy.taskName.validationMessage == original.taskName.validationMessage
            && copy.taskDesc == original.taskDesc && copy.phaseId == original.phaseId
            && copy.groupId == original.groupId && copy.costOverride == original.costOverride
            && copy.bestCase == original.bestCase && copy.mostLikely == original.mostLikely
            && copy.worstCase == original.worstCase
            && r.next == s.next + 1
  {
    var newId := NatToString(s.next);
    var r := Step(s, DuplicateTask(id));
    assert r.records == s.records[newId := Copy(s.records[id], newId)];
    CounterIdFresh(s);
  }

  /** `r` is `order` with `newId` spliced in right after position `i`: the
      entries up to `i` stay in place and the rest move one slot on. */
  ghost predicate InsertedAfter(order: seq<string>, r: seq<string>, i: int, newId: string) {
    && 0 <= i < |order| && |r| == |order| + 1
    && r[i] == order[i] && r[i + 1] == newId
    && r[..i + 1] == order[..i + 1] && r[i + 2..] == order[i + 1..]
  }

  /** The new id comes right after the original in the order, and every
      other id keeps its relative place. */
  lemma DuplicateOrderSpec(s: TasksState, id: string)
    requires Valid(s) && id in s.records
    ensures var i := IndexOf(s.order, id);
            && 0 <= i && s.order[i] == id
            && InsertedAfter(s.order, Step(s, DuplicateTask(id)).order, i, NatToString(s.next))
  {
    assert id in s.order;
    StepDuplicates(s, id);
    OrderAfterCopyListed(s.order, id, NatToString(s.next));
  }

  lemma StepDuplicates(s: TasksState, id: string)
    requires id in s.records
    ensures Step(s, DuplicateTask(id)).order == OrderAfterCopy(s.order, id, NatToString(s.next))
  {
    assert Step(s, DuplicateTask(id)) == Duplicate(s, id);
  }

  lemma OrderAfterCopyListed(order: seq<string>, id: string, newId: string)
    requires id in order
    ensures InsertedAfter(order, OrderAfterCopy(order, id, newId), IndexOf(order, id), newId)
  {
    var i := IndexOf(order, id);
    var r := OrderAfterCopy(order, id, newId);
    assert r[i] == r[..i + 1][i];
  }

  /** Duplicating the first task of a fresh project gives task "2", named
      "Copy of Task 1", right after it. */
  lemma DuplicateExample()
    ensures var r := Step(Initial(), DuplicateTask("1"));
            && r.order == ["1", "2"] && r.records["2"].taskName.value == "Copy of Task 1"
            && r.records["2"].id.value == "2" && r.next == 3
  {
    var two: nat := 2;
    assert NatToString(two) == "2";
  }

  /** CLEAR_ALL_TASKS returns to the initial state; LOAD_STATE takes the
      loaded tasks when there are any; any other action leaves the slice
      alone. */
  lemma ClearLoadOther(s: TasksState, loaded: TasksState)
    ensures Step(s, ClearAllTasks) == Initial()
    ensures Step(s, LoadState(Some(loaded))) == loaded
    ensures Step(s, LoadState(None)) == s && Step(s, Other) == s
    ensures Valid(Step(s, ClearAllTasks))
  {
    InitialValid();
  }
}
