/** The groups slice of the store and its reducer: ADD_GROUP, EDIT_GROUP,
    REMOVE_GROUP, TOGGLE_GROUP_VISIBILITY, MOVE_GROUP_UP/DOWN and LOAD_STATE. */
module Groups {
  import opened JsValues
  import opened OrderList
  import opened Slices

  /** A group record. EDIT_GROUP merges whatever it is given, so each
      property may hold any value. */
  datatype Group = Group(id: Val, name: Val, costOverride: Val, visible: Val,
                         description: Val, phaseId: Val, includeInComputation: Val)

  /** `groups`, `groupsOrder` and `nextGroupId`. */
  type GroupsState = Slice<Group>

  const Properties: set<string> :=
    {"id", "name", "costOverride", "visible", "description", "phaseId", "includeInComputation"}

  /** `g[p]` for a property name. */
  function Prop(g: Group, p: string): Val {
    match p
    case "id" => g.id
    case "name" => g.name
    case "costOverride" => g.costOverride
    case "visible" => g.visible
    case "description" => g.description
    case "phaseId" => g.phaseId
    case "includeInComputation" => g.includeInComputation
    case _ => Undef
  }

  /** `{ ...g, ...updates }`, where `g` is None for an id without a record
      (spreading `undefined` adds nothing). */
  function Merge(g: Option<Group>, updates: map<string, Val>): (r: Group)
    ensures forall p :: p in Properties ==>
              Prop(r, p) == if p in updates then updates[p] else if g.Some? then Prop(g.value, p) else Undef
  {
    var base := if g.Some? then g.value else Group(Undef, Undef, Undef, Undef, Undef, Undef, Undef);
    Group(Updated(updates, "id", base.id), Updated(updates, "name", base.name),
          Updated(updates, "costOverride", base.costOverride), Updated(updates, "visible", base.visible),
          Updated(updates, "description", base.description), Updated(updates, "phaseId", base.phaseId),
          Updated(updates, "includeInComputation", base.includeInComputation))
  }

  function Updated(updates: map<string, Val>, p: string, v: Val): Val {
    if p in updates then updates[p] else v
  }

  function Get(s: GroupsState, id: string): Option<Group> {
    if id in s.records then Some(s.records[id]) else None
  }

  function NewGroup(id: string): Group {
    Group(Str(id), Str("New Group"), Str(""), Bool(true), Str(""), Str("default"), Bool(true))
  }

  function Initial(): GroupsState {
    var default := Group(Str("default"), Str("Default Group"), Str(""), Bool(true), Str(""),
                         Str("default"), Bool(true));
    Slice(map["default" := default], ["default"], 1)
  }

  datatype Action =
    | AddGroup
    | EditGroup(id: string, updates: map<string, Val>)
    | RemoveGroup(id: string)
    | ToggleGroupVisibility(id: string, visible: Val)
    | MoveGroupUp(id: string)
    | MoveGroupDown(id: string)
    /** `action.state.groups || state`: None when the loaded state has no groups. */
    | LoadState(loaded: Option<GroupsState>)
    | Other

  const Prefix := "group-"

  function Step(s: GroupsState, a: Action): GroupsState {
    match a
    case AddGroup =>
      var id := FreshId(Prefix, s.next);
      Append(s, id, NewGroup(id))
    case EditGroup(id, updates) => Put(s, id, Merge(Get(s, id), updates))
    case RemoveGroup(id) => Remove(s, id)
    case ToggleGroupVisibility(id, visible) => Put(s, id, Merge(Get(s, id), map["visible" := visible]))
    case MoveGroupUp(id) => s.(order := MovedUp(s.order, id))
    case MoveGroupDown(id) => s.(order := MovedDown(s.order, id))
    case LoadState(loaded) => loaded.GetOr(s)
    case Other => s
  }

  /** The reducer as it runs: the moves swap two slots of a copied array. */
  method Reduce(s: GroupsState, a: Action) returns (r: GroupsState)
    ensures r == Step(s, a)
  {
    match a
    case MoveGroupUp(id) =>
      var order := MoveUp(s.order, id);
      r := s.(order := order);
    case MoveGroupDown(id) =>
      var order := MoveDown(s.order, id);
      r := s.(order := order);
    case _ =>
      r := Step(s, a);
  }

  /** The order lists the groups once each, and the counter is ahead of
      every "group-N" id in use. */
  ghost predicate Valid(s: GroupsState) {
    Ordered(s) && CounterAhead(s, Prefix)
  }

  /** Edits and toggles that name an existing group. */
  predicate Targets(s: GroupsState, a: Action) {
    (a.EditGroup? ==> a.id in s.records) && (a.ToggleGroupVisibility? ==> a.id in s.records)
  }

  lemma InitialValid()
    ensures Valid(Initial())
    ensures Initial().records.Keys == {"default"} && Initial().order == ["default"]
  {
    forall n: nat ensures FreshId(Prefix, n) != "default" {
      ForeignIdNeverFresh(Prefix, "default", n);
    }
  }

  /** Every action but LOAD_STATE keeps the slice valid, provided edits and
      toggles name an existing group. */
  lemma StepPreservesValid(s: GroupsState, a: Action)
    requires Valid(s) && Targets(s, a) && !a.LoadState?
    ensures Valid(Step(s, a))
  {
    match a
    case AddGroup =>
      var id := FreshId(Prefix, s.next);
      AppendFresh(s, Prefix, NewGroup(id));
      AppendOrdered(s, id, NewGroup(id));
    case EditGroup(id, updates) =>
      PutOrdered(s, id, Merge(Get(s, id), updates));
    case RemoveGroup(id) =>
      RemoveOrdered(s, id);
    case ToggleGroupVisibility(id, visible) =>
      PutOrdered(s, id, Merge(Get(s, id), map["visible" := visible]));
    case MoveGroupUp(id) =>
      MoveOrdered(s, id);
    case MoveGroupDown(id) =>
      MoveOrdered(s, id);
    case Other =>
  }

  /** ADD_GROUP stores the defaults under a fresh "group-N" id, appends it to
      the order and advances the counter; no other group changes. */
  lemma AddGroupSpec(s: GroupsState)
    requires Valid(s)
    ensures var id := FreshId(Prefix, s.next);
            var r := Step(s, AddGroup);
            && id !in s.records
            && r.records.Keys == s.records.Keys + {id}
            && r.records[id] == NewGroup(id)
            && r.records[id].name == Str("New Group") && r.records[id].phaseId == Str("default")
            && r.records[id].includeInComputation == Bool(true)
            && (forall k :: k in s.records ==> r.records[k] == s.records[k])
            && r.order == s.order + [id] && r.next == s.next + 1
  {
    AppendFresh(s, Prefix, NewGroup(FreshId(Prefix, s.next)));
  }

  /** EDIT_GROUP changes exactly the properties named in the updates of that
      one group; an unknown id gets a record that is in no order. */
  lemma EditGroupSpec(s: GroupsState, id: string, updates: map<string, Val>)
    requires Valid(s)
    ensures var r := Step(s, EditGroup(id, updates));
            && r.order == s.order && r.next == s.next
            && r.records.Keys == s.records.Keys + {id}
            && (forall k :: k in s.records && k != id ==> r.records[k] == s.records[k])
            && (forall p :: p in Properties ==>
                  Prop(r.records[id], p)
                  == if p in updates then updates[p] else if id in s.records then Prop(s.records[id], p) else Undef)
            && (Ordered(r) <==> id in s.records)
  {
    PutOrdered(s, id, Merge(Get(s, id), updates));
  }

  /** TOGGLE_GROUP_VISIBILITY changes only `visible` of that group. */
  lemma ToggleSpec(s: GroupsState, id: string, visible: Val)
    requires id in s.records
    ensures var r := Step(s, ToggleGroupVisibility(id, visible));
            && r.order == s.order && r.next == s.next && r.records.Keys == s.records.Keys
            && r.records[id].visible == visible
            && (forall p :: p in Properties && p != "visible" ==> Prop(r.records[id], p) == Prop(s.records[id], p))
            && (forall k :: k in s.records && k != id ==> r.records[k] == s.records[k])
  {
    var m := Merge(Get(s, id), map["visible" := visible]);
    assert Prop(m, "visible") == visible;
  }

  /** REMOVE_GROUP drops the id from the dictionary and the order, keeps
      the other ids in their relative order and everything else as it was;
      nothing protects "default". */
  lemma RemoveGroupSpec(s: GroupsState, id: string)
    requires Valid(s)
    ensures var r := Step(s, RemoveGroup(id));
            && Valid(r) && id !in r.records && id !in r.order && r.next == s.next
            && r.records.Keys == s.records.Keys - {id}
            && (forall k :: k in r.records ==> r.records[k] == s.records[k])
            && r.order == Without(s.order, id) && InOrderOf(r.order, s.order)
    ensures Step(Initial(), RemoveGroup("default")) == Slice(map[], [], 1)
  {
    StepPreservesValid(s, RemoveGroup(id));
    WithoutKeepsOrder(s.order, id);
    var r := Step(Initial(), RemoveGroup("default"));
    assert r.records == map[];
  }

  /** The moves keep the dictionary and the counter and only permute the
      order. */
  lemma MoveGroupSpec(s: GroupsState, id: string)
    requires Valid(s)
    ensures var up := Step(s, MoveGroupUp(id));
            var down := Step(s, MoveGroupDown(id));
            && up.records == s.records && up.next == s.next && multiset(up.order) == multiset(s.order)
            && down.records == s.records && down.next == s.next && multiset(down.order) == multiset(s.order)
            && Valid(up) && Valid(down)
  {
    MoveOrdered(s, id);
  }
}
