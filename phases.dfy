/** The phases slice of the store and its reducer: ADD_PHASE, EDIT_PHASE,
    REMOVE_PHASE, TOGGLE_PHASE_VISIBILITY, MOVE_PHASE_UP/DOWN and LOAD_STATE.
    A phase is a group without a `phaseId`. */
module Phases {
  import opened JsValues
  import opened OrderList
  import opened Slices

  /** A phase record. EDIT_PHASE merges whatever it is given, so each
      property may hold any value. */
  datatype Phase = Phase(id: Val, name: Val, costOverride: Val, visible: Val,
                         description: Val, includeInComputation: Val)

  /** `phases`, `phasesOrder` and `nextPhaseId`. */
  type PhasesState = Slice<Phase>

  const Properties: set<string> :=
    {"id", "name", "costOverride", "visible", "description", "includeInComputation"}

  /** `g[p]` for a property name. */
  function Prop(g: Phase, p: string): Val {
    match p
    case "id" => g.id
    case "name" => g.name
    case "costOverride" => g.costOverride
    case "visible" => g.visible
    case "description" => g.description
    case "includeInComputation" => g.includeInComputation
    case _ => Undef
  }

  /** `{ ...g, ...updates }`, where `g` is None for an id without a record
      (spreading `undefined` adds nothing). */
  function Merge(g: Option<Phase>, updates: map<string, Val>): (r: Phase)
    ensures forall p :: p in Properties ==>
              Prop(r, p) == if p in updates then updates[p] else if g.Some? then Prop(g.value, p) else Undef
  {
    var base := if g.Some? then g.value else Phase(Undef, Undef, Undef, Undef, Undef, Undef);
    Phase(Updated(updates, "id", base.id), Updated(updates, "name", base.name),
          Updated(updates, "costOverride", base.costOverride), Updated(updates, "visible", base.visible),
          Updated(updates, "description", base.description),
          Updated(updates, "includeInComputation", base.includeInComputation))
  }

  function Updated(updates: map<string, Val>, p: string, v: Val): Val {
    if p in updates then updates[p] else v
  }

  function Get(s: PhasesState, id: string): Option<Phase> {
    if id in s.records then Some(s.records[id]) else None
  }

  function NewPhase(id: string): Phase {
    Phase(Str(id), Str("New Phase"), Str(""), Bool(true), Str(""), Bool(true))
  }

  function Initial(): PhasesState {
    var default := Phase(Str("default"), Str("Default Phase"), Str(""), Bool(true), Str(""), Bool(true));
    Slice(map["default" := default], ["default"], 1)
  }

  datatype Action =
    | AddPhase
    | EditPhase(id: string, updates: map<string, Val>)
    | RemovePhase(id: string)
    | TogglePhaseVisibility(id: string, visible: Val)
    | MovePhaseUp(id: string)
    | MovePhaseDown(id: string)
    /** `action.state.phases || state`: None when the loaded state has no phases. */
    | LoadState(loaded: Option<PhasesState>)
    | Other

  const Prefix := "phase-"

  function Step(s: PhasesState, a: Action): PhasesState {
    match a
    case AddPhase =>
      var id := FreshId(Prefix, s.next);
      Append(s, id, NewPhase(id))
    case EditPhase(id, updates) => Put(s, id, Merge(Get(s, id), updates))
    case RemovePhase(id) => Remove(s, id)
    case TogglePhaseVisibility(id, visible) => Put(s, id, Merge(Get(s, id), map["visible" := visible]))
    case MovePhaseUp(id) => s.(order := MovedUp(s.order, id))
    case MovePhaseDown(id) => s.(order := MovedDown(s.order, id))
    case LoadState(loaded) => loaded.GetOr(s)
    case Other => s
  }

  /** The reducer as it runs: the moves swap two slots of a copied array. */
  method Reduce(s: PhasesState, a: Action) returns (r: PhasesState)
    ensures r == Step(s, a)
  {
    match a
    case MovePhaseUp(id) =>
      var order := MoveUp(s.order, id);
      r := s.(order := order);
    case MovePhaseDown(id) =>
      var order := MoveDown(s.order, id);
      r := s.(order := order);
    case _ =>
      r := Step(s, a);
  }

  /** The order lists the phases once each, and the counter is ahead of
      every "phase-N" id in use. */
  ghost predicate Valid(s: PhasesState) {
    Ordered(s) && CounterAhead(s, Prefix)
  }

  /** Edits and toggles that name an existing phase. */
  predicate Targets(s: PhasesState, a: Action) {
    (a.EditPhase? ==> a.id in s.records) && (a.TogglePhaseVisibility? ==> a.id in s.records)
  }

  lemma InitialValid()
    ensures Valid(Initial())
    ensures Initial().records.Keys == {"default"} && Initial().order == ["default"]
  {
    forall n: nat ensures FreshId(Prefix, n) != "default" {
      ForeignIdNeverFresh(Prefix, "default", n);
    }
  }

  /** Every action but LOAD_STATE keeps the slice valid, provided edits and
      toggles name an existing phase. */
  lemma StepPreservesValid(s: PhasesState, a: Action)
    requires Valid(s) && Targets(s, a) && !a.LoadState?
    ensures Valid(Step(s, a))
  {
    match a
    case AddPhase =>
      var id := FreshId(Prefix, s.next);
      AppendFresh(s, Prefix, NewPhase(id));
      AppendOrdered(s, id, NewPhase(id));
    case EditPhase(id, updates) =>
      PutOrdered(s, id, Merge(Get(s, id), updates));
    case RemovePhase(id) =>
      RemoveOrdered(s, id);
    case TogglePhaseVisibility(id, visible) =>
      PutOrdered(s, id, Merge(Get(s, id), map["visible" := visible]));
    case MovePhaseUp(id) =>
      MoveOrdered(s, id);
    case MovePhaseDown(id) =>
      MoveOrdered(s, id);
    case Other =>
  }

  /** ADD_PHASE stores the defaults under a fresh "phase-N" id, appends it to
      the order and advances the counter; no other phase changes. */
  lemma AddPhaseSpec(s: PhasesState)
    requires Valid(s)
    ensures var id := FreshId(Prefix, s.next);
            var r := Step(s, AddPhase);
            && id !in s.records
            && r.records.Keys == s.records.Keys + {id}
            && r.records[id] == NewPhase(id)
            && r.records[id].name == Str("New Phase")
            && r.records[id].includeInComputation == Bool(true)
            && (forall k :: k in s.records ==> r.records[k] == s.records[k])
            && r.order == s.order + [id] && r.next == s.next + 1
  {
    AppendFresh(s, Prefix, NewPhase(FreshId(Prefix, s.next)));
  }

  /** EDIT_PHASE changes exactly the properties named in the updates of that
      one phase; an unknown id gets a record that is in no order. */
  lemma EditPhaseSpec(s: PhasesState, id: string, updates: map<string, Val>)
    requires Valid(s)
    ensures var r := Step(s, EditPhase(id, updates));
            && r.order == s.order && r.next == s.next
            && r.records.Keys == s.records.Keys + {id}
            && (forall k :: k in s.records && k != id ==> r.records[k] == s.records[k])
            && (forall p :: p in Properties ==>
                  Prop(r.records[id], p)
                  == if p in updates then updates[p] else if id in s.records then Prop(s.records[id], p) else Undef)
            && (Ordered(r) <==> id in s.records)
  {
    PutOrdered(s, id, Merge(Get(s, id), updates));
  }

  /** TOGGLE_PHASE_VISIBILITY changes only `visible` of that phase. */
  lemma ToggleSpec(s: PhasesState, id: string, visible: Val)
    requires id in s.records
    ensures var r := Step(s, TogglePhaseVisibility(id, visible));
            && r.order == s.order && r.next == s.next && r.records.Keys == s.records.Keys
            && r.records[id].visible == visible
            && (forall p :: p in Properties && p != "visible" ==> Prop(r.records[id], p) == Prop(s.records[id], p))
            && (forall k :: k in s.records && k != id ==> r.records[k] == s.records[k])
  {
    var m := Merge(Get(s, id), map["visible" := visible]);
    assert Prop(m, "visible") == visible;
  }

  /** REMOVE_PHASE drops the id from the dictionary and the order, keeps
      the other ids in their relative order and everything else as it was;
      nothing protects "default". */
  lemma RemovePhaseSpec(s: PhasesState, id: string)
    requires Valid(s)
    ensures var r := Step(s, RemovePhase(id));
            && Valid(r) && id !in r.records && id !in r.order && r.next == s.next
            && r.records.Keys == s.records.Keys - {id}
            && (forall k :: k in r.records ==> r.records[k] == s.records[k])
            && r.order == Without(s.order, id) && InOrderOf(r.order, s.order)
    ensures Step(Initial(), RemovePhase("default")) == Slice(map[], [], 1)
  {
    StepPreservesValid(s, RemovePhase(id));
    WithoutKeepsOrder(s.order, id);
    var r := Step(Initial(), RemovePhase("default"));
    assert r.records == map[];
  }

  /** The moves keep the dictionary and the counter and only permute the
      order. */
  lemma MovePhaseSpec(s: PhasesState, id: string)
    requires Valid(s)
    ensures var up := Step(s, MovePhaseUp(id));
            var down := Step(s, MovePhaseDown(id));
            && up.records == s.records && up.next == s.next && multiset(up.order) == multiset(s.order)
            && down.records == s.records && down.next == s.next && multiset(down.order) == multiset(s.order)
            && Valid(up) && Valid(down)
  {
    MoveOrdered(s, id);
  }
}
