/**
 * The conversation entity the mapper fills in. Only what the mapper does to
 * it is modelled: its properties, read and written by name (observables
 * unwrapped), its access state, and the switch that decides whether a state
 * change is persisted.
 */
module ConversationEntity {
  import opened Wrappers
  import opened JsValue
  import opened ConversationEnums

  /** The properties of the entity that the mapper reads or writes. */
  datatype Prop =
    | Id | Roles | Creator | Type | Name
    | ArchivedTimestamp | ClearedTimestamp | LastEventTimestamp
    | LastReadTimestamp | LastServerTimestamp | MutedTimestamp
    | ArchivedState | MutedState | LocalMessageTimer | GlobalMessageTimer
    | ReceiptMode | Status | VerificationState | LegalHoldStatus
    | ParticipatingUserIds | TeamId | IsGuest
  {
    /** The property's name on the entity object. */
    function PropName(): string {
      match this
      case Id => "id"
      case Roles => "roles"
      case Creator => "creator"
      case Type => "type"
      case Name => "name"
      case ArchivedTimestamp => "archived_timestamp"
      case ClearedTimestamp => "cleared_timestamp"
      case LastEventTimestamp => "last_event_timestamp"
      case LastReadTimestamp => "last_read_timestamp"
      case LastServerTimestamp => "last_server_timestamp"
      case MutedTimestamp => "muted_timestamp"
      case ArchivedState => "archivedState"
      case MutedState => "mutedState"
      case LocalMessageTimer => "localMessageTimer"
      case GlobalMessageTimer => "globalMessageTimer"
      case ReceiptMode => "receiptMode"
      case Status => "status"
      case VerificationState => "verification_state"
      case LegalHoldStatus => "legalHoldStatus"
      case ParticipatingUserIds => "participating_user_ids"
      case TeamId => "team_id"
      case IsGuest => "isGuest"
    }

    /**
     * `id`, `creator` and `team_id` are plain fields, assigned directly;
     * every other property is an observable, written by calling it.
     */
    predicate IsObservable() {
      this !in {Id, Creator, TeamId}
    }
  }

  /** Every property, in declaration order. */
  const AllProps: seq<Prop> := [
    Id, Roles, Creator, Type, Name,
    ArchivedTimestamp, ClearedTimestamp, LastEventTimestamp,
    LastReadTimestamp, LastServerTimestamp, MutedTimestamp,
    ArchivedState, MutedState, LocalMessageTimer, GlobalMessageTimer,
    ReceiptMode, Status, VerificationState, LegalHoldStatus,
    ParticipatingUserIds, TeamId, IsGuest
  ]

  /**
   * `entity.hasOwnProperty(name)` for the modelled properties: the
   * property of that name, if any.
   */
  function PropNamed(name: string): (r: Option<Prop>)
    ensures r.Some? ==> r.value.PropName() == name
  {
    PropNamedIn(AllProps, name)
  }

  function PropNamedIn(props: seq<Prop>, name: string): (r: Option<Prop>)
    ensures r.Some? ==> r.value in props && r.value.PropName() == name
    ensures r.None? ==> forall p | p in props :: p.PropName() != name
  {
    if props == [] then None
    else if props[0].PropName() == name then Some(props[0])
    else PropNamedIn(props[1..], name)
  }

  /** Distinct properties have distinct names. */
  lemma PropNameInjective(p: Prop, q: Prop)
    requires p.PropName() == q.PropName()
    ensures p == q
  {
    var n := p.PropName();
    assert |n| == |q.PropName()| && n[0] == q.PropName()[0];
  }

  /** Every property is listed. */
  lemma AllPropsComplete(p: Prop)
    ensures p in AllProps
  {
    match p
    case Id => assert AllProps[0] == p;
    case Roles => assert AllProps[1] == p;
    case Creator => assert AllProps[2] == p;
    case Type => assert AllProps[3] == p;
    case Name => assert AllProps[4] == p;
    case ArchivedTimestamp => assert AllProps[5] == p;
    case ClearedTimestamp => assert AllProps[6] == p;
    case LastEventTimestamp => assert AllProps[7] == p;
    case LastReadTimestamp => assert AllProps[8] == p;
    case LastServerTimestamp => assert AllProps[9] == p;
    case MutedTimestamp => assert AllProps[10] == p;
    case ArchivedState => assert AllProps[11] == p;
    case MutedState => assert AllProps[12] == p;
    case LocalMessageTimer => assert AllProps[13] == p;
    case GlobalMessageTimer => assert AllProps[14] == p;
    case ReceiptMode => assert AllProps[15] == p;
    case Status => assert AllProps[16] == p;
    case VerificationState => assert AllProps[17] == p;
    case LegalHoldStatus => assert AllProps[18] == p;
    case ParticipatingUserIds => assert AllProps[19] == p;
    case TeamId => assert AllProps[20] == p;
    case IsGuest => assert AllProps[21] == p;
  }

  /** Every property is found under its own name. */
  lemma PropNamedFindsEvery(p: Prop)
    ensures PropNamed(p.PropName()) == Some(p)
  {
    AllPropsComplete(p);
    var r := PropNamed(p.PropName());
    assert r.Some?;
    PropNameInjective(r.value, p);
  }

  /** The value a property of `new Conversation(id)` starts with. */
  function InitialValue(id: Value, k: Prop): Value {
    if k == Id then id else Undefined
  }

  /**
   * The properties of `new Conversation(id)`: every property is its own,
   * the id holds `id` and everything else is unset.
   */
  function InitialProperties(id: Value): map<Prop, Value> {
    map k: Prop :: InitialValue(id, k)
  }

  // The kind predicates, on the `type` property.
  predicate Is1to1(conversationType: Value) {
    StrictEquals(conversationType, Num(ONE_TO_ONE))
  }

  predicate IsSelf(conversationType: Value) {
    StrictEquals(conversationType, Num(SELF))
  }

  predicate IsGroup(conversationType: Value) {
    StrictEquals(conversationType, Num(GROUP))
  }

  /** A write to an observable, and whether state-change persistence was on. */
  datatype StateChange =
    | PropertyChange(prop: Prop, persisted: bool)
    | AccessStateChange(persisted: bool)

  /** What an entity holds once built: its properties and its access state. */
  datatype EntityState = EntityState(props: map<Prop, Value>, accessState: Option<AccessState>)

  class Conversation {
    var props: map<Prop, Value>
    var accessState: Option<AccessState>
    var persistStateChanges: bool
    /** Every observable write so far, in order. */
    ghost var changes: seq<StateChange>

    constructor (id: Value)
      ensures props == InitialProperties(id)
      ensures accessState == None && persistStateChanges && changes == []
    {
      props := InitialProperties(id);
      accessState := None;
      persistStateChanges := true;
      changes := [];
    }

    function Property(key: Prop): Value
      reads this
    {
      Lookup(props, key)
    }

    function State(): EntityState
      reads this
    {
      EntityState(props, accessState)
    }

    /** `entity[key](value)`, and `setTimestamp(value, type)` for a timestamp. */
    method Set(key: Prop, value: Value)
      modifies this
      ensures props == old(props)[key := value]
      ensures accessState == old(accessState) && persistStateChanges == old(persistStateChanges)
      ensures changes == old(changes) + [PropertyChange(key, persistStateChanges)]
    {
      props := props[key := value];
      changes := changes + [PropertyChange(key, persistStateChanges)];
    }

    /** `entity[key] = value` on a plain field: no change notification. */
    method Assign(key: Prop, value: Value)
      modifies this
      ensures props == old(props)[key := value]
      ensures accessState == old(accessState) && persistStateChanges == old(persistStateChanges)
      ensures changes == old(changes)
    {
      props := props[key := value];
    }

    /** `entity.accessState(state)` */
    method SetAccessState(state: AccessState)
      modifies this
      ensures accessState == Some(state)
      ensures props == old(props) && persistStateChanges == old(persistStateChanges)
      ensures changes == old(changes) + [AccessStateChange(persistStateChanges)]
    {
      accessState := Some(state);
      changes := changes + [AccessStateChange(persistStateChanges)];
    }

    /** `entity.setStateChangePersistence(enabled)` */
    method SetStateChangePersistence(enabled: bool)
      modifies this
      ensures persistStateChanges == enabled
      ensures props == old(props) && accessState == old(accessState) && changes == old(changes)
    {
      persistStateChanges := enabled;
    }
  }
}
