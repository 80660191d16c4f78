/**
 * _createConversationEntity and mapConversations: a conversation entity
 * built from one payload (a database record or a backend payload), and a
 * batch of them, each with a fallback timestamp from its position.
 */
module EntityBuilder {
  import opened Wrappers
  import opened JsValue
  import opened ConversationEnums
  import opened ConversationEntity
  import opened AccessStateMapping
  import opened EntityUpdate

  /**
   * underscore's `isObject(v) && Object.keys(v).length`: an array or an
   * object with at least one own key.
   */
  predicate HasKeys(data: Value) {
    (data.Obj? && data.fields != map[]) || (data.Arr? && data.items != [])
  }

  /** The properties set before the self state: id, roles, creator, type and name. */
  function BaseProperties(data: Value): map<Prop, Value> {
    InitialProperties(Get(data, "id"))
      [Roles := Or(Get(data, "roles"), Obj(map[]))]
      [Creator := Get(data, "creator")]
      [Type := Get(data, "type")]
      [Name := Or(Get(data, "name"), Str(""))]
  }

  /** Before the self state, the id, creator and type are as given, the roles default to `{}` and the name to "". */
  lemma BasePropertiesSet(data: Value)
    ensures var base := BaseProperties(data);
      && Lookup(base, Id) == Get(data, "id")
      && Lookup(base, Creator) == Get(data, "creator")
      && Lookup(base, Type) == Get(data, "type")
      && Lookup(base, Roles) == Or(Get(data, "roles"), Obj(map[]))
      && Lookup(base, Name) == Or(Get(data, "name"), Str(""))
  {
  }

  /** Before the self state, everything but id, roles, creator, type and name is unset. */
  lemma BasePropertiesUnset(data: Value, k: Prop)
    requires k !in {Id, Roles, Creator, Type, Name}
    ensures Lookup(BaseProperties(data), k) == Undefined
  {
    var initial := InitialProperties(Get(data, "id"));
    assert Lookup(BaseProperties(data), k) == Lookup(initial, k);
  }

  /** `members ? members.self : conversationData` */
  function SelfStateOf(data: Value): Value {
    var members := Get(data, "members");
    if Truthy(members) then Get(members, "self") else data
  }

  /** `others.map(other => other.id)`; a null or undefined entry throws. */
  function MemberIds(others: seq<Value>): (r: Result<seq<Value>, MapperError>)
    ensures r.Ok? <==> forall i | 0 <= i < |others| :: !Nullish(others[i])
    ensures r.Err? ==> r.error == TypeError
    ensures r.Ok? ==> |r.value| == |others| && forall i | 0 <= i < |others| :: r.value[i] == Get(others[i], "id")
  {
    if others == [] then Ok([])
    else if Nullish(others[|others| - 1]) then Err(TypeError)
    else
      match MemberIds(others[..|others| - 1])
      case Err(e) => Err(e)
      case Ok(ids) => Ok(ids + [Get(others[|others| - 1], "id")])
  }

  /**
   * `others || members.others.map(other => other.id)`: reading `others` of
   * null or undefined members, or calling `map` on something other than an
   * array, throws.
   */
  function ParticipantIds(data: Value): (r: Result<Value, MapperError>)
    ensures Truthy(Get(data, "others")) ==> r == Ok(Get(data, "others"))
    ensures !Truthy(Get(data, "others")) ==>
              (r.Ok? <==>
                 && !Nullish(Get(data, "members"))
                 && Get(Get(data, "members"), "others").Arr?
                 && forall o | o in Get(Get(data, "members"), "others").items :: !Nullish(o))
    ensures !Truthy(Get(data, "others")) && r.Ok? ==>
              r.value == Arr(MemberIds(Get(Get(data, "members"), "others").items).value)
    ensures r.Err? ==> r.error == TypeError
  {
    var others := Get(data, "others");
    if Truthy(others) then Ok(others)
    else
      var members := Get(data, "members");
      if Nullish(members) then Err(TypeError)
      else
        var memberOthers := Get(members, "others");
        if !memberOthers.Arr? then Err(TypeError)
        else
          match MemberIds(memberOthers.items)
          case Err(e) => Err(e)
          case Ok(ids) => Ok(Arr(ids))
  }

  /** The fallback timestamp, applied to both timestamps when the last event one is still falsy. */
  function WithFallbackTimestamp(p: map<Prop, Value>, initialTimestamp: Value): map<Prop, Value> {
    if !Truthy(Lookup(p, LastEventTimestamp)) && Truthy(initialTimestamp)
    then p[LastEventTimestamp := initialTimestamp][LastServerTimestamp := initialTimestamp]
    else p
  }

  /** `conversationData.team_id || conversationData.team` */
  function TeamIdOf(data: Value): Value {
    Or(Get(data, "team_id"), Get(data, "team"))
  }

  /** `conversationData.accessModes || conversationData.access` */
  function AccessModesOf(data: Value): Value {
    Or(Get(data, "accessModes"), Get(data, "access"))
  }

  /** `conversationData.accessRole || conversationData.access_role` */
  function AccessRoleOf(data: Value): Value {
    Or(Get(data, "accessRole"), Get(data, "access_role"))
  }

  /** The team id, when truthy, and the guest flag, when truthy. */
  function WithTeamAndGuest(p: map<Prop, Value>, data: Value): map<Prop, Value> {
    var withTeam := if Truthy(TeamIdOf(data)) then p[TeamId := TeamIdOf(data)] else p;
    if Truthy(Get(data, "is_guest")) then withTeam[IsGuest := Get(data, "is_guest")] else withTeam
  }

  /**
   * The last step: the access state, when both the access modes and the
   * access role are truthy, decided from the team id and type the entity
   * holds by then; then the receipt mode, which is taken from the payload
   * whatever the self state said.
   */
  function WithAccessAndReceipt(p: map<Prop, Value>, data: Value): (r: Result<EntityState, MapperError>)
    ensures r.Err? ==> r.error == TypeError
  {
    var modes := AccessModesOf(data);
    var role := AccessRoleOf(data);
    var receipt := Get(data, "receipt_mode");
    if Truthy(modes) && Truthy(role) then
      match AccessStateOf(Lookup(p, TeamId), Lookup(p, Type), modes, role)
      case Err(e) => Err(e)
      case Ok(state) => Ok(EntityState(p[ReceiptMode := receipt], Some(state)))
    else Ok(EntityState(p[ReceiptMode := receipt], None))
  }

  /** The last step writes only the receipt mode to the properties. */
  lemma AccessAndReceiptProps(p: map<Prop, Value>, data: Value)
    ensures var r := WithAccessAndReceipt(p, data);
      r.Ok? ==> r.value.props == p[ReceiptMode := Get(data, "receipt_mode")]
  {
  }

  /**
   * What follows the self state: the fallback timestamps, the
   * participants, the team id and guest flag, the access state and the
   * receipt mode.
   */
  function CompleteConversation(p: map<Prop, Value>, data: Value, initialTimestamp: Value)
    : (r: Result<EntityState, MapperError>)
    ensures r.Err? ==> r.error == TypeError
  {
    match ParticipantIds(data)
    case Err(e) => Err(e)
    case Ok(ids) =>
      var withTimestamps := WithFallbackTimestamp(p, initialTimestamp);
      WithAccessAndReceipt(WithTeamAndGuest(withTimestamps[ParticipatingUserIds := ids], data), data)
  }

  /**
   * The entity _createConversationEntity builds from `data`, or the error
   * it throws: MISSING_PARAMETER for undefined, INVALID_PARAMETER for a
   * value that is not an object or has no keys, and a TypeError where a
   * property of null or undefined is read or the access modes lack
   * `includes`.
   */
  function BuildConversation(data: Value, initialTimestamp: Value, parse: DateParser)
    : (r: Result<EntityState, MapperError>)
    ensures r == Err(MissingParameter) <==> data == Undefined
    ensures r == Err(InvalidParameter) <==> data != Undefined && !HasKeys(data)
    ensures r.Ok? ==> HasKeys(data) && !Nullish(SelfStateOf(data)) && ParticipantIds(data).Ok?
  {
    if data == Undefined then Err(MissingParameter)
    else if !HasKeys(data) then Err(InvalidParameter)
    else if Nullish(SelfStateOf(data)) then Err(TypeError)
    else
      var withSelf := ApplySelfStatus(BaseProperties(data), ReadSelfStatus(SelfStateOf(data)), parse);
      CompleteConversation(withSelf, data, initialTimestamp)
  }

  /**
   * The payloads _createConversationEntity builds an entity from: keyed,
   * with a self state that is not null or undefined, with readable
   * participants, and, when the access modes and role are both truthy,
   * modes the access-state decision can test for the payload's team id
   * and type.
   */
  predicate Buildable(data: Value) {
    HasKeys(data) && !Nullish(SelfStateOf(data)) && Completes(data)
  }

  /** The part of Buildable the steps after the self state decide. */
  predicate Completes(data: Value) {
    && ParticipantIds(data).Ok?
    && (Truthy(AccessModesOf(data)) && Truthy(AccessRoleOf(data)) ==>
          AccessStateOf(if Truthy(TeamIdOf(data)) then TeamIdOf(data) else Undefined, Get(data, "type"),
                        AccessModesOf(data), AccessRoleOf(data)).Ok?)
  }

  /** The access state and the receipt mode, as WithAccessAndReceipt says. */
  method SetAccessAndReceipt(entity: Conversation, data: Value) returns (r: Result<Conversation, MapperError>)
    requires entity.accessState == None
    modifies entity
    ensures r.Ok? <==> WithAccessAndReceipt(old(entity.props), data).Ok?
    ensures r.Ok? ==> r.value == entity && entity.State() == WithAccessAndReceipt(old(entity.props), data).value
    ensures r.Err? ==> r.error == TypeError
    ensures entity.persistStateChanges == old(entity.persistStateChanges)
  {
    var accessModes := AccessModesOf(data);
    var accessRole := AccessRoleOf(data);
    if Truthy(accessModes) && Truthy(accessRole) {
      var access := MapAccessState(entity, accessModes, accessRole);
      if access.Err? {
        return Err(access.error);
      }
    }
    entity.Set(ReceiptMode, Get(data, "receipt_mode"));
    r := Ok(entity);
  }

  /** The fallback timestamps, as WithFallbackTimestamp says. */
  method SetFallbackTimestamps(entity: Conversation, initialTimestamp: Value)
    modifies entity
    ensures entity.props == WithFallbackTimestamp(old(entity.props), initialTimestamp)
    ensures entity.accessState == old(entity.accessState)
    ensures entity.persistStateChanges == old(entity.persistStateChanges)
  {
    if !Truthy(entity.Property(LastEventTimestamp)) && Truthy(initialTimestamp) {
      entity.Set(LastEventTimestamp, initialTimestamp);
      entity.Set(LastServerTimestamp, initialTimestamp);
    }
  }

  /** The team id and the guest flag, as WithTeamAndGuest says. */
  method SetTeamAndGuest(entity: Conversation, data: Value)
    modifies entity
    ensures entity.props == WithTeamAndGuest(old(entity.props), data)
    ensures entity.accessState == old(entity.accessState)
    ensures entity.persistStateChanges == old(entity.persistStateChanges)
  {
    var teamId := TeamIdOf(data);
    if Truthy(teamId) {
      entity.Assign(TeamId, teamId);
    }
    if Truthy(Get(data, "is_guest")) {
      entity.Set(IsGuest, Get(data, "is_guest"));
    }
  }

  /** Everything after the self state, as CompleteConversation says. */
  method CompleteEntity(entity: Conversation, data: Value, initialTimestamp: Value)
    returns (r: Result<Conversation, MapperError>)
    requires entity.accessState == None
    modifies entity
    ensures r.Ok? <==> CompleteConversation(old(entity.props), data, initialTimestamp).Ok?
    ensures r.Ok? ==>
              r.value == entity && entity.State() == CompleteConversation(old(entity.props), data, initialTimestamp).value
    ensures r.Err? ==> r.error == TypeError
    ensures entity.persistStateChanges == old(entity.persistStateChanges)
  {
    SetFallbackTimestamps(entity, initialTimestamp);
    var participants := ParticipantIds(data);
    if participants.Err? {
      return Err(participants.error);
    }
    entity.Set(ParticipatingUserIds, participants.value);
    SetTeamAndGuest(entity, data);
    r := SetAccessAndReceipt(entity, data);
  }

  /** `new Conversation(id)` and the writes of roles, creator, type and name. */
  method NewConversation(data: Value) returns (entity: Conversation)
    ensures fresh(entity)
    ensures entity.props == BaseProperties(data)
    ensures entity.accessState == None && entity.persistStateChanges
  {
    entity := new Conversation(Get(data, "id"));
    entity.Set(Roles, Or(Get(data, "roles"), Obj(map[])));
    entity.Assign(Creator, Get(data, "creator"));
    entity.Set(Type, Get(data, "type"));
    entity.Set(Name, Or(Get(data, "name"), Str("")));
  }

  /**
   * Builds the entity step by step, as the source does, and agrees with
   * BuildConversation; every write is made with persistence on.
   */
  method CreateConversationEntity(data: Value, initialTimestamp: Value, parse: DateParser)
    returns (r: Result<Conversation, MapperError>)
    ensures r.Ok? <==> BuildConversation(data, initialTimestamp, parse).Ok?
    ensures r.Ok? ==> fresh(r.value) && r.value.State() == BuildConversation(data, initialTimestamp, parse).value
    ensures r.Ok? ==> r.value.persistStateChanges
    ensures r.Err? ==> r.error == BuildConversation(data, initialTimestamp, parse).error
  {
    if data == Undefined {
      return Err(MissingParameter);
    }
    if !HasKeys(data) {
      return Err(InvalidParameter);
    }
    var entity := NewConversation(data);

    var updated := UpdateSelfStatus(entity, SelfStateOf(data), false, parse);
    if updated.Err? {
      return Err(updated.error);
    }
    r := CompleteEntity(entity, data, initialTimestamp);
  }

  /**
   * mapConversations: MISSING_PARAMETER for undefined, INVALID_PARAMETER
   * for anything but a non-empty array; otherwise element `i` is built
   * with the fallback timestamp `timestamp + i`, and the first element
   * that fails decides the error. `timestamp` is the caller's initial
   * timestamp (1 when the caller leaves it out).
   */
  function MapConversations(batch: Value, timestamp: int, parse: DateParser)
    : (r: Result<seq<EntityState>, MapperError>)
    ensures batch == Undefined ==> r == Err(MissingParameter)
    ensures batch != Undefined && !(batch.Arr? && batch.items != []) ==> r == Err(InvalidParameter)
    ensures r.Ok? ==> batch.Arr? && |r.value| == |batch.items|
  {
    if batch == Undefined then Err(MissingParameter)
    else if !batch.Arr? || batch.items == [] then Err(InvalidParameter)
    else MapIndexed(batch.items, timestamp, BuildAt(parse))
  }

  /** The callback `mapConversations` maps with: build a payload with the timestamp it is given. */
  function BuildAt(parse: DateParser): (Value, int) -> Result<EntityState, MapperError>
  {
    (item, t) => BuildConversation(item, Num(t), parse)
  }

  /**
   * `items.map((item, index) => f(item, start + index))` where `f` may
   * throw: the first item whose call fails decides the error.
   */
  function MapIndexed<T>(items: seq<Value>, start: int, f: (Value, int) -> Result<T, MapperError>)
    : (r: Result<seq<T>, MapperError>)
    ensures r.Ok? ==> |r.value| == |items|
    decreases |items|
  {
    if items == [] then Ok([])
    else
      match f(items[0], start)
      case Err(e) => Err(e)
      case Ok(x) =>
        match MapIndexed(items[1..], start + 1, f)
        case Err(e) => Err(e)
        case Ok(xs) => Ok([x] + xs)
  }

  /**
   * The indexed map yields one result per item, in order, the item at
   * index `i` mapped with `start + i`; it fails exactly when some item
   * fails, and then with the error of the first one.
   */
  lemma {:induction false} MapIndexedElementwise<T>(items: seq<Value>, start: int, f: (Value, int) -> Result<T, MapperError>)
    ensures var r := MapIndexed(items, start, f);
      && (r.Ok? ==> forall i :: 0 <= i < |items| ==> f(items[i], start + i) == Ok(r.value[i]))
      && (r.Err? <==> exists i :: 0 <= i < |items| && f(items[i], start + i).Err?)
      && (r.Err? ==>
            exists i :: 0 <= i < |items| && f(items[i], start + i) == Err(r.error) &&
              forall j :: 0 <= j < i ==> f(items[j], start + j).Ok?)
    decreases |items|
  {
    if items != [] {
      var rest := MapIndexed(items[1..], start + 1, f);
      MapIndexedElementwise(items[1..], start + 1, f);
      if f(items[0], start).Err? {
        assert f(items[0], start + 0).Err?;
      } else if rest.Err? {
        var i' :| 0 <= i' < |items[1..]| && f(items[1..][i'], start + 1 + i') == Err(rest.error) &&
          forall j :: 0 <= j < i' ==> f(items[1..][j], start + 1 + j).Ok?;
        var i := i' + 1;
        assert f(items[i], start + i) == Err(rest.error);
        forall j | 0 <= j < i
          ensures f(items[j], start + j).Ok?
        {
          if j > 0 {
            assert f(items[1..][j - 1], start + 1 + (j - 1)).Ok?;
          }
        }
      } else {
        forall i | 0 <= i < |items|
          ensures f(items[i], start + i) == Ok(MapIndexed(items, start, f).value[i])
        {
          if i > 0 {
            assert f(items[1..][i - 1], start + 1 + (i - 1)) == Ok(rest.value[i - 1]);
          }
        }
        forall i | 0 <= i < |items|
          ensures f(items[i], start + i).Ok?
        {
        }
      }
    }
  }

  /**
   * A valid batch maps to one state per payload, in order, the payload at
   * index `i` built with the initial timestamp `timestamp + i`; a failing
   * batch fails with the error of its first failing payload (so it fails
   * exactly when some payload does).
   */
  lemma MapConversationsElementwise(batch: Value, timestamp: int, parse: DateParser)
    requires batch.Arr? && batch.items != []
    ensures var r := MapConversations(batch, timestamp, parse);
      && (r.Ok? ==>
            forall i :: 0 <= i < |batch.items| ==> BuildAt(parse)(batch.items[i], timestamp + i) == Ok(r.value[i]))
      && (r.Err? ==>
            exists i :: 0 <= i < |batch.items| && BuildAt(parse)(batch.items[i], timestamp + i) == Err(r.error) &&
              forall j :: 0 <= j < i ==> BuildAt(parse)(batch.items[j], timestamp + j).Ok?)
  {
    MapIndexedElementwise(batch.items, timestamp, BuildAt(parse));
  }

  /**
   * A conversation whose self state has no truthy last event timestamp
   * gets the batch's initial timestamp plus its index as last event
   * timestamp, when that sum is not zero.
   */
  lemma MapConversationsFallback(batch: Value, timestamp: int, parse: DateParser, i: nat)
    requires batch.Arr? && i < |batch.items| && timestamp + i != 0
    requires !Truthy(ReadSelfStatus(SelfStateOf(batch.items[i])).lastEventTimestamp)
    ensures var r := MapConversations(batch, timestamp, parse);
      r.Ok? ==> Lookup(r.value[i].props, LastEventTimestamp) == Num(timestamp + i)
  {
    var r := MapConversations(batch, timestamp, parse);
    if r.Ok? {
      MapConversationsElementwise(batch, timestamp, parse);
      var built := BuildConversation(batch.items[i], Num(timestamp + i), parse);
      assert BuildAt(parse)(batch.items[i], timestamp + i) == built;
      BuildConversationTimestamps(batch.items[i], Num(timestamp + i), parse);
    }
  }

  /**
   * The fallback timestamps keep a batch in order: of two conversations
   * without a truthy last event timestamp of their own, the earlier one
   * gets the smaller fallback, compared as `<` compares them.
   */
  lemma MapConversationsFallbackOrder(batch: Value, timestamp: int, parse: DateParser, i: nat, j: nat)
    requires timestamp + i != 0 && timestamp + j != 0
    requires batch.Arr? && i < j < |batch.items|
    requires !Truthy(ReadSelfStatus(SelfStateOf(batch.items[i])).lastEventTimestamp)
    requires !Truthy(ReadSelfStatus(SelfStateOf(batch.items[j])).lastEventTimestamp)
    ensures var r := MapConversations(batch, timestamp, parse);
      r.Ok? ==>
        && Lookup(r.value[i].props, LastEventTimestamp) == Num(timestamp + i)
        && Lookup(r.value[j].props, LastEventTimestamp) == Num(timestamp + j)
        && LessThan(Lookup(r.value[i].props, LastEventTimestamp), Lookup(r.value[j].props, LastEventTimestamp))
  {
    MapConversationsFallback(batch, timestamp, parse, i);
    MapConversationsFallback(batch, timestamp, parse, j);
  }

  /**
   * The fallback timestamp: when the self state leaves the last event
   * timestamp falsy and the fallback is truthy, the last event and last
   * server timestamps both take the fallback; otherwise both keep their
   * values.
   */
  lemma CompleteConversationFallback(p: map<Prop, Value>, data: Value, initialTimestamp: Value)
    ensures var r := CompleteConversation(p, data, initialTimestamp);
      var fallback := !Truthy(Lookup(p, LastEventTimestamp)) && Truthy(initialTimestamp);
      r.Ok? ==>
        && Lookup(r.value.props, LastEventTimestamp) == (if fallback then initialTimestamp else Lookup(p, LastEventTimestamp))
        && Lookup(r.value.props, LastServerTimestamp) == (if fallback then initialTimestamp else Lookup(p, LastServerTimestamp))
  {
    if ParticipantIds(data).Ok? {
      var ids := ParticipantIds(data).value;
      AccessAndReceiptProps(WithTeamAndGuest(WithFallbackTimestamp(p, initialTimestamp)[ParticipatingUserIds := ids], data), data);
    }
  }

  /**
   * What the payload sets after the self state: the participants, the
   * team id and guest flag when truthy, and the receipt mode as given.
   */
  lemma CompleteConversationPayload(p: map<Prop, Value>, data: Value, initialTimestamp: Value)
    ensures var r := CompleteConversation(p, data, initialTimestamp);
      r.Ok? ==>
        && Lookup(r.value.props, ParticipatingUserIds) == ParticipantIds(data).value
        && Lookup(r.value.props, TeamId) == (if Truthy(TeamIdOf(data)) then TeamIdOf(data) else Lookup(p, TeamId))
        && Lookup(r.value.props, IsGuest) == (if Truthy(Get(data, "is_guest")) then Get(data, "is_guest") else Lookup(p, IsGuest))
        && Lookup(r.value.props, ReceiptMode) == Get(data, "receipt_mode")
  {
    if ParticipantIds(data).Ok? {
      var ids := ParticipantIds(data).value;
      AccessAndReceiptProps(WithTeamAndGuest(WithFallbackTimestamp(p, initialTimestamp)[ParticipatingUserIds := ids], data), data);
    }
  }



  /** The properties the stages after the self state do not write keep their values. */
  lemma CompleteConversationKeeps(p: map<Prop, Value>, data: Value, initialTimestamp: Value, k: Prop)
    requires k !in {LastEventTimestamp, LastServerTimestamp, ParticipatingUserIds, TeamId, IsGuest, ReceiptMode}
    ensures var r := CompleteConversation(p, data, initialTimestamp);
      r.Ok? ==> Lookup(r.value.props, k) == Lookup(p, k)
  {
    if ParticipantIds(data).Ok? {
      var ids := ParticipantIds(data).value;
      AccessAndReceiptProps(WithTeamAndGuest(WithFallbackTimestamp(p, initialTimestamp)[ParticipatingUserIds := ids], data), data);
    }
  }

  /**
   * The access state is set exactly when the access modes and role are
   * both truthy, and then it is the decision for the team id and type the
   * entity holds by then.
   */
  lemma CompleteConversationAccess(p: map<Prop, Value>, data: Value, initialTimestamp: Value)
    ensures var r := CompleteConversation(p, data, initialTimestamp);
      r.Ok? ==>
        && (r.value.accessState.Some? <==> Truthy(AccessModesOf(data)) && Truthy(AccessRoleOf(data)))
        && (r.value.accessState.Some? ==>
              Ok(r.value.accessState.value) ==
                AccessStateOf(if Truthy(TeamIdOf(data)) then TeamIdOf(data) else Lookup(p, TeamId),
                              Lookup(p, Type), AccessModesOf(data), AccessRoleOf(data)))
  {
  }

  /** What the self state makes of a property the later stages leave alone is what the entity ends with. */
  lemma SelfStatusSurvives(p: map<Prop, Value>, s: SelfStatusFields, parse: DateParser, data: Value,
                           initialTimestamp: Value, k: Prop, current: Value)
    requires k !in {LastEventTimestamp, LastServerTimestamp, ParticipatingUserIds, TeamId, IsGuest, ReceiptMode}
    requires Lookup(p, k) == current
    ensures var r := CompleteConversation(ApplySelfStatus(p, s, parse), data, initialTimestamp);
      r.Ok? ==> Lookup(r.value.props, k) == SelfStatusValue(s, parse, k, current)
  {
    SelfStatusPerProperty(p, s, parse, k);
    CompleteConversationKeeps(ApplySelfStatus(p, s, parse), data, initialTimestamp, k);
  }

  /** The self state writes none of the fields set before it: the id, creator, type, roles and name. */
  lemma SelfThenCompleteBase(p: map<Prop, Value>, s: SelfStatusFields, parse: DateParser, data: Value,
                             initialTimestamp: Value)
    ensures var r := CompleteConversation(ApplySelfStatus(p, s, parse), data, initialTimestamp);
      r.Ok? ==>
        && Lookup(r.value.props, Id) == Lookup(p, Id)
        && Lookup(r.value.props, Creator) == Lookup(p, Creator)
        && Lookup(r.value.props, Type) == Lookup(p, Type)
        && Lookup(r.value.props, Roles) == Lookup(p, Roles)
        && Lookup(r.value.props, Name) == Lookup(p, Name)
  {
    SelfStatusSurvives(p, s, parse, data, initialTimestamp, Id, Lookup(p, Id));
    SelfStatusSurvives(p, s, parse, data, initialTimestamp, Creator, Lookup(p, Creator));
    SelfStatusSurvives(p, s, parse, data, initialTimestamp, Type, Lookup(p, Type));
    SelfStatusSurvives(p, s, parse, data, initialTimestamp, Roles, Lookup(p, Roles));
    SelfStatusSurvives(p, s, parse, data, initialTimestamp, Name, Lookup(p, Name));
  }

  /**
   * The participants, the team id and the receipt mode come from the
   * payload, the team id only when truthy (the self state does not write
   * it).
   */
  lemma SelfThenCompletePayload(p: map<Prop, Value>, s: SelfStatusFields, parse: DateParser, data: Value,
                                initialTimestamp: Value)
    ensures var r := CompleteConversation(ApplySelfStatus(p, s, parse), data, initialTimestamp);
      r.Ok? ==>
        && Lookup(r.value.props, ParticipatingUserIds) == ParticipantIds(data).value
        && Lookup(r.value.props, TeamId) == (if Truthy(TeamIdOf(data)) then TeamIdOf(data) else Lookup(p, TeamId))
        && Lookup(r.value.props, ReceiptMode) == Get(data, "receipt_mode")
  {
    SelfStatusPerProperty(p, s, parse, TeamId);
    CompleteConversationPayload(ApplySelfStatus(p, s, parse), data, initialTimestamp);
  }

  /** The access state decision sees the team id and type the self state leaves untouched. */
  lemma SelfThenCompleteAccess(p: map<Prop, Value>, s: SelfStatusFields, parse: DateParser, data: Value,
                               initialTimestamp: Value)
    ensures var r := CompleteConversation(ApplySelfStatus(p, s, parse), data, initialTimestamp);
      r.Ok? ==>
        && (r.value.accessState.Some? <==> Truthy(AccessModesOf(data)) && Truthy(AccessRoleOf(data)))
        && (r.value.accessState.Some? ==>
              Ok(r.value.accessState.value) ==
                AccessStateOf(if Truthy(TeamIdOf(data)) then TeamIdOf(data) else Lookup(p, TeamId),
                              Lookup(p, Type), AccessModesOf(data), AccessRoleOf(data)))
  {
    SelfStatusPerProperty(p, s, parse, TeamId);
    SelfStatusPerProperty(p, s, parse, Type);
    CompleteConversationAccess(ApplySelfStatus(p, s, parse), data, initialTimestamp);
  }

  /** The two timestamps on properties where neither was set before the self state. */
  lemma SelfThenCompleteTimestamps(p: map<Prop, Value>, s: SelfStatusFields, parse: DateParser, data: Value,
                                   initialTimestamp: Value)
    requires Lookup(p, LastEventTimestamp) == Undefined && Lookup(p, LastServerTimestamp) == Undefined
    ensures var r := CompleteConversation(ApplySelfStatus(p, s, parse), data, initialTimestamp);
      r.Ok? ==>
        && (Truthy(s.lastEventTimestamp) ==>
              Lookup(r.value.props, LastEventTimestamp) == s.lastEventTimestamp &&
              Lookup(r.value.props, LastServerTimestamp) == Or(s.lastServerTimestamp, Undefined))
        && (!Truthy(s.lastEventTimestamp) && Truthy(initialTimestamp) ==>
              Lookup(r.value.props, LastEventTimestamp) == initialTimestamp &&
              Lookup(r.value.props, LastServerTimestamp) == initialTimestamp)
        && (!Truthy(s.lastEventTimestamp) && !Truthy(initialTimestamp) ==>
              Lookup(r.value.props, LastEventTimestamp) == Undefined &&
              Lookup(r.value.props, LastServerTimestamp) == Or(s.lastServerTimestamp, Undefined))
  {
    SelfStatusPerProperty(p, s, parse, LastEventTimestamp);
    SelfStatusPerProperty(p, s, parse, LastServerTimestamp);
    CompleteConversationFallback(ApplySelfStatus(p, s, parse), data, initialTimestamp);
  }

  /** The entity built from a payload whose self state can be read. */
  lemma BuildConversationStages(data: Value, initialTimestamp: Value, parse: DateParser)
    ensures var r := BuildConversation(data, initialTimestamp, parse);
      r.Ok? ==>
        r == CompleteConversation(ApplySelfStatus(BaseProperties(data), ReadSelfStatus(SelfStateOf(data)), parse),
                                  data, initialTimestamp)
  {
  }

  /**
   * The fallback timestamp: when the self state leaves the last event
   * timestamp falsy and the fallback is truthy, both the last event and
   * the last server timestamp take it; otherwise they are what the self
   * state made them.
   */
  lemma BuildConversationTimestamps(data: Value, initialTimestamp: Value, parse: DateParser)
    ensures var r := BuildConversation(data, initialTimestamp, parse);
      var s := ReadSelfStatus(SelfStateOf(data));
      r.Ok? ==>
        && (Truthy(s.lastEventTimestamp) ==>
              Lookup(r.value.props, LastEventTimestamp) == s.lastEventTimestamp &&
              Lookup(r.value.props, LastServerTimestamp) == Or(s.lastServerTimestamp, Undefined))
        && (!Truthy(s.lastEventTimestamp) && Truthy(initialTimestamp) ==>
              Lookup(r.value.props, LastEventTimestamp) == initialTimestamp &&
              Lookup(r.value.props, LastServerTimestamp) == initialTimestamp)
        && (!Truthy(s.lastEventTimestamp) && !Truthy(initialTimestamp) ==>
              Lookup(r.value.props, LastEventTimestamp) == Undefined &&
              Lookup(r.value.props, LastServerTimestamp) == Or(s.lastServerTimestamp, Undefined))
  {
    BuildConversationStages(data, initialTimestamp, parse);
    BasePropertiesUnset(data, LastEventTimestamp);
    BasePropertiesUnset(data, LastServerTimestamp);
    SelfThenCompleteTimestamps(BaseProperties(data), ReadSelfStatus(SelfStateOf(data)), parse, data, initialTimestamp);
  }


  /**
   * The fields taken from the payload itself: id, creator and type as
   * given, roles defaulting to `{}`, name to "", the participants from
   * `others` when truthy and otherwise the ids of `members.others`, the
   * team id from `team_id` or `team` when truthy, and the receipt mode
   * from the payload, even where the self state carried one.
   */
  lemma BuildConversationFields(data: Value, initialTimestamp: Value, parse: DateParser)
    ensures var r := BuildConversation(data, initialTimestamp, parse);
      r.Ok? ==>
        && Lookup(r.value.props, Id) == Get(data, "id")
        && Lookup(r.value.props, Creator) == Get(data, "creator")
        && Lookup(r.value.props, Type) == Get(data, "type")
        && Lookup(r.value.props, Roles) == Or(Get(data, "roles"), Obj(map[]))
        && Lookup(r.value.props, Name) == Or(Get(data, "name"), Str(""))
        && Lookup(r.value.props, ParticipatingUserIds) == ParticipantIds(data).value
        && Lookup(r.value.props, TeamId) == (if Truthy(TeamIdOf(data)) then TeamIdOf(data) else Undefined)
        && Lookup(r.value.props, ReceiptMode) == Get(data, "receipt_mode")
  {
    BuildConversationStages(data, initialTimestamp, parse);
    BasePropertiesSet(data);
    BasePropertiesUnset(data, TeamId);
    SelfThenCompleteBase(BaseProperties(data), ReadSelfStatus(SelfStateOf(data)), parse, data, initialTimestamp);
    SelfThenCompletePayload(BaseProperties(data), ReadSelfStatus(SelfStateOf(data)), parse, data, initialTimestamp);
  }

  /**
   * The self-status fields other than the two timestamps the fallback may
   * set and the receipt mode the payload sets: what updateSelfStatus makes
   * of them on a new entity.
   */
  lemma BuildConversationSelfStatus(data: Value, initialTimestamp: Value, parse: DateParser, k: Prop)
    requires k in SelfStatusTargets && k !in {LastEventTimestamp, LastServerTimestamp, ReceiptMode}
    ensures var r := BuildConversation(data, initialTimestamp, parse);
      r.Ok? ==> Lookup(r.value.props, k) == SelfStatusValue(ReadSelfStatus(SelfStateOf(data)), parse, k, Undefined)
  {
    BuildConversationStages(data, initialTimestamp, parse);
    BasePropertiesUnset(data, k);
    SelfStatusSurvives(BaseProperties(data), ReadSelfStatus(SelfStateOf(data)), parse, data, initialTimestamp, k, Undefined);
  }

  /**
   * The access state is set exactly when the access modes and role are
   * both truthy, and then it is the decision for the payload's team id and
   * type; it is a team state exactly when the payload names a team.
   */
  lemma BuildConversationAccess(data: Value, initialTimestamp: Value, parse: DateParser)
    ensures var r := BuildConversation(data, initialTimestamp, parse);
      r.Ok? ==>
        && (r.value.accessState.Some? <==> Truthy(AccessModesOf(data)) && Truthy(AccessRoleOf(data)))
        && (r.value.accessState.Some? ==>
              Ok(r.value.accessState.value) ==
                AccessStateOf(if Truthy(TeamIdOf(data)) then TeamIdOf(data) else Undefined, Get(data, "type"),
                              AccessModesOf(data), AccessRoleOf(data)) &&
              (r.value.accessState.value.IsTeamState() <==> Truthy(TeamIdOf(data))))
  {
    BuildConversationStages(data, initialTimestamp, parse);
    BasePropertiesSet(data);
    BasePropertiesUnset(data, TeamId);
    SelfThenCompleteAccess(BaseProperties(data), ReadSelfStatus(SelfStateOf(data)), parse, data, initialTimestamp);
  }

  /**
   * Completion succeeds exactly when the participants can be read and, if
   * the access modes and role are both truthy, the access-state decision
   * for the team id and type held by then does not throw.
   */
  lemma CompleteConversationSucceeds(p: map<Prop, Value>, data: Value, initialTimestamp: Value)
    ensures CompleteConversation(p, data, initialTimestamp).Ok? <==>
              && ParticipantIds(data).Ok?
              && (Truthy(AccessModesOf(data)) && Truthy(AccessRoleOf(data)) ==>
                    AccessStateOf(if Truthy(TeamIdOf(data)) then TeamIdOf(data) else Lookup(p, TeamId),
                                  Lookup(p, Type), AccessModesOf(data), AccessRoleOf(data)).Ok?)
  {
    if ParticipantIds(data).Ok? {
      var withTimestamps := WithFallbackTimestamp(p, initialTimestamp);
      var q := WithTeamAndGuest(withTimestamps[ParticipatingUserIds := ParticipantIds(data).value], data);
      assert Lookup(q, Type) == Lookup(p, Type);
      assert Lookup(q, TeamId) == (if Truthy(TeamIdOf(data)) then TeamIdOf(data) else Lookup(p, TeamId));
    }
  }

  /**
   * Whatever the self state writes, the later steps succeed exactly when
   * the payload Completes: updateSelfStatus leaves alone the team id and
   * type the access decision reads.
   */
  lemma SelfThenCompleteSucceeds(p: map<Prop, Value>, s: SelfStatusFields, parse: DateParser, data: Value,
                                 initialTimestamp: Value)
    requires Lookup(p, TeamId) == Undefined && Lookup(p, Type) == Get(data, "type")
    ensures CompleteConversation(ApplySelfStatus(p, s, parse), data, initialTimestamp).Ok? <==> Completes(data)
  {
    SelfStatusPerProperty(p, s, parse, TeamId);
    SelfStatusPerProperty(p, s, parse, Type);
    CompleteConversationSucceeds(ApplySelfStatus(p, s, parse), data, initialTimestamp);
  }

  /**
   * When a payload builds: exactly the Buildable ones do, whatever the
   * initial timestamp; a keyed payload that is not Buildable throws a
   * TypeError.
   */
  lemma BuildConversationSucceeds(data: Value, initialTimestamp: Value, parse: DateParser)
    ensures var r := BuildConversation(data, initialTimestamp, parse);
      && (r.Ok? <==> Buildable(data))
      && (r == Err(TypeError) <==> HasKeys(data) && !Buildable(data))
  {
    if HasKeys(data) && !Nullish(SelfStateOf(data)) {
      BasePropertiesSet(data);
      BasePropertiesUnset(data, TeamId);
      SelfThenCompleteSucceeds(BaseProperties(data), ReadSelfStatus(SelfStateOf(data)), parse, data, initialTimestamp);
    }
  }

  /** The indexed map succeeds exactly when every item passes a test that decides its call, whatever the index. */
  lemma MapIndexedSucceeds<T>(items: seq<Value>, start: int, f: (Value, int) -> Result<T, MapperError>,
                              ok: Value -> bool)
    requires forall i | 0 <= i < |items| :: f(items[i], start + i).Ok? == ok(items[i])
    ensures MapIndexed(items, start, f).Ok? <==> forall i | 0 <= i < |items| :: ok(items[i])
  {
    MapIndexedElementwise(items, start, f);
  }

  /** A call of the batch callback succeeds exactly on a Buildable payload, whatever its timestamp. */
  lemma BuildAtSucceeds(item: Value, t: int, parse: DateParser)
    ensures BuildAt(parse)(item, t).Ok? == Buildable(item)
  {
    BuildConversationSucceeds(item, Num(t), parse);
  }

  /**
   * A non-empty batch maps exactly when every payload in it is Buildable,
   * so then it yields one entity per payload.
   */
  lemma MapConversationsSucceeds(batch: Value, timestamp: int, parse: DateParser)
    requires batch.Arr? && batch.items != []
    ensures var r := MapConversations(batch, timestamp, parse);
      && (r.Ok? <==> forall i | 0 <= i < |batch.items| :: Buildable(batch.items[i]))
      && (r.Ok? ==> |r.value| == |batch.items|)
  {
    forall i | 0 <= i < |batch.items|
      ensures BuildAt(parse)(batch.items[i], timestamp + i).Ok? == Buildable(batch.items[i])
    {
      BuildAtSucceeds(batch.items[i], timestamp + i, parse);
    }
    MapIndexedSucceeds(batch.items, timestamp, BuildAt(parse), Buildable);
  }
}
