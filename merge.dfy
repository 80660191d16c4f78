/**
 * mergeConversation: reconciling the conversation records kept in the
 * local database with the conversation payloads the backend sends. Each
 * remote payload yields one merged record (a plain object, held as its map
 * of own properties): the local record with the same id, overlaid with
 * the fields the backend is authoritative for, then patched so that the
 * participants, the timestamps and the archived and muted settings are
 * consistent.
 */
module Merge {
  import opened Wrappers
  import opened JsValue
  import opened ConversationEnums
  import opened MutedStateMapping

  /** A merged conversation record: its own properties by name. */
  type Record = map<string, Value>

  // ---------------------------------------------------------------------
  // Specification, stage by stage
  // ---------------------------------------------------------------------

  /** `localConversations.filter(data => data)` */
  function LiveLocals(locals: seq<Value>): (r: seq<Value>)
    ensures |r| <= |locals|
    ensures forall v :: v in r <==> v in locals && Truthy(v)
    decreases |locals|
  {
    if locals == [] then []
    else
      var kept := LiveLocals(locals[..|locals| - 1]);
      var last := locals[|locals| - 1];
      assert locals == locals[..|locals| - 1] + [last];
      if Truthy(last) then kept + [last] else kept
  }

  /** Filtering keeps order and multiplicity: the filter of a concatenation is the concatenation of the filters. */
  lemma {:induction false} LiveLocalsAppend(a: seq<Value>, b: seq<Value>)
    ensures LiveLocals(a + b) == LiveLocals(a) + LiveLocals(b)
    decreases |b|
  {
    if b == [] {
      assert a + b == a;
    } else {
      var front := b[..|b| - 1];
      var last := b[|b| - 1];
      assert (a + b)[..|a + b| - 1] == a + front;
      assert (a + b)[|a + b| - 1] == last;
      LiveLocalsAppend(a, front);
      if Truthy(last) {
        assert LiveLocals(a) + LiveLocals(front) + [last] == LiveLocals(a) + (LiveLocals(front) + [last]);
      }
    }
  }

  /** The local record `find(({id}) => id === conversationId)` picks: `({id})` reads `id` of the record. */
  predicate HasId(local: Value, id: Value) {
    StrictEquals(Get(local, "id"), id)
  }

  /** `locals.find(({id}) => id === conversationId)`: the first record with that id. */
  function FindLocal(locals: seq<Value>, id: Value): (r: Option<Value>)
    ensures r.Some? ==> exists i :: 0 <= i < |locals| && locals[i] == r.value && HasId(r.value, id) &&
                          forall j :: 0 <= j < i ==> !HasId(locals[j], id)
    ensures r.None? <==> forall i :: 0 <= i < |locals| ==> !HasId(locals[i], id)
    decreases |locals|
  {
    if locals == [] then None
    else if HasId(locals[0], id) then Some(locals[0])
    else
      var r := FindLocal(locals[1..], id);
      if r.Some? then
        ghost var i :| 0 <= i < |locals[1..]| && locals[1..][i] == r.value && HasId(r.value, id) &&
                       forall j :: 0 <= j < i ==> !HasId(locals[1..][j], id);
        assert locals[i + 1] == r.value;
        assert forall j :: 0 <= j < i + 1 ==> !HasId(locals[j], id) by {
          forall j | 0 <= j < i + 1 ensures !HasId(locals[j], id) {
            if j > 0 { assert locals[j] == locals[1..][j - 1]; }
          }
        }
        r
      else
        assert forall i :: 0 <= i < |locals| ==> !HasId(locals[i], id) by {
          forall i | 0 <= i < |locals| ensures !HasId(locals[i], id) {
            if i > 0 { assert locals[i] == locals[1..][i - 1]; }
          }
        }
        r
  }

  /** Position j holds the first truthy local record, in input order, whose id is strictly equal to `id`. */
  predicate FirstLiveWithId(locals: seq<Value>, id: Value, j: int) {
    && 0 <= j < |locals| && Truthy(locals[j]) && HasId(locals[j], id)
    && forall j' :: 0 <= j' < j ==> !(Truthy(locals[j']) && HasId(locals[j'], id))
  }

  /**
   * Searching the filtered records is searching the original ones for the
   * first truthy record with the id; there is none exactly when no truthy
   * record has it.
   */
  lemma {:induction false} FindLiveFirst(locals: seq<Value>, id: Value)
    ensures var r := FindLocal(LiveLocals(locals), id);
      && (r.Some? ==> exists j :: FirstLiveWithId(locals, id, j) && r.value == locals[j])
      && (r.None? <==> forall j :: 0 <= j < |locals| ==> !(Truthy(locals[j]) && HasId(locals[j], id)))
    decreases |locals|
  {
    if locals != [] {
      var first := locals[0];
      var rest := locals[1..];
      FindLiveFirst(rest, id);
      LiveLocalsCons(first, rest);
      assert locals == [first] + rest;
      var r := FindLocal(LiveLocals(locals), id);
      if Truthy(first) && HasId(first, id) {
        FindLocalCons(first, LiveLocals(rest), id);
        assert FirstLiveWithId(locals, id, 0);
      } else {
        if Truthy(first) { FindLocalCons(first, LiveLocals(rest), id); }
        assert r == FindLocal(LiveLocals(rest), id);
        NoLiveShift(first, rest, id);
        if r.Some? {
          var j :| FirstLiveWithId(rest, id, j) && r.value == rest[j];
          FirstLiveShift(first, rest, id, j);
        }
      }
    }
  }

  /** The filter of a record followed by others. */
  lemma LiveLocalsCons(first: Value, rest: seq<Value>)
    ensures LiveLocals([first] + rest) == if Truthy(first) then [first] + LiveLocals(rest) else LiveLocals(rest)
  {
    LiveLocalsAppend([first], rest);
    assert [first][..0] == [];
  }

  /** The search of a record followed by others. */
  lemma FindLocalCons(first: Value, rest: seq<Value>, id: Value)
    ensures FindLocal([first] + rest, id) == if HasId(first, id) then Some(first) else FindLocal(rest, id)
  {
    assert ([first] + rest)[1..] == rest;
  }

  /** The first truthy record with the id among the rest is the first in the whole list when the head is not one. */
  lemma FirstLiveShift(first: Value, rest: seq<Value>, id: Value, j: int)
    requires !(Truthy(first) && HasId(first, id)) && FirstLiveWithId(rest, id, j)
    ensures FirstLiveWithId([first] + rest, id, j + 1) && ([first] + rest)[j + 1] == rest[j]
  {
    var locals := [first] + rest;
    forall j' | 0 <= j' < j + 1 ensures !(Truthy(locals[j']) && HasId(locals[j'], id)) {
      if j' > 0 { assert locals[j'] == rest[j' - 1]; }
    }
  }

  /** No truthy record with the id among the rest, nor at the head, means none in the whole list. */
  lemma NoLiveShift(first: Value, rest: seq<Value>, id: Value)
    requires !(Truthy(first) && HasId(first, id))
    ensures (forall j :: 0 <= j < |rest| ==> !(Truthy(rest[j]) && HasId(rest[j], id))) <==>
            (forall j :: 0 <= j < |[first] + rest| ==> !(Truthy(([first] + rest)[j]) && HasId(([first] + rest)[j], id)))
  {
    var locals := [first] + rest;
    assert forall j :: 0 <= j < |rest| ==> locals[j + 1] == rest[j];
    if forall j :: 0 <= j < |rest| ==> !(Truthy(rest[j]) && HasId(rest[j], id)) {
      forall j | 0 <= j < |locals| ensures !(Truthy(locals[j]) && HasId(locals[j], id)) {
        if j > 0 { assert locals[j] == rest[j - 1]; }
      }
    }
  }

  /** `find(...) || {id: conversationId}`: the local record, or a stub holding only the id. */
  function LocalFor(locals: seq<Value>, id: Value): Value {
    match FindLocal(locals, id)
    case Some(local) => local
    case None => Obj(map["id" := id])
  }

  /**
   * The role map starts with the self member's role, keyed by its id, when
   * that role is truthy (the map is empty, so the `in` test always passes).
   */
  function SelfRoles(self: Value): map<string, Value> {
    var role := Get(self, "conversation_role");
    if Truthy(role) then map[ToPropertyKey(Get(self, "id")) := role] else map[]
  }

  /**
   * One other member's step: reading its role throws when it is null or
   * undefined; a truthy role is recorded under the member's id unless the
   * ROLE STRING is already a key of the map.
   */
  function AddRole(roles: map<string, Value>, other: Value): (r: Result<map<string, Value>, MapperError>)
    ensures r.Err? <==> Nullish(other)
    ensures r.Err? ==> r.error == TypeError
  {
    if Nullish(other) then Err(TypeError)
    else
      var role := Get(other, "conversation_role");
      if Truthy(role) && ToPropertyKey(role) !in roles then Ok(roles[ToPropertyKey(Get(other, "id")) := role])
      else Ok(roles)
  }

  /** `othersStates.map(other => { ... })`, run for its effect on the role map. */
  function RolesAfter(roles: map<string, Value>, others: seq<Value>): (r: Result<map<string, Value>, MapperError>)
    ensures r.Err? <==> exists i :: 0 <= i < |others| && Nullish(others[i])
    ensures r.Err? ==> r.error == TypeError
    decreases |others|
  {
    if others == [] then Ok(roles)
    else
      var prefix := others[..|others| - 1];
      match RolesAfter(roles, prefix)
      case Err(e) =>
        ghost var i :| 0 <= i < |prefix| && Nullish(prefix[i]);
        assert others[i] == prefix[i];
        Err(e)
      case Ok(rs) =>
        assert forall i :: 0 <= i < |others| - 1 ==> others[i] == prefix[i];
        AddRole(rs, others[|others| - 1])
  }

  /** The role map of `updates.roles`; `othersStates.map` throws unless the others are an array. */
  function RolesOf(self: Value, others: Value): (r: Result<map<string, Value>, MapperError>)
    ensures r.Err? ==> r.error == TypeError
  {
    if !others.Arr? then Err(TypeError) else RolesAfter(SelfRoles(self), others.items)
  }

  /** The names of the fields the backend is authoritative for. */
  const UpdateKeys: set<string> :=
    {"accessModes", "accessRole", "creator", "message_timer", "name", "receipt_mode", "roles", "status", "team_id", "type"}

  /**
   * The `updates` object: the backend's fields under the record's names,
   * the role map and the self member's status, with the receipt mode
   * replaced by the local one when that is a number.
   */
  function Updates(remote: Value, self: Value, roles: map<string, Value>, local: Value): Record {
    var localReceipt := Get(local, "receipt_mode");
    map[
      "accessModes" := Get(remote, "access"),
      "accessRole" := Get(remote, "access_role"),
      "creator" := Get(remote, "creator"),
      "message_timer" := Get(remote, "message_timer"),
      "name" := Get(remote, "name"),
      "receipt_mode" := if IsNumber(localReceipt) then localReceipt else Get(remote, "receipt_mode"),
      "roles" := Obj(roles),
      "status" := Get(self, "status"),
      "team_id" := Get(remote, "team"),
      "type" := Get(remote, "type")
    ]
  }

  /** `otherStates.filter(o => o.status === CURRENT_MEMBER).map(o => o.id)` */
  function CurrentMemberIds(others: seq<Value>): (r: seq<Value>)
    ensures |r| <= |others|
    ensures forall id :: id in r <==> exists j :: 0 <= j < |others| && IsCurrentMember(others[j]) && Get(others[j], "id") == id
    decreases |others|
  {
    if others == [] then []
    else
      var prefix := others[..|others| - 1];
      var ids := CurrentMemberIds(prefix);
      var last := others[|others| - 1];
      assert forall j :: 0 <= j < |prefix| ==> others[j] == prefix[j];
      if IsCurrentMember(last) then ids + [Get(last, "id")] else ids
  }

  /** The ids keep the members' order and multiplicity: the ids of a concatenation are the concatenation of the ids. */
  lemma {:induction false} CurrentMemberIdsAppend(a: seq<Value>, b: seq<Value>)
    ensures CurrentMemberIds(a + b) == CurrentMemberIds(a) + CurrentMemberIds(b)
    decreases |b|
  {
    if b == [] {
      assert a + b == a;
    } else {
      var front := b[..|b| - 1];
      var last := b[|b| - 1];
      assert (a + b)[..|a + b| - 1] == a + front;
      assert (a + b)[|a + b| - 1] == last;
      CurrentMemberIdsAppend(a, front);
      if IsCurrentMember(last) {
        assert CurrentMemberIds(a) + CurrentMemberIds(front) + [Get(last, "id")]
            == CurrentMemberIds(a) + (CurrentMemberIds(front) + [Get(last, "id")]);
      }
    }
  }

  predicate IsCurrentMember(other: Value) {
    StrictEquals(Get(other, "status"), Num(CURRENT_MEMBER))
  }

  /** `!merged.others || !merged.others.length` */
  predicate NoOthers(merged: Record) {
    var others := Lookup(merged, "others");
    !Truthy(others) || !Truthy(Get(others, "length"))
  }

  /** Group conversations, and records without participants, take the current members from the backend. */
  function WithOthers(merged: Record, remote: Value, others: seq<Value>): Record {
    if StrictEquals(Get(remote, "type"), Num(GROUP)) || NoOthers(merged)
    then merged["others" := Arr(CurrentMemberIds(others))]
    else merged
  }

  /**
   * A falsy last event timestamp becomes the position plus one; a falsy
   * last server timestamp, or one below the last event timestamp, becomes
   * the last event timestamp.
   */
  function WithTimestamps(merged: Record, index: nat): Record {
    var withEvent :=
      if !Truthy(Lookup(merged, "last_event_timestamp"))
      then merged["last_event_timestamp" := Num(index + 1)]
      else merged;
    var event := Lookup(withEvent, "last_event_timestamp");
    var server := Lookup(withEvent, "last_server_timestamp");
    if !Truthy(server) || LessThan(server, event)
    then withEvent["last_server_timestamp" := event]
    else withEvent
  }

  /** `localTimestamp !== undefined && remoteTimestamp > localTimestamp` */
  predicate RemoteNewer(localTimestamp: Value, remoteTimestamp: Value) {
    localTimestamp != Undefined && LessThan(localTimestamp, remoteTimestamp)
  }

  /**
   * Whether the backend's archived (or muted) setting is taken: its time is
   * newer than the local one, or the local record has no state. A backend
   * time that is NaN is never newer, so then only a missing local state
   * lets it in.
   */
  predicate AdoptRemote(localState: Value, localTimestamp: Value, remoteTimestamp: Value): (adopt: bool)
    ensures remoteTimestamp == NaN ==> (adopt <==> localState == Undefined)
  {
    RemoteNewer(localTimestamp, remoteTimestamp) || localState == Undefined
  }

  /**
   * The backend's archived flag and time are taken when they are newer
   * than the local time, or when the local record has no archived state.
   */
  function WithArchived(merged: Record, local: Value, self: Value, parse: DateParser): Record {
    var remoteTimestamp := DateTime(parse, Get(self, "otr_archived_ref"));
    if AdoptRemote(Get(local, "archived_state"), Get(local, "archived_timestamp"), remoteTimestamp)
    then merged["archived_state" := Get(self, "otr_archived")]["archived_timestamp" := remoteTimestamp]
    else merged
  }

  /** The same for the muted setting, whose state is recomputed by getMutedState. */
  function WithMuted(merged: Record, local: Value, self: Value, parse: DateParser): Record {
    var remoteTimestamp := DateTime(parse, Get(self, "otr_muted_ref"));
    if AdoptRemote(Get(local, "muted_state"), Get(local, "muted_timestamp"), remoteTimestamp)
    then merged["muted_state" := GetMutedState(Get(self, "otr_muted"), Get(self, "otr_muted_status"))]
               ["muted_timestamp" := remoteTimestamp]
    else merged
  }

  /** `{...local, ...updates}`: every key of `updates` wins, even with an undefined value. */
  function Spread(local: Value, updates: Record): Record {
    OwnEntries(local) + updates
  }

  /** The patches after the spread, in the order they are made. */
  function Patched(spread: Record, remote: Value, others: seq<Value>, index: nat, local: Value, self: Value,
                   parse: DateParser): Record {
    WithMuted(WithArchived(WithTimestamps(WithOthers(spread, remote, others), index), local, self, parse),
              local, self, parse)
  }

  /** The record merged from the local record, the `updates` object and the remote payload's members. */
  function MergedFrom(local: Value, remote: Value, self: Value, updates: Record, others: seq<Value>,
                      index: nat, parse: DateParser): Record {
    Patched(Spread(local, updates), remote, others, index, local, self, parse)
  }

  /**
   * The merged record for the remote payload at `index`, or the TypeError
   * the callback throws: reading `id` of a null or undefined payload,
   * destructuring null or undefined `members`, reading `status` of a null
   * or undefined self member, or building the role map.
   */
  function MergeRecord(locals: seq<Value>, remote: Value, index: nat, parse: DateParser)
    : (r: Result<Record, MapperError>)
    ensures r.Err? ==> r.error == TypeError
    ensures r.Err? <==>
      || Nullish(remote)
      || Nullish(Get(remote, "members"))
      || Nullish(Get(Get(remote, "members"), "self"))
      || !Get(Get(remote, "members"), "others").Arr?
      || exists i :: 0 <= i < |Get(Get(remote, "members"), "others").items| &&
                     Nullish(Get(Get(remote, "members"), "others").items[i])
  {
    if Nullish(remote) then Err(TypeError)
    else
      var local := LocalFor(locals, Get(remote, "id"));
      var members := Get(remote, "members");
      if Nullish(members) then Err(TypeError)
      else
        var self := Get(members, "self");
        var others := Get(members, "others");
        if Nullish(self) then Err(TypeError)
        else
          match RolesOf(self, others)
          case Err(e) => Err(e)
          case Ok(roles) =>
            Ok(MergedFrom(local, remote, self, Updates(remote, self, roles, local), others.items, index, parse))
  }

  /** `items.map((item, index) => f(item, index))`, where a throw in any call ends the map. */
  function MapWithIndex<T>(items: seq<Value>, f: (Value, nat) -> Result<T, MapperError>): (r: Result<seq<T>, MapperError>)
    ensures r.Ok? ==> |r.value| == |items|
    decreases |items|
  {
    if items == [] then Ok([])
    else
      match MapWithIndex(items[..|items| - 1], f)
      case Err(e) => Err(e)
      case Ok(mapped) =>
        match f(items[|items| - 1], |items| - 1)
        case Err(e) => Err(e)
        case Ok(value) => Ok(mapped + [value])
  }

  /** The map callback of the merge, over the live local records. */
  function MergeAt(locals: seq<Value>, parse: DateParser): (Value, nat) -> Result<Record, MapperError> {
    (remote: Value, index: nat) => MergeRecord(locals, remote, index, parse)
  }

  /** `remotes.map((remote, index) => ...)` over the live local records; the first throw wins. */
  function MergeAll(locals: seq<Value>, remotes: seq<Value>, parse: DateParser)
    : (r: Result<seq<Record>, MapperError>)
    ensures r.Ok? ==> |r.value| == |remotes|
  {
    MapWithIndex(remotes, MergeAt(locals, parse))
  }

  /**
   * mergeConversation(localConversations, remoteConversations): both must
   * be arrays (`filter` and `map` are called on them).
   */
  function MergeConversations(locals: Value, remotes: Value, parse: DateParser)
    : (r: Result<seq<Record>, MapperError>)
    ensures r.Err? ==> r.error == TypeError
    ensures r.Ok? ==> remotes.Arr? && |r.value| == |remotes.items|
  {
    if !locals.Arr? || !remotes.Arr? then Err(TypeError)
    else
      MergeAllElementwise(LiveLocals(locals.items), remotes.items, parse);
      MergeAll(LiveLocals(locals.items), remotes.items, parse)
  }

  // ---------------------------------------------------------------------
  // What the patches after the spread do
  // ---------------------------------------------------------------------

  /** The properties the patches may write. */
  const PatchedKeys: set<string> :=
    {"others", "last_event_timestamp", "last_server_timestamp",
     "archived_state", "archived_timestamp", "muted_state", "muted_timestamp"}

  /** The patches write only their own properties; everything else keeps its spread value and presence. */
  lemma PatchedKeeps(spread: Record, remote: Value, others: seq<Value>, index: nat, local: Value, self: Value,
                     parse: DateParser, k: string)
    requires k !in PatchedKeys
    ensures k in Patched(spread, remote, others, index, local, self, parse) <==> k in spread
    ensures Lookup(Patched(spread, remote, others, index, local, self, parse), k) == Lookup(spread, k)
  {
    var withOthers := WithOthers(spread, remote, others);
    var withTimestamps := WithTimestamps(withOthers, index);
    var withArchived := WithArchived(withTimestamps, local, self, parse);
    OthersKeeps(spread, remote, others, k);
    TimestampsKeep(withOthers, index, k);
    ArchivedKeeps(withTimestamps, local, self, parse, k);
    MutedKeeps(withArchived, local, self, parse, k);
  }

  /** The participants patch leaves every other property alone. */
  lemma OthersKeeps(m: Record, remote: Value, others: seq<Value>, k: string)
    requires k != "others"
    ensures k in WithOthers(m, remote, others) <==> k in m
    ensures Lookup(WithOthers(m, remote, others), k) == Lookup(m, k)
  {
  }

  /** The timestamp patch leaves every other property alone. */
  lemma TimestampsKeep(m: Record, index: nat, k: string)
    requires k != "last_event_timestamp" && k != "last_server_timestamp"
    ensures k in WithTimestamps(m, index) <==> k in m
    ensures Lookup(WithTimestamps(m, index), k) == Lookup(m, k)
  {
  }

  /** The archived reconciliation leaves every other property alone. */
  lemma ArchivedKeeps(m: Record, local: Value, self: Value, parse: DateParser, k: string)
    requires k != "archived_state" && k != "archived_timestamp"
    ensures k in WithArchived(m, local, self, parse) <==> k in m
    ensures Lookup(WithArchived(m, local, self, parse), k) == Lookup(m, k)
  {
  }

  /** No field of `updates` is one the patches write. */
  lemma UpdateKeysUnpatched(k: string)
    requires k in UpdateKeys
    ensures k !in PatchedKeys
  {
  }

  /**
   * After the patches the last event timestamp is truthy (the spread one,
   * or the position plus one), and the last server timestamp is truthy and
   * not below it: it is raised to the last event timestamp when falsy or
   * smaller, and otherwise kept.
   */
  lemma PatchedTimestamps(spread: Record, remote: Value, others: seq<Value>, index: nat, local: Value, self: Value,
                          parse: DateParser)
    ensures var r := Patched(spread, remote, others, index, local, self, parse);
      var event := Lookup(r, "last_event_timestamp");
      var server := Lookup(r, "last_server_timestamp");
      var spreadEvent := Lookup(spread, "last_event_timestamp");
      var spreadServer := Lookup(spread, "last_server_timestamp");
      && event == (if Truthy(spreadEvent) then spreadEvent else Num(index + 1))
      && server == (if !Truthy(spreadServer) || LessThan(spreadServer, event) then event else spreadServer)
      && Truthy(event) && Truthy(server) && !LessThan(server, event)
  {
    var withOthers := WithOthers(spread, remote, others);
    var withTimestamps := WithTimestamps(withOthers, index);
    var withArchived := WithArchived(withTimestamps, local, self, parse);
    var r := WithMuted(withArchived, local, self, parse);
    assert Lookup(withOthers, "last_event_timestamp") == Lookup(spread, "last_event_timestamp");
    assert Lookup(withOthers, "last_server_timestamp") == Lookup(spread, "last_server_timestamp");
    TimestampsFixed(withOthers, index);
    ArchivedMutedKeep(withTimestamps, local, self, parse, "last_event_timestamp");
    ArchivedMutedKeep(withTimestamps, local, self, parse, "last_server_timestamp");
  }

  /** The timestamp fix on its own. */
  lemma TimestampsFixed(m: Record, index: nat)
    ensures var r := WithTimestamps(m, index);
      var event := Lookup(r, "last_event_timestamp");
      var server := Lookup(r, "last_server_timestamp");
      var oldEvent := Lookup(m, "last_event_timestamp");
      var oldServer := Lookup(m, "last_server_timestamp");
      && event == (if Truthy(oldEvent) then oldEvent else Num(index + 1))
      && server == (if !Truthy(oldServer) || LessThan(oldServer, event) then event else oldServer)
      && Truthy(event) && Truthy(server) && !LessThan(server, event)
  {
    var withEvent :=
      if !Truthy(Lookup(m, "last_event_timestamp"))
      then m["last_event_timestamp" := Num(index + 1)]
      else m;
    assert Lookup(withEvent, "last_server_timestamp") == Lookup(m, "last_server_timestamp");
  }

  /** The archived and muted reconciliation leave every other property alone. */
  lemma ArchivedMutedKeep(m: Record, local: Value, self: Value, parse: DateParser, k: string)
    requires k !in {"archived_state", "archived_timestamp", "muted_state", "muted_timestamp"}
    ensures Lookup(WithMuted(WithArchived(m, local, self, parse), local, self, parse), k) == Lookup(m, k)
  {
  }

  /**
   * A group conversation, or a record whose `others` is falsy or empty,
   * gets the ids of the remote members with status CURRENT_MEMBER;
   * otherwise `others` keeps its spread value.
   */
  lemma PatchedOthers(spread: Record, remote: Value, others: seq<Value>, index: nat, local: Value, self: Value,
                      parse: DateParser)
    ensures Lookup(Patched(spread, remote, others, index, local, self, parse), "others") ==
              if StrictEquals(Get(remote, "type"), Num(GROUP)) || NoOthers(spread)
              then Arr(CurrentMemberIds(others))
              else Lookup(spread, "others")
  {
    var withOthers := WithOthers(spread, remote, others);
    var withTimestamps := WithTimestamps(withOthers, index);
    var withArchived := WithArchived(withTimestamps, local, self, parse);
    assert Lookup(withTimestamps, "others") == Lookup(withOthers, "others");
    assert Lookup(withArchived, "others") == Lookup(withTimestamps, "others");
  }

  /** The participants and timestamp patches leave every other property alone. */
  lemma OthersTimestampsKeep(m: Record, remote: Value, others: seq<Value>, index: nat, k: string)
    requires k !in {"others", "last_event_timestamp", "last_server_timestamp"}
    ensures Lookup(WithTimestamps(WithOthers(m, remote, others), index), k) == Lookup(m, k)
  {
    var withOthers := WithOthers(m, remote, others);
    assert Lookup(withOthers, k) == Lookup(m, k);
  }

  /**
   * The archived flag and time are the backend's exactly when AdoptRemote
   * holds for the local ones; otherwise both keep their spread values.
   */
  lemma PatchedArchived(spread: Record, remote: Value, others: seq<Value>, index: nat, local: Value, self: Value,
                        parse: DateParser)
    ensures var r := Patched(spread, remote, others, index, local, self, parse);
      var remoteTimestamp := DateTime(parse, Get(self, "otr_archived_ref"));
      if AdoptRemote(Get(local, "archived_state"), Get(local, "archived_timestamp"), remoteTimestamp) then
        Lookup(r, "archived_state") == Get(self, "otr_archived") && Lookup(r, "archived_timestamp") == remoteTimestamp
      else
        Lookup(r, "archived_state") == Lookup(spread, "archived_state") &&
        Lookup(r, "archived_timestamp") == Lookup(spread, "archived_timestamp")
  {
    var withTimestamps := WithTimestamps(WithOthers(spread, remote, others), index);
    OthersTimestampsKeep(spread, remote, others, index, "archived_state");
    OthersTimestampsKeep(spread, remote, others, index, "archived_timestamp");
    ArchivedReconciled(withTimestamps, local, self, parse);
    var withArchived := WithArchived(withTimestamps, local, self, parse);
    assert Patched(spread, remote, others, index, local, self, parse) == WithMuted(withArchived, local, self, parse);
    MutedKeeps(withArchived, local, self, parse, "archived_state");
    MutedKeeps(withArchived, local, self, parse, "archived_timestamp");
  }

  /** The archived reconciliation on its own. */
  lemma ArchivedReconciled(m: Record, local: Value, self: Value, parse: DateParser)
    ensures var r := WithArchived(m, local, self, parse);
      var remoteTimestamp := DateTime(parse, Get(self, "otr_archived_ref"));
      if AdoptRemote(Get(local, "archived_state"), Get(local, "archived_timestamp"), remoteTimestamp) then
        Lookup(r, "archived_state") == Get(self, "otr_archived") && Lookup(r, "archived_timestamp") == remoteTimestamp
      else
        Lookup(r, "archived_state") == Lookup(m, "archived_state") &&
        Lookup(r, "archived_timestamp") == Lookup(m, "archived_timestamp")
  {
  }

  /** The muted reconciliation on its own. */
  lemma MutedReconciled(m: Record, local: Value, self: Value, parse: DateParser)
    ensures var r := WithMuted(m, local, self, parse);
      var remoteTimestamp := DateTime(parse, Get(self, "otr_muted_ref"));
      if AdoptRemote(Get(local, "muted_state"), Get(local, "muted_timestamp"), remoteTimestamp) then
        Lookup(r, "muted_state") == GetMutedState(Get(self, "otr_muted"), Get(self, "otr_muted_status")) &&
        Lookup(r, "muted_timestamp") == remoteTimestamp
      else
        Lookup(r, "muted_state") == Lookup(m, "muted_state") &&
        Lookup(r, "muted_timestamp") == Lookup(m, "muted_timestamp")
  {
  }

  /** The muted reconciliation leaves every other property alone. */
  lemma MutedKeeps(m: Record, local: Value, self: Value, parse: DateParser, k: string)
    requires k != "muted_state" && k != "muted_timestamp"
    ensures k in WithMuted(m, local, self, parse) <==> k in m
    ensures Lookup(WithMuted(m, local, self, parse), k) == Lookup(m, k)
  {
  }


  /**
   * The muted state and time are the backend's, the state recomputed by
   * getMutedState, exactly when AdoptRemote holds for the local ones;
   * otherwise both keep their spread values.
   */
  lemma PatchedMuted(spread: Record, remote: Value, others: seq<Value>, index: nat, local: Value, self: Value,
                     parse: DateParser)
    ensures var r := Patched(spread, remote, others, index, local, self, parse);
      var remoteTimestamp := DateTime(parse, Get(self, "otr_muted_ref"));
      if AdoptRemote(Get(local, "muted_state"), Get(local, "muted_timestamp"), remoteTimestamp) then
        Lookup(r, "muted_state") == GetMutedState(Get(self, "otr_muted"), Get(self, "otr_muted_status")) &&
        Lookup(r, "muted_timestamp") == remoteTimestamp
      else
        Lookup(r, "muted_state") == Lookup(spread, "muted_state") &&
        Lookup(r, "muted_timestamp") == Lookup(spread, "muted_timestamp")
  {
    var withTimestamps := WithTimestamps(WithOthers(spread, remote, others), index);
    var withArchived := WithArchived(withTimestamps, local, self, parse);
    assert Lookup(withArchived, "muted_state") == Lookup(spread, "muted_state") by {
      OthersTimestampsKeep(spread, remote, others, index, "muted_state");
      ArchivedKeeps(withTimestamps, local, self, parse, "muted_state");
    }
    assert Lookup(withArchived, "muted_timestamp") == Lookup(spread, "muted_timestamp") by {
      OthersTimestampsKeep(spread, remote, others, index, "muted_timestamp");
      ArchivedKeeps(withTimestamps, local, self, parse, "muted_timestamp");
    }
    MutedReconciled(withArchived, local, self, parse);
    var r := Patched(spread, remote, others, index, local, self, parse);
    assert r == WithMuted(withArchived, local, self, parse) by {
      assert withArchived == WithArchived(WithTimestamps(WithOthers(spread, remote, others), index), local, self, parse);
    }
  }

  // ---------------------------------------------------------------------
  // What a merged record holds
  // ---------------------------------------------------------------------

  /** `{...v}` copies what `v.key` reads, for any key but an array's or string's `length`. */
  lemma OwnEntriesGet(v: Value, k: string)
    requires k != "length"
    ensures Lookup(OwnEntries(v), k) == Get(v, k)
  {
  }

  /**
   * Only truthy records are ever picked: the one found is a live local
   * record carrying the remote id, and the stub holds only that id.
   */
  lemma LocalForPicksLive(locals: seq<Value>, id: Value)
    ensures var local := LocalFor(LiveLocals(locals), id);
      && Truthy(local)
      && Get(local, "id") == id
      && (FindLocal(LiveLocals(locals), id).Some? ==> local in locals)
      && (FindLocal(LiveLocals(locals), id).None? ==> local == Obj(map["id" := id]))
  {
  }

  /** The record a payload merges into, in terms of its parts. */
  lemma MergeRecordStages(locals: seq<Value>, remote: Value, index: nat, parse: DateParser)
    ensures var r := MergeRecord(locals, remote, index, parse);
      var self := Get(Get(remote, "members"), "self");
      var others := Get(Get(remote, "members"), "others");
      r.Ok? ==>
        && others.Arr? && RolesOf(self, others).Ok?
        && var local := LocalFor(locals, Get(remote, "id"));
           r.value == MergedFrom(local, remote, self, Updates(remote, self, RolesOf(self, others).value, local),
                                 others.items, index, parse)
  {
  }

  /** The local record found for an id, or the stub, holds that id. */
  lemma LocalForId(locals: seq<Value>, id: Value)
    ensures Lookup(OwnEntries(LocalFor(locals, id)), "id") == id
  {
    OwnEntriesGet(LocalFor(locals, id), "id");
  }

  /** The merged record's id is the local record's: neither `updates` nor the patches write it. */
  lemma MergedId(local: Value, remote: Value, self: Value, updates: Record, others: seq<Value>,
                 index: nat, parse: DateParser)
    requires updates.Keys == UpdateKeys
    ensures Lookup(MergedFrom(local, remote, self, updates, others, index, parse), "id") == Lookup(OwnEntries(local), "id")
  {
    var spread := Spread(local, updates);
    PatchedKeeps(spread, remote, others, index, local, self, parse, "id");
  }

  /** The merged record carries the remote payload's id. */
  lemma MergeRecordId(locals: seq<Value>, remote: Value, index: nat, parse: DateParser)
    ensures var r := MergeRecord(locals, remote, index, parse);
      r.Ok? ==> Lookup(r.value, "id") == Get(remote, "id")
  {
    var r := MergeRecord(locals, remote, index, parse);
    if r.Ok? {
      MergeRecordStages(locals, remote, index, parse);
      var self := Get(Get(remote, "members"), "self");
      var others := Get(Get(remote, "members"), "others");
      var local := LocalFor(locals, Get(remote, "id"));
      LocalForId(locals, Get(remote, "id"));
      UpdatesKeys(remote, self, RolesOf(self, others).value, local);
      MergedId(local, remote, self, Updates(remote, self, RolesOf(self, others).value, local), others.items, index, parse);
    }
  }

  /** `updates` has exactly the fields the backend is authoritative for. */
  lemma UpdatesKeys(remote: Value, self: Value, roles: map<string, Value>, local: Value)
    ensures Updates(remote, self, roles, local).Keys == UpdateKeys
  {
  }

  /** A key `updates` lacks keeps its local value, and its presence, in the spread. */
  lemma SpreadKeeps(local: Value, updates: Record, k: string)
    requires k !in updates
    ensures k in Spread(local, updates) <==> k in OwnEntries(local)
    ensures Lookup(Spread(local, updates), k) == Lookup(OwnEntries(local), k)
  {
  }

  /** Every field of `updates` is present in the merged record with its `updates` value, undefined or not. */
  lemma MergedUpdates(local: Value, remote: Value, self: Value, updates: Record, others: seq<Value>,
                      index: nat, parse: DateParser, k: string)
    requires updates.Keys == UpdateKeys && k in UpdateKeys
    ensures var m := MergedFrom(local, remote, self, updates, others, index, parse);
      k in m && m[k] == updates[k]
  {
    var spread := Spread(local, updates);
    assert k in spread && spread[k] == updates[k];
    UpdateKeysUnpatched(k);
    PatchedKeeps(spread, remote, others, index, local, self, parse, k);
  }

  /** A property that neither `updates` nor the patches write is the local record's, present or not. */
  lemma MergedKeeps(local: Value, remote: Value, self: Value, updates: Record, others: seq<Value>,
                    index: nat, parse: DateParser, k: string)
    requires updates.Keys == UpdateKeys && k !in UpdateKeys && k !in PatchedKeys
    ensures var m := MergedFrom(local, remote, self, updates, others, index, parse);
      (k in m <==> k in OwnEntries(local)) && Lookup(m, k) == Lookup(OwnEntries(local), k)
  {
    SpreadKeeps(local, updates, k);
    var spread := Spread(local, updates);
    PatchedKeeps(spread, remote, others, index, local, self, parse, k);
  }

  /**
   * Field precedence in a merged record: the fields of `updates` win over
   * the local record even when undefined, and the local record's other
   * properties are kept unless a patch writes them.
   */
  lemma MergeRecordPrecedence(locals: seq<Value>, remote: Value, index: nat, parse: DateParser, k: string)
    ensures var r := MergeRecord(locals, remote, index, parse);
      var local := LocalFor(locals, Get(remote, "id"));
      var self := Get(Get(remote, "members"), "self");
      var others := Get(Get(remote, "members"), "others");
      r.Ok? ==>
        && (k in UpdateKeys ==>
              k in r.value && r.value[k] == Updates(remote, self, RolesOf(self, others).value, local)[k])
        && (k !in UpdateKeys && k !in PatchedKeys ==>
              (k in r.value <==> k in OwnEntries(local)) && Lookup(r.value, k) == Lookup(OwnEntries(local), k))
  {
    var r := MergeRecord(locals, remote, index, parse);
    if r.Ok? {
      MergeRecordStages(locals, remote, index, parse);
      var self := Get(Get(remote, "members"), "self");
      var others := Get(Get(remote, "members"), "others");
      var local := LocalFor(locals, Get(remote, "id"));
      var updates := Updates(remote, self, RolesOf(self, others).value, local);
      UpdatesKeys(remote, self, RolesOf(self, others).value, local);
      if k in UpdateKeys {
        MergedUpdates(local, remote, self, updates, others.items, index, parse, k);
      } else if k !in PatchedKeys {
        MergedKeeps(local, remote, self, updates, others.items, index, parse, k);
      }
    }
  }

  /**
   * The fields `updates` takes from the payload; the receipt mode is the
   * local one when that is a number (NaN included) and the remote one
   * otherwise.
   */
  lemma UpdatesFields(remote: Value, self: Value, roles: map<string, Value>, local: Value)
    ensures var u := Updates(remote, self, roles, local);
      && u.Keys == UpdateKeys
      && u["accessModes"] == Get(remote, "access")
      && u["accessRole"] == Get(remote, "access_role")
      && u["creator"] == Get(remote, "creator")
      && u["message_timer"] == Get(remote, "message_timer")
      && u["name"] == Get(remote, "name")
      && u["roles"] == Obj(roles)
      && u["status"] == Get(self, "status")
      && u["team_id"] == Get(remote, "team")
      && u["type"] == Get(remote, "type")
      && u["receipt_mode"] == (if IsNumber(Get(local, "receipt_mode")) then Get(local, "receipt_mode")
                               else Get(remote, "receipt_mode"))
  {
  }

  /** The timestamps of a record merged from `local`. */
  lemma MergedTimestamps(local: Value, remote: Value, self: Value, updates: Record, others: seq<Value>,
                         index: nat, parse: DateParser)
    requires updates.Keys == UpdateKeys
    ensures var m := MergedFrom(local, remote, self, updates, others, index, parse);
      var localEvent := Lookup(OwnEntries(local), "last_event_timestamp");
      var event := Lookup(m, "last_event_timestamp");
      var server := Lookup(m, "last_server_timestamp");
      && event == (if Truthy(localEvent) then localEvent else Num(index + 1))
      && Truthy(event) && Truthy(server) && !LessThan(server, event)
      && (event.Num? && server.Num? ==> server.n >= event.n)
  {
    var spread := Spread(local, updates);
    assert Lookup(spread, "last_event_timestamp") == Lookup(OwnEntries(local), "last_event_timestamp");
    PatchedTimestamps(spread, remote, others, index, local, self, parse);
  }

  /**
   * The timestamps of a merged record: the last event timestamp is the
   * local one when truthy and the position plus one otherwise; the last
   * server timestamp is truthy and not below it, and when both are
   * numbers it is at least as large.
   */
  lemma MergeRecordTimestamps(locals: seq<Value>, remote: Value, index: nat, parse: DateParser)
    ensures var r := MergeRecord(locals, remote, index, parse);
      var localEvent := Lookup(OwnEntries(LocalFor(locals, Get(remote, "id"))), "last_event_timestamp");
      r.Ok? ==>
        var event := Lookup(r.value, "last_event_timestamp");
        var server := Lookup(r.value, "last_server_timestamp");
        && event == (if Truthy(localEvent) then localEvent else Num(index + 1))
        && Truthy(event) && Truthy(server) && !LessThan(server, event)
        && (event.Num? && server.Num? ==> server.n >= event.n)
  {
    var r := MergeRecord(locals, remote, index, parse);
    if r.Ok? {
      MergeRecordStages(locals, remote, index, parse);
      var self := Get(Get(remote, "members"), "self");
      var others := Get(Get(remote, "members"), "others");
      var local := LocalFor(locals, Get(remote, "id"));
      UpdatesKeys(remote, self, RolesOf(self, others).value, local);
      MergedTimestamps(local, remote, self, Updates(remote, self, RolesOf(self, others).value, local),
                       others.items, index, parse);
    }
  }

  /** The participants of a record merged from `local`. */
  lemma MergedOthers(local: Value, remote: Value, self: Value, updates: Record, others: seq<Value>,
                     index: nat, parse: DateParser)
    requires updates.Keys == UpdateKeys
    ensures Lookup(MergedFrom(local, remote, self, updates, others, index, parse), "others") ==
              if StrictEquals(Get(remote, "type"), Num(GROUP)) || NoOthers(OwnEntries(local))
              then Arr(CurrentMemberIds(others))
              else Lookup(OwnEntries(local), "others")
  {
    var spread := Spread(local, updates);
    assert Lookup(spread, "others") == Lookup(OwnEntries(local), "others");
    PatchedOthers(spread, remote, others, index, local, self, parse);
  }

  /**
   * A group conversation, or one whose local `others` is falsy or empty,
   * gets the ids of the remote members with status CURRENT_MEMBER, in
   * remote order; any other keeps its local `others`.
   */
  lemma MergeRecordOthers(locals: seq<Value>, remote: Value, index: nat, parse: DateParser)
    ensures var r := MergeRecord(locals, remote, index, parse);
      var local := LocalFor(locals, Get(remote, "id"));
      var others := Get(Get(remote, "members"), "others");
      r.Ok? ==>
        Lookup(r.value, "others") ==
          if StrictEquals(Get(remote, "type"), Num(GROUP)) || NoOthers(OwnEntries(local))
          then Arr(CurrentMemberIds(others.items))
          else Lookup(OwnEntries(local), "others")
  {
    var r := MergeRecord(locals, remote, index, parse);
    if r.Ok? {
      MergeRecordStages(locals, remote, index, parse);
      var self := Get(Get(remote, "members"), "self");
      var others := Get(Get(remote, "members"), "others");
      var local := LocalFor(locals, Get(remote, "id"));
      UpdatesKeys(remote, self, RolesOf(self, others).value, local);
      MergedOthers(local, remote, self, Updates(remote, self, RolesOf(self, others).value, local),
                   others.items, index, parse);
    }
  }

  /** The archived flag and time of a record merged from `local`. */
  lemma MergedArchived(local: Value, remote: Value, self: Value, updates: Record, others: seq<Value>,
                       index: nat, parse: DateParser)
    requires updates.Keys == UpdateKeys
    ensures var m := MergedFrom(local, remote, self, updates, others, index, parse);
      var archivedTimestamp := DateTime(parse, Get(self, "otr_archived_ref"));
      if AdoptRemote(Get(local, "archived_state"), Get(local, "archived_timestamp"), archivedTimestamp) then
        Lookup(m, "archived_state") == Get(self, "otr_archived") && Lookup(m, "archived_timestamp") == archivedTimestamp
      else
        Lookup(m, "archived_state") == Get(local, "archived_state") &&
        Lookup(m, "archived_timestamp") == Get(local, "archived_timestamp")
  {
    SpreadKeeps(local, updates, "archived_state");
    SpreadKeeps(local, updates, "archived_timestamp");
    OwnEntriesGet(local, "archived_state");
    OwnEntriesGet(local, "archived_timestamp");
    var spread := Spread(local, updates);
    PatchedArchived(spread, remote, others, index, local, self, parse);
  }

  /** The muted state and time of a record merged from `local`. */
  lemma MergedMuted(local: Value, remote: Value, self: Value, updates: Record, others: seq<Value>,
                    index: nat, parse: DateParser)
    requires updates.Keys == UpdateKeys
    ensures var m := MergedFrom(local, remote, self, updates, others, index, parse);
      var mutedTimestamp := DateTime(parse, Get(self, "otr_muted_ref"));
      if AdoptRemote(Get(local, "muted_state"), Get(local, "muted_timestamp"), mutedTimestamp) then
        Lookup(m, "muted_state") == GetMutedState(Get(self, "otr_muted"), Get(self, "otr_muted_status")) &&
        Lookup(m, "muted_timestamp") == mutedTimestamp
      else
        Lookup(m, "muted_state") == Get(local, "muted_state") &&
        Lookup(m, "muted_timestamp") == Get(local, "muted_timestamp")
  {
    SpreadKeeps(local, updates, "muted_state");
    SpreadKeeps(local, updates, "muted_timestamp");
    OwnEntriesGet(local, "muted_state");
    OwnEntriesGet(local, "muted_timestamp");
    var spread := Spread(local, updates);
    PatchedMuted(spread, remote, others, index, local, self, parse);
  }

  /**
   * The archived flag and time, and the muted state and time, of a merged
   * record are the backend's (the muted state recomputed by getMutedState)
   * when AdoptRemote holds for the local record's, and the local ones
   * otherwise.
   */
  lemma MergeRecordArchivedMuted(locals: seq<Value>, remote: Value, index: nat, parse: DateParser)
    ensures var r := MergeRecord(locals, remote, index, parse);
      var local := LocalFor(locals, Get(remote, "id"));
      var self := Get(Get(remote, "members"), "self");
      var archivedTimestamp := DateTime(parse, Get(self, "otr_archived_ref"));
      var mutedTimestamp := DateTime(parse, Get(self, "otr_muted_ref"));
      r.Ok? ==>
        && (if AdoptRemote(Get(local, "archived_state"), Get(local, "archived_timestamp"), archivedTimestamp) then
              Lookup(r.value, "archived_state") == Get(self, "otr_archived") &&
              Lookup(r.value, "archived_timestamp") == archivedTimestamp
            else
              Lookup(r.value, "archived_state") == Get(local, "archived_state") &&
              Lookup(r.value, "archived_timestamp") == Get(local, "archived_timestamp"))
        && (if AdoptRemote(Get(local, "muted_state"), Get(local, "muted_timestamp"), mutedTimestamp) then
              Lookup(r.value, "muted_state") == GetMutedState(Get(self, "otr_muted"), Get(self, "otr_muted_status")) &&
              Lookup(r.value, "muted_timestamp") == mutedTimestamp
            else
              Lookup(r.value, "muted_state") == Get(local, "muted_state") &&
              Lookup(r.value, "muted_timestamp") == Get(local, "muted_timestamp"))
  {
    var r := MergeRecord(locals, remote, index, parse);
    if r.Ok? {
      MergeRecordStages(locals, remote, index, parse);
      var self := Get(Get(remote, "members"), "self");
      var others := Get(Get(remote, "members"), "others");
      var local := LocalFor(locals, Get(remote, "id"));
      var updates := Updates(remote, self, RolesOf(self, others).value, local);
      UpdatesKeys(remote, self, RolesOf(self, others).value, local);
      MergedArchived(local, remote, self, updates, others.items, index, parse);
      MergedMuted(local, remote, self, updates, others.items, index, parse);
    }
  }

  // ---------------------------------------------------------------------
  // The merge as the mapper runs it
  // ---------------------------------------------------------------------

  /** The filter over the local records. */
  method KeepTruthy(locals: seq<Value>) returns (live: seq<Value>)
    ensures live == LiveLocals(locals)
  {
    live := [];
    for i := 0 to |locals|
      invariant live == LiveLocals(locals[..i])
    {
      assert locals[..i + 1][..i] == locals[..i];
      if Truthy(locals[i]) {
        live := live + [locals[i]];
      }
    }
    assert locals[..|locals|] == locals;
  }

  /** The search for the local record with the remote id. */
  method FindRecord(locals: seq<Value>, id: Value) returns (found: Option<Value>)
    ensures found == FindLocal(locals, id)
  {
    var i := 0;
    while i < |locals|
      invariant 0 <= i <= |locals|
      invariant FindLocal(locals, id) == FindLocal(locals[i..], id)
    {
      assert locals[i..][1..] == locals[i + 1..];
      if HasId(locals[i], id) {
        return Some(locals[i]);
      }
      i := i + 1;
    }
    return None;
  }

  /** The loop over the other members that adds their roles. */
  method CollectRoles(roles0: map<string, Value>, others: seq<Value>) returns (r: Result<map<string, Value>, MapperError>)
    ensures r == RolesAfter(roles0, others)
  {
    var roles := roles0;
    for i := 0 to |others|
      invariant RolesAfter(roles0, others[..i]) == Ok(roles)
    {
      assert others[..i + 1][..i] == others[..i];
      var other := others[i];
      if Nullish(other) {
        assert Nullish(others[..i + 1][i]);
        RolesAfterExtends(roles0, others[..i + 1], others);
        return Err(TypeError);
      }
      var role := Get(other, "conversation_role");
      if Truthy(role) && ToPropertyKey(role) !in roles {
        roles := roles[ToPropertyKey(Get(other, "id")) := role];
      }
    }
    assert others[..|others|] == others;
    return Ok(roles);
  }

  /** A role map that fails on a prefix fails on the whole list. */
  lemma RolesAfterExtends(roles: map<string, Value>, prefix: seq<Value>, others: seq<Value>)
    requires prefix <= others
    requires RolesAfter(roles, prefix).Err?
    ensures RolesAfter(roles, others).Err?
  {
    var i :| 0 <= i < |prefix| && Nullish(prefix[i]);
    assert others[i] == prefix[i];
  }

  /** The filter and map over the other members that yields the participants. */
  method CurrentMembers(others: seq<Value>) returns (ids: seq<Value>)
    ensures ids == CurrentMemberIds(others)
  {
    ids := [];
    for i := 0 to |others|
      invariant ids == CurrentMemberIds(others[..i])
    {
      assert others[..i + 1][..i] == others[..i];
      if IsCurrentMember(others[i]) {
        ids := ids + [Get(others[i], "id")];
      }
    }
    assert others[..|others|] == others;
  }

  /** `others` becomes the current members for a group or a record without participants. */
  method SetOthers(merged: Record, remote: Value, others: seq<Value>) returns (r: Record)
    ensures r == WithOthers(merged, remote, others)
  {
    r := merged;
    var isGroup := StrictEquals(Get(remote, "type"), Num(GROUP));
    var noOthers := NoOthers(merged);
    if isGroup || noOthers {
      var ids := CurrentMembers(others);
      r := r["others" := Arr(ids)];
    }
  }

  /** The fallback last event timestamp and the server timestamp correction. */
  method FixTimestamps(merged: Record, index: nat) returns (r: Record)
    ensures r == WithTimestamps(merged, index)
  {
    r := merged;
    if !Truthy(Lookup(r, "last_event_timestamp")) {
      r := r["last_event_timestamp" := Num(index + 1)];
    }
    var wrongServerTimestamp := LessThan(Lookup(r, "last_server_timestamp"), Lookup(r, "last_event_timestamp"));
    if !Truthy(Lookup(r, "last_server_timestamp")) || wrongServerTimestamp {
      r := r["last_server_timestamp" := Lookup(r, "last_event_timestamp")];
    }
  }

  /** The archived flag and time from the backend when newer or missing locally. */
  method ReconcileArchived(merged: Record, local: Value, self: Value, parse: DateParser) returns (r: Record)
    ensures r == WithArchived(merged, local, self, parse)
  {
    r := merged;
    var remoteArchivedTimestamp := DateTime(parse, Get(self, "otr_archived_ref"));
    var isNewer := RemoteNewer(Get(local, "archived_timestamp"), remoteArchivedTimestamp);
    if isNewer || Get(local, "archived_state") == Undefined {
      r := r["archived_state" := Get(self, "otr_archived")];
      r := r["archived_timestamp" := remoteArchivedTimestamp];
    }
  }

  /** The muted state and time from the backend when newer or missing locally. */
  method ReconcileMuted(merged: Record, local: Value, self: Value, parse: DateParser) returns (r: Record)
    ensures r == WithMuted(merged, local, self, parse)
  {
    r := merged;
    var remoteMutedTimestamp := DateTime(parse, Get(self, "otr_muted_ref"));
    var isNewer := RemoteNewer(Get(local, "muted_timestamp"), remoteMutedTimestamp);
    if isNewer || Get(local, "muted_state") == Undefined {
      r := r["muted_state" := GetMutedState(Get(self, "otr_muted"), Get(self, "otr_muted_status"))];
      r := r["muted_timestamp" := remoteMutedTimestamp];
    }
  }

  /** The `updates` object, with the local receipt mode when that is a number. */
  method BuildUpdates(remote: Value, self: Value, roles: map<string, Value>, local: Value) returns (updates: Record)
    ensures updates == Updates(remote, self, roles, local)
  {
    updates := map[
      "accessModes" := Get(remote, "access"),
      "accessRole" := Get(remote, "access_role"),
      "creator" := Get(remote, "creator"),
      "message_timer" := Get(remote, "message_timer"),
      "name" := Get(remote, "name"),
      "receipt_mode" := Get(remote, "receipt_mode"),
      "roles" := Obj(roles),
      "status" := Get(self, "status"),
      "team_id" := Get(remote, "team"),
      "type" := Get(remote, "type")
    ];
    if IsNumber(Get(local, "receipt_mode")) {
      updates := updates["receipt_mode" := Get(local, "receipt_mode")];
    }
  }

  /** The callback for one remote payload. */
  method MergeOne(locals: seq<Value>, remote: Value, index: nat, parse: DateParser) returns (r: Result<Record, MapperError>)
    ensures r == MergeRecord(locals, remote, index, parse)
  {
    if Nullish(remote) {
      return Err(TypeError);
    }
    var conversationId := Get(remote, "id");
    var found := FindRecord(locals, conversationId);
    var local := if found.Some? then found.value else Obj(map["id" := conversationId]);
    var members := Get(remote, "members");
    if Nullish(members) {
      return Err(TypeError);
    }
    var othersStates := Get(members, "others");
    var selfState := Get(members, "self");
    if Nullish(selfState) {
      return Err(TypeError);
    }

    var roles: map<string, Value> := map[];
    var selfRole := Get(selfState, "conversation_role");
    if Truthy(selfRole) && ToPropertyKey(Get(selfState, "id")) !in roles {
      roles := roles[ToPropertyKey(Get(selfState, "id")) := selfRole];
    }
    if !othersStates.Arr? {
      return Err(TypeError);
    }
    var rolesResult := CollectRoles(roles, othersStates.items);
    if rolesResult.Err? {
      return Err(rolesResult.error);
    }
    roles := rolesResult.value;

    var updates := BuildUpdates(remote, selfState, roles, local);

    var merged := OwnEntries(local) + updates;
    merged := SetOthers(merged, remote, othersStates.items);
    merged := FixTimestamps(merged, index);
    merged := ReconcileArchived(merged, local, selfState, parse);
    merged := ReconcileMuted(merged, local, selfState, parse);
    return Ok(merged);
  }

  /** mergeConversation as the mapper runs it. */
  method MergeConversation(localConversations: Value, remoteConversations: Value, parse: DateParser)
    returns (r: Result<seq<Record>, MapperError>)
    ensures r == MergeConversations(localConversations, remoteConversations, parse)
  {
    if !localConversations.Arr? {
      return Err(TypeError);
    }
    var locals := KeepTruthy(localConversations.items);
    if !remoteConversations.Arr? {
      return Err(TypeError);
    }
    var remotes := remoteConversations.items;
    var merged: seq<Record> := [];
    for index := 0 to |remotes|
      invariant MergeAll(locals, remotes[..index], parse) == Ok(merged)
    {
      var record := MergeOne(locals, remotes[index], index, parse);
      MergeAllStep(locals, remotes, index, parse);
      if record.Err? {
        MergeAllExtends(locals, remotes[..index + 1], remotes, parse);
        return Err(record.error);
      }
      merged := merged + [record.value];
    }
    assert remotes[..|remotes|] == remotes;
    return Ok(merged);
  }

  /** One more remote payload: its record is appended, or its error ends the merge. */
  lemma MergeAllStep(locals: seq<Value>, remotes: seq<Value>, index: nat, parse: DateParser)
    requires index < |remotes|
    ensures var before := MergeAll(locals, remotes[..index], parse);
      var record := MergeRecord(locals, remotes[index], index, parse);
      MergeAll(locals, remotes[..index + 1], parse) ==
        if before.Err? then before
        else if record.Err? then Err(record.error)
        else Ok(before.value + [record.value])
  {
    assert remotes[..index + 1][..index] == remotes[..index];
  }

  /** A merge that fails on a prefix of the remote payloads fails on them all. */
  lemma {:induction false} MergeAllExtends(locals: seq<Value>, prefix: seq<Value>, remotes: seq<Value>, parse: DateParser)
    requires prefix <= remotes
    requires MergeAll(locals, prefix, parse).Err?
    ensures MergeAll(locals, remotes, parse).Err?
    decreases |remotes|
  {
    if |remotes| > |prefix| {
      assert remotes[..|remotes| - 1][..|prefix|] == prefix;
      assert prefix <= remotes[..|remotes| - 1];
      MergeAllExtends(locals, prefix, remotes[..|remotes| - 1], parse);
    } else {
      assert prefix == remotes;
    }
  }

  // ---------------------------------------------------------------------
  // The whole merge
  // ---------------------------------------------------------------------

  /**
   * An indexed map holds, at index `i`, the value of the callback on the
   * item at `i`; it fails exactly when a call fails, with the error of the
   * first failing call.
   */
  lemma {:induction false} MapWithIndexElementwise<T>(items: seq<Value>, f: (Value, nat) -> Result<T, MapperError>)
    ensures var r := MapWithIndex(items, f);
      && (r.Ok? ==> forall i :: 0 <= i < |items| ==> f(items[i], i) == Ok(r.value[i]))
      && (r.Err? <==> exists i :: 0 <= i < |items| && f(items[i], i).Err?)
      && (r.Err? ==> exists i :: 0 <= i < |items| && f(items[i], i) == Err(r.error) &&
                       forall j :: 0 <= j < i ==> f(items[j], j).Ok?)
    decreases |items|
  {
    if items != [] {
      var n := |items| - 1;
      var prefix := items[..n];
      MapWithIndexElementwise(prefix, f);
      var before := MapWithIndex(prefix, f);
      assert forall i :: 0 <= i < n ==> prefix[i] == items[i];
      if before.Err? {
        var i :| 0 <= i < n && f(prefix[i], i) == Err(before.error) && forall j :: 0 <= j < i ==> f(prefix[j], j).Ok?;
        assert f(items[i], i) == Err(before.error);
      } else if f(items[n], n).Err? {
        assert forall j :: 0 <= j < n ==> f(prefix[j], j).Ok?;
      } else {
        var r := before.value + [f(items[n], n).value];
        forall i | 0 <= i < |items|
          ensures f(items[i], i) == Ok(r[i])
        {
          if i < n {
            assert f(prefix[i], i) == Ok(before.value[i]);
          }
        }
      }
    }
  }

  /**
   * The merge maps each remote payload on its own: a successful merge holds,
   * at index `i`, the record merged from the payload at `i` with position
   * `i`; the merge fails exactly when one of the payloads fails, and then
   * with a TypeError.
   */
  lemma MergeAllElementwise(locals: seq<Value>, remotes: seq<Value>, parse: DateParser)
    ensures var r := MergeAll(locals, remotes, parse);
      && (r.Ok? ==> forall i :: 0 <= i < |remotes| ==> MergeAt(locals, parse)(remotes[i], i) == Ok(r.value[i]))
      && (r.Err? <==> exists i :: 0 <= i < |remotes| && MergeAt(locals, parse)(remotes[i], i).Err?)
      && (r.Err? ==> r.error == TypeError)
  {
    var r := MergeAll(locals, remotes, parse);
    MapWithIndexElementwise(remotes, MergeAt(locals, parse));
    if r.Err? {
      var i :| 0 <= i < |remotes| && MergeAt(locals, parse)(remotes[i], i) == Err(r.error);
      assert MergeRecord(locals, remotes[i], i, parse) == Err(r.error);
    }
  }

  /**
   * The merge, position by position: a successful merge holds, at index
   * `i`, the record merged from the payload at `i` over the truthy local
   * records.
   */
  lemma MergeConversationsAt(locals: Value, remotes: Value, parse: DateParser, i: nat)
    ensures var r := MergeConversations(locals, remotes, parse);
      r.Ok? && i < |r.value| ==> MergeRecord(LiveLocals(locals.items), remotes.items[i], i, parse) == Ok(r.value[i])
  {
    var r := MergeConversations(locals, remotes, parse);
    if r.Ok? && i < |r.value| {
      MergeAllElementwise(LiveLocals(locals.items), remotes.items, parse);
      assert MergeAt(LiveLocals(locals.items), parse)(remotes.items[i], i) == Ok(r.value[i]);
    }
  }

  /** The merge throws exactly when an argument is not an array or one payload's callback throws. */
  lemma MergeConversationsFails(locals: Value, remotes: Value, parse: DateParser)
    ensures MergeConversations(locals, remotes, parse).Err? <==>
      || !locals.Arr? || !remotes.Arr?
      || exists i :: 0 <= i < |remotes.items| && MergeRecord(LiveLocals(locals.items), remotes.items[i], i, parse).Err?
  {
    if locals.Arr? && remotes.Arr? {
      var live := LiveLocals(locals.items);
      MergeAllElementwise(live, remotes.items, parse);
      if MergeAll(live, remotes.items, parse).Err? {
        var i :| 0 <= i < |remotes.items| && MergeAt(live, parse)(remotes.items[i], i).Err?;
        assert MergeRecord(live, remotes.items[i], i, parse).Err?;
      } else {
        forall i | 0 <= i < |remotes.items|
          ensures MergeRecord(live, remotes.items[i], i, parse).Ok?
        {
          assert MergeAt(live, parse)(remotes.items[i], i).Ok?;
        }
      }
    }
  }

  /**
   * Every merged record carries its payload's id, and timestamps a list
   * can be sorted by: a truthy last event timestamp (the position plus one
   * when the local record has none) and a truthy last server timestamp not
   * below it.
   */
  lemma MergeConversationsRecords(locals: Value, remotes: Value, parse: DateParser)
    ensures var r := MergeConversations(locals, remotes, parse);
      r.Ok? ==> forall i :: 0 <= i < |r.value| ==>
        var event := Lookup(r.value[i], "last_event_timestamp");
        var server := Lookup(r.value[i], "last_server_timestamp");
        && Lookup(r.value[i], "id") == Get(remotes.items[i], "id")
        && Truthy(event) && Truthy(server) && !LessThan(server, event)
  {
    var r := MergeConversations(locals, remotes, parse);
    if r.Ok? {
      forall i | 0 <= i < |r.value|
        ensures Lookup(r.value[i], "id") == Get(remotes.items[i], "id")
        ensures var event := Lookup(r.value[i], "last_event_timestamp");
          var server := Lookup(r.value[i], "last_server_timestamp");
          Truthy(event) && Truthy(server) && !LessThan(server, event)
      {
        MergeConversationsAt(locals, remotes, parse, i);
        MergeRecordId(LiveLocals(locals.items), remotes.items[i], i, parse);
        MergeRecordTimestamps(LiveLocals(locals.items), remotes.items[i], i, parse);
      }
    }
  }

  /**
   * Falsy local records are dropped: a property of a merged record that
   * neither `updates` nor the patches write comes from the first truthy
   * local record, in input order, whose id is strictly equal to the
   * payload's id, or, when there is none, from the stub holding only that id.
   */
  lemma MergeConversationsLocal(locals: Value, remotes: Value, parse: DateParser, i: nat, k: string)
    requires k !in UpdateKeys && k !in PatchedKeys
    ensures var r := MergeConversations(locals, remotes, parse);
      r.Ok? && i < |r.value| ==>
        var id := Get(remotes.items[i], "id");
        var local := LocalFor(LiveLocals(locals.items), id);
        && ((exists j :: FirstLiveWithId(locals.items, id, j) && local == locals.items[j]) ||
            (local == Obj(map["id" := id]) &&
             forall j :: 0 <= j < |locals.items| ==> !(Truthy(locals.items[j]) && HasId(locals.items[j], id))))
        && Get(local, "id") == id
        && Lookup(r.value[i], k) == Lookup(OwnEntries(local), k)
  {
    var r := MergeConversations(locals, remotes, parse);
    if r.Ok? && i < |r.value| {
      MergeConversationsAt(locals, remotes, parse, i);
      LocalForPicksLive(locals.items, Get(remotes.items[i], "id"));
      FindLiveFirst(locals.items, Get(remotes.items[i], "id"));
      MergeRecordPrecedence(LiveLocals(locals.items), remotes.items[i], i, parse, k);
    }
  }

  // ---------------------------------------------------------------------
  // The role map
  // ---------------------------------------------------------------------

  /** Every entry of a role map is a truthy role some member carries, under that member's id. */
  predicate RolesSound(roles: map<string, Value>, members: seq<Value>) {
    forall k :: k in roles ==>
      Truthy(roles[k]) &&
      exists m :: m in members && ToPropertyKey(Get(m, "id")) == k && roles[k] == Get(m, "conversation_role")
  }

  /** The other members' steps keep every key and add only sound entries. */
  lemma {:induction false} RolesAfterSound(roles: map<string, Value>, others: seq<Value>, members: seq<Value>)
    requires RolesSound(roles, members)
    requires forall o :: o in others ==> o in members
    ensures var r := RolesAfter(roles, others);
      r.Ok? ==> RolesSound(r.value, members) && roles.Keys <= r.value.Keys
    decreases |others|
  {
    if others != [] {
      var prefix := others[..|others| - 1];
      var last := others[|others| - 1];
      assert forall o :: o in prefix ==> o in others;
      RolesAfterSound(roles, prefix, members);
      var before := RolesAfter(roles, prefix);
      if before.Ok? && !Nullish(last) {
        var role := Get(last, "conversation_role");
        if Truthy(role) && ToPropertyKey(role) !in before.value {
          var after := before.value[ToPropertyKey(Get(last, "id")) := role];
          assert RolesAfter(roles, others) == Ok(after);
          assert last in members;
          forall k | k in after
            ensures Truthy(after[k]) &&
              exists m :: m in members && ToPropertyKey(Get(m, "id")) == k && after[k] == Get(m, "conversation_role")
          {
            if k != ToPropertyKey(Get(last, "id")) {
              assert after[k] == before.value[k];
            }
          }
        }
      }
    }
  }

  /**
   * The role map of a payload holds only truthy roles, each under the id of
   * the self member or another member carrying it.
   */
  lemma RolesOfSound(self: Value, others: Value)
    ensures var r := RolesOf(self, others);
      r.Ok? ==> RolesSound(r.value, [self] + others.items)
  {
    if others.Arr? {
      var members := [self] + others.items;
      assert self in members;
      assert forall o :: o in others.items ==> o in members;
      RolesAfterSound(SelfRoles(self), others.items, members);
    }
  }

  /** A member's role, `conversation_role`. */
  function RoleOf(member: Value): Value {
    Get(member, "conversation_role")
  }

  /** The key a member's role is recorded under: its id as a property key. */
  function IdKey(member: Value): string {
    ToPropertyKey(Get(member, "id"))
  }

  /** Member j has a truthy role, and no later member with a truthy role has the same id key. */
  predicate LastRoleFor(members: seq<Value>, j: int) {
    && 0 <= j < |members| && Truthy(RoleOf(members[j]))
    && forall j' :: j < j' < |members| && Truthy(RoleOf(members[j'])) ==> IdKey(members[j']) != IdKey(members[j])
  }

  /** No truthy role string of a member is the id key of any member, nor a key of the initial map. */
  predicate RoleStringsFree(roles: map<string, Value>, members: seq<Value>) {
    forall i, j :: 0 <= i < |members| && 0 <= j < |members| && Truthy(RoleOf(members[i])) ==>
      ToPropertyKey(RoleOf(members[i])) !in roles && ToPropertyKey(RoleOf(members[i])) != IdKey(members[j])
  }

  /** The keys of `result` are the initial ones plus the id keys of the members with a truthy role. */
  ghost predicate RolesKeys(roles: map<string, Value>, others: seq<Value>, result: map<string, Value>) {
    forall k :: k in result <==>
      k in roles || exists j :: 0 <= j < |others| && Truthy(RoleOf(others[j])) && IdKey(others[j]) == k
  }

  /** Each member that is the last with a truthy role for its id key has its role recorded there. */
  ghost predicate RolesLast(others: seq<Value>, result: map<string, Value>) {
    forall j :: LastRoleFor(others, j) ==> IdKey(others[j]) in result && result[IdKey(others[j])] == RoleOf(others[j])
  }

  /** An initial entry whose key no member with a truthy role has as its id key is kept. */
  ghost predicate RolesKept(roles: map<string, Value>, others: seq<Value>, result: map<string, Value>) {
    forall k :: k in roles && (forall j :: 0 <= j < |others| && Truthy(RoleOf(others[j])) ==> IdKey(others[j]) != k)
      ==> k in result && result[k] == roles[k]
  }

  /**
   * `result` is the complete role map over `others` from `roles`: its keys
   * are the initial ones plus the id keys of the members with a truthy
   * role, each such key holds the role of the last member with that id
   * key, and the other initial entries are kept.
   */
  ghost predicate RolesComplete(roles: map<string, Value>, others: seq<Value>, result: map<string, Value>) {
    RolesKeys(roles, others, result) && RolesLast(others, result) && RolesKept(roles, others, result)
  }

  /** `after` is `before` with the last member's role recorded when it is truthy. */
  predicate RecordsRole(before: map<string, Value>, last: Value, after: map<string, Value>) {
    after == if Truthy(RoleOf(last)) then before[IdKey(last) := RoleOf(last)] else before
  }

  lemma RolesKeysStep(roles: map<string, Value>, prefix: seq<Value>, last: Value, before: map<string, Value>, after: map<string, Value>)
    requires RolesKeys(roles, prefix, before) && RecordsRole(before, last, after)
    ensures RolesKeys(roles, prefix + [last], after)
  {
    var others := prefix + [last];
    forall k ensures k in after <==>
      k in roles || exists j :: 0 <= j < |others| && Truthy(RoleOf(others[j])) && IdKey(others[j]) == k
    {
      if exists j :: 0 <= j < |others| && Truthy(RoleOf(others[j])) && IdKey(others[j]) == k {
        var j :| 0 <= j < |others| && Truthy(RoleOf(others[j])) && IdKey(others[j]) == k;
        if j < |prefix| { assert others[j] == prefix[j]; }
      }
      if k in before && k !in roles {
        var j :| 0 <= j < |prefix| && Truthy(RoleOf(prefix[j])) && IdKey(prefix[j]) == k;
        assert others[j] == prefix[j];
      }
      if k in after && k !in before {
        assert others[|prefix|] == last;
      }
    }
  }

  lemma RolesLastStep(prefix: seq<Value>, last: Value, before: map<string, Value>, after: map<string, Value>)
    requires RolesLast(prefix, before) && RecordsRole(before, last, after)
    ensures RolesLast(prefix + [last], after)
  {
    var others := prefix + [last];
    var n := |prefix|;
    forall j | LastRoleFor(others, j) ensures IdKey(others[j]) in after && after[IdKey(others[j])] == RoleOf(others[j]) {
      if j < n {
        assert others[j] == prefix[j];
        assert Truthy(RoleOf(last)) ==> IdKey(others[j]) != IdKey(last) by {
          assert others[n] == last;
        }
        assert LastRoleFor(prefix, j) by {
          forall j' | j < j' < n && Truthy(RoleOf(prefix[j'])) ensures IdKey(prefix[j']) != IdKey(prefix[j]) {
            assert others[j'] == prefix[j'];
          }
        }
      }
    }
  }

  lemma RolesKeptStep(roles: map<string, Value>, prefix: seq<Value>, last: Value, before: map<string, Value>, after: map<string, Value>)
    requires RolesKept(roles, prefix, before) && RecordsRole(before, last, after)
    ensures RolesKept(roles, prefix + [last], after)
  {
    var others := prefix + [last];
    var n := |prefix|;
    forall k | k in roles && (forall j :: 0 <= j < |others| && Truthy(RoleOf(others[j])) ==> IdKey(others[j]) != k)
      ensures k in after && after[k] == roles[k]
    {
      forall j | 0 <= j < n && Truthy(RoleOf(prefix[j])) ensures IdKey(prefix[j]) != k {
        assert others[j] == prefix[j];
      }
      assert others[n] == last;
    }
  }

  /** One more member keeps a complete role map complete. */
  lemma RolesCompleteStep(roles: map<string, Value>, prefix: seq<Value>, last: Value, before: map<string, Value>)
    requires RoleStringsFree(roles, prefix + [last]) && !Nullish(last)
    requires RolesComplete(roles, prefix, before)
    ensures AddRole(before, last).Ok? && RolesComplete(roles, prefix + [last], AddRole(before, last).value)
  {
    var others := prefix + [last];
    var n := |prefix|;
    assert others[n] == last;
    var role := RoleOf(last);
    if Truthy(role) {
      assert ToPropertyKey(role) !in before by {
        assert ToPropertyKey(role) !in roles;
        forall j | 0 <= j < n ensures ToPropertyKey(role) != IdKey(prefix[j]) {
          assert others[j] == prefix[j];
        }
      }
    }
    var after := AddRole(before, last).value;
    assert RecordsRole(before, last, after);
    RolesKeysStep(roles, prefix, last, before, after);
    RolesLastStep(prefix, last, before, after);
    RolesKeptStep(roles, prefix, last, before, after);
  }

  /** When no role string collides with a key, the other members' steps give the complete role map. */
  lemma {:induction false} RolesAfterComplete(roles: map<string, Value>, others: seq<Value>)
    requires RoleStringsFree(roles, others)
    ensures var r := RolesAfter(roles, others);
      r.Ok? ==> RolesComplete(roles, others, r.value)
    decreases |others|
  {
    if others != [] {
      var n := |others| - 1;
      var prefix := others[..n];
      assert others == prefix + [others[n]];
      assert RoleStringsFree(roles, prefix) by {
        forall i, j | 0 <= i < n && 0 <= j < n && Truthy(RoleOf(prefix[i]))
          ensures ToPropertyKey(RoleOf(prefix[i])) !in roles && ToPropertyKey(RoleOf(prefix[i])) != IdKey(prefix[j])
        {
          assert prefix[i] == others[i] && prefix[j] == others[j];
        }
      }
      RolesAfterComplete(roles, prefix);
      var before := RolesAfter(roles, prefix);
      if before.Ok? && !Nullish(others[n]) {
        RolesCompleteStep(roles, prefix, others[n], before.value);
      }
    } else {
      assert RolesAfter(roles, others) == Ok(roles);
    }
  }

  /** The self member's entry and the others' conditions, from the condition on all members. */
  lemma RoleStringsFreeSelf(self: Value, items: seq<Value>)
    requires RoleStringsFree(map[], [self] + items)
    ensures RoleStringsFree(SelfRoles(self), items)
  {
    var members := [self] + items;
    var start := SelfRoles(self);
    forall i, j | 0 <= i < |items| && 0 <= j < |items| && Truthy(RoleOf(items[i]))
      ensures ToPropertyKey(RoleOf(items[i])) !in start && ToPropertyKey(RoleOf(items[i])) != IdKey(items[j])
    {
      assert members[i + 1] == items[i] && members[j + 1] == items[j] && members[0] == self;
    }
  }

  /** The keys of the role map over all members, from the keys over the others. */
  lemma RolesOfKeys(self: Value, items: seq<Value>, start: map<string, Value>, result: map<string, Value>)
    requires RecordsRole(map[], self, start) && RolesKeys(start, items, result)
    ensures RolesKeys(map[], [self] + items, result)
  {
    var members := [self] + items;
    assert members[0] == self;
    assert forall t :: 0 <= t < |items| ==> members[t + 1] == items[t];
    forall k ensures k in result <==>
      exists j :: 0 <= j < |members| && Truthy(RoleOf(members[j])) && IdKey(members[j]) == k
    {
      if k in result && k !in start {
        var j :| 0 <= j < |items| && Truthy(RoleOf(items[j])) && IdKey(items[j]) == k;
        assert members[j + 1] == items[j];
      }
      if exists j :: 0 <= j < |members| && Truthy(RoleOf(members[j])) && IdKey(members[j]) == k {
        var j :| 0 <= j < |members| && Truthy(RoleOf(members[j])) && IdKey(members[j]) == k;
        if j > 0 {
          assert members[j] == items[j - 1];
        }
      }
    }
  }

  /** The self member, when it is the last with its id, keeps its entry. */
  lemma RolesOfLastSelf(self: Value, items: seq<Value>, start: map<string, Value>, result: map<string, Value>)
    requires RecordsRole(map[], self, start) && RolesKept(start, items, result)
    requires LastRoleFor([self] + items, 0)
    ensures IdKey(self) in result && result[IdKey(self)] == RoleOf(self)
  {
    var members := [self] + items;
    forall j' | 0 <= j' < |items| && Truthy(RoleOf(items[j'])) ensures IdKey(items[j']) != IdKey(self) {
      assert members[j' + 1] == items[j'];
    }
    assert IdKey(self) in start;
  }

  /** Another member that is the last with its id among all members is the last among the others. */
  lemma RolesOfLastOther(self: Value, items: seq<Value>, j: int)
    requires 0 < j && LastRoleFor([self] + items, j)
    ensures LastRoleFor(items, j - 1) && ([self] + items)[j] == items[j - 1]
  {
    var members := [self] + items;
    forall j' | j - 1 < j' < |items| && Truthy(RoleOf(items[j'])) ensures IdKey(items[j']) != IdKey(items[j - 1]) {
      assert members[j' + 1] == items[j'];
    }
  }

  /** The last writers over all members, from those over the others and the kept self entry. */
  lemma RolesOfLast(self: Value, items: seq<Value>, start: map<string, Value>, result: map<string, Value>)
    requires RecordsRole(map[], self, start) && RolesLast(items, result) && RolesKept(start, items, result)
    ensures RolesLast([self] + items, result)
  {
    var members := [self] + items;
    forall j | LastRoleFor(members, j) ensures IdKey(members[j]) in result && result[IdKey(members[j])] == RoleOf(members[j]) {
      if j > 0 {
        RolesOfLastOther(self, items, j);
      } else {
        RolesOfLastSelf(self, items, start, result);
      }
    }
  }

  /**
   * The role map of a payload whose role strings collide with no member id:
   * its keys are exactly the ids of the members (self first, then the
   * others) with a truthy role, and each holds the role of the last of
   * those members with that id, so a later entry for an id overwrites an
   * earlier one.
   */
  lemma RolesOfComplete(self: Value, others: Value)
    requires others.Arr? && RoleStringsFree(map[], [self] + others.items)
    ensures var members := [self] + others.items;
      var r := RolesOf(self, others);
      r.Ok? ==> RolesKeys(map[], members, r.value) && RolesLast(members, r.value)
  {
    var start := SelfRoles(self);
    assert RecordsRole(map[], self, start);
    RoleStringsFreeSelf(self, others.items);
    RolesAfterComplete(start, others.items);
    var r := RolesOf(self, others);
    if r.Ok? {
      RolesOfKeys(self, others.items, start, r.value);
      RolesOfLast(self, others.items, start, r.value);
    }
  }

  /** The other members' steps never remove a key. */
  lemma {:induction false} RolesAfterKeysGrow(roles: map<string, Value>, others: seq<Value>)
    ensures var r := RolesAfter(roles, others);
      r.Ok? ==> roles.Keys <= r.value.Keys
    decreases |others|
  {
    if others != [] {
      RolesAfterKeysGrow(roles, others[..|others| - 1]);
    }
  }

  /**
   * A member whose role string is the self member's id, when the self
   * member has a truthy role, is skipped: its step leaves the role map as
   * it was, whatever its own id.
   */
  lemma RoleStringKeySkips(self: Value, others: seq<Value>, i: nat)
    requires i < |others| && !Nullish(others[i])
    requires Truthy(RoleOf(self)) && ToPropertyKey(RoleOf(others[i])) == IdKey(self)
    ensures RolesAfter(SelfRoles(self), others[..i + 1]) == RolesAfter(SelfRoles(self), others[..i])
  {
    assert others[..i + 1][..i] == others[..i];
    assert others[..i + 1][i] == others[i];
    RolesAfterKeysGrow(SelfRoles(self), others[..i]);
  }

  /**
   * Example: a member whose role string is the self member's id gets no
   * entry.
   */
  lemma RoleStringKeyed()
    ensures var self := Obj(map["id" := Str("wire_admin"), "conversation_role" := Str("wire_member")]);
      var other := Obj(map["id" := Str("bob"), "conversation_role" := Str("wire_admin")]);
      RolesOf(self, Arr([other])) == Ok(map["wire_admin" := Str("wire_member")])
  {
    var self := Obj(map["id" := Str("wire_admin"), "conversation_role" := Str("wire_member")]);
    var other := Obj(map["id" := Str("bob"), "conversation_role" := Str("wire_admin")]);
    assert [other][..0] == [];
  }

  /** Example: of two entries for the same member id, the later one overwrites the earlier. */
  lemma RolesLaterEntryWins()
    ensures var first := Obj(map["id" := Str("bob"), "conversation_role" := Str("wire_admin")]);
      var second := Obj(map["id" := Str("bob"), "conversation_role" := Str("wire_member")]);
      RolesOf(Obj(map["id" := Str("alice")]), Arr([first, second])) == Ok(map["bob" := Str("wire_member")])
  {
    var first := Obj(map["id" := Str("bob"), "conversation_role" := Str("wire_admin")]);
    var second := Obj(map["id" := Str("bob"), "conversation_role" := Str("wire_member")]);
    assert [first, second][..1] == [first];
    assert [first][..0] == [];
    assert SelfRoles(Obj(map["id" := Str("alice")])) == map[];
    assert RolesAfter(map[], [first]) == Ok(map["bob" := Str("wire_admin")]);
    assert Get(second, "conversation_role") == Str("wire_member");
    assert ToPropertyKey(Get(second, "id")) == "bob";
    assert "wire_member" != "bob";
    assert map["bob" := Str("wire_admin")]["bob" := Str("wire_member")] == map["bob" := Str("wire_member")];
  }
}
