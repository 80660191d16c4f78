/**
 * updateProperties and updateSelfStatus: the two ways the mapper writes a
 * payload's fields onto an existing conversation entity.
 */
module EntityUpdate {
  import opened Wrappers
  import opened JsValue
  import opened ConversationEnums
  import opened ConversationEntity
  import opened MutedStateMapping

  /**
   * The writes of a payload's entries onto properties named by `name`:
   * every property present, other than `skip`, whose name is a key of the
   * entries with a defined value.
   */
  function EntryWrites<P>(props: map<P, Value>, name: P -> string, skip: P, entries: map<string, Value>): map<P, Value> {
    map p | p in props && p != skip && name(p) in entries && entries[name(p)] != Undefined :: entries[name(p)]
  }

  /** One more entry writes at most the one property of that name. */
  lemma EntryWritesStep<P>(props: map<P, Value>, name: P -> string, skip: P, entries: map<string, Value>,
                           key: string, value: Value, named: Option<P>)
    requires key !in entries
    requires forall q | name(q) == key :: named == Some(q)
    requires named.Some? ==> name(named.value) == key
    ensures props + EntryWrites(props, name, skip, entries[key := value]) ==
              if named.Some? && named.value != skip && value != Undefined && named.value in props
              then (props + EntryWrites(props, name, skip, entries))[named.value := value]
              else props + EntryWrites(props, name, skip, entries)
  {
  }

  /** `Prop.PropName` as a function value, the key lookup `EntryWrites` takes. */
  function NameOf(p: Prop): string {
    p.PropName()
  }

  /**
   * The writes updateProperties performs for the payload's entries: every
   * modelled property the entity has, other than `id`, whose name is a key
   * of the payload with a defined value.
   */
  function PropertyUpdates(props: map<Prop, Value>, entries: map<string, Value>): map<Prop, Value> {
    EntryWrites(props, NameOf, Id, entries)
  }

  /** The entity's properties after updateProperties with the payload's entries. */
  function UpdatedProps(props: map<Prop, Value>, entries: map<string, Value>): map<Prop, Value> {
    props + PropertyUpdates(props, entries)
  }

  /** One more payload entry writes at most the property of that name. */
  lemma UpdatedPropsStep(props: map<Prop, Value>, done: map<string, Value>, key: string, value: Value)
    requires key !in done
    ensures UpdatedProps(props, done[key := value]) ==
              if key != "id" && value != Undefined && PropNamed(key).Some? && PropNamed(key).value in props
              then UpdatedProps(props, done)[PropNamed(key).value := value]
              else UpdatedProps(props, done)
  {
    var named := PropNamed(key);
    forall q: Prop | NameOf(q) == key
      ensures named == Some(q)
    {
      PropNamedFindsEvery(q);
    }
    EntryWritesStep(props, NameOf, Id, done, key, value, named);
  }

  /**
   * One entry of the payload: `entity[key](value)` on an observable,
   * `entity[key] = value` on a plain field, when the entity has a property
   * of that name other than `id` and the value is defined.
   */
  method WriteEntry(entity: Conversation, key: string, value: Value)
    modifies entity
    ensures entity.props ==
              if key != "id" && value != Undefined && PropNamed(key).Some? && PropNamed(key).value in old(entity.props)
              then old(entity.props)[PropNamed(key).value := value]
              else old(entity.props)
    ensures entity.accessState == old(entity.accessState)
    ensures entity.persistStateChanges == old(entity.persistStateChanges)
  {
    if key != "id" && value != Undefined {
      var prop := PropNamed(key);
      if prop.Some? && prop.value in entity.props {
        if prop.value.IsObservable() {
          entity.Set(prop.value, value);
        } else {
          entity.Assign(prop.value, value);
        }
      }
    }
  }

  /**
   * Copies the payload's entries onto the entity, key by key, and returns
   * the same entity; Object.entries throws on null and undefined. Arrays
   * and strings have only index keys, which name no property.
   */
  method UpdateProperties(entity: Conversation, data: Value) returns (r: Result<Conversation, MapperError>)
    modifies entity
    ensures Nullish(data) ==> r == Err(TypeError) && entity.props == old(entity.props)
    ensures !Nullish(data) ==>
              r == Ok(entity) && entity.props == UpdatedProps(old(entity.props), OwnEntries(data))
    ensures entity.accessState == old(entity.accessState)
    ensures entity.persistStateChanges == old(entity.persistStateChanges)
  {
    if Nullish(data) {
      return Err(TypeError);
    }
    var entries := OwnEntries(data);
    var pending := entries.Keys;
    ghost var p0 := entity.props;
    ghost var done: map<string, Value> := map[];
    while pending != {}
      invariant pending !! done.Keys && pending + done.Keys == entries.Keys
      invariant forall k | k in done :: done[k] == entries[k]
      invariant entity.props == UpdatedProps(p0, done)
      invariant entity.accessState == old(entity.accessState)
      invariant entity.persistStateChanges == old(entity.persistStateChanges)
      decreases pending
    {
      var key :| key in pending;
      UpdatedPropsStep(p0, done, key, entries[key]);
      WriteEntry(entity, key, entries[key]);
      pending := pending - {key};
      done := done[key := entries[key]];
    }
    assert done == entries;
    r := Ok(entity);
  }

  /**
   * After updateProperties every property keeps its presence; `id` and
   * every property the payload leaves undefined or absent keep their value,
   * and every other takes the payload's value.
   */
  lemma UpdatePropertiesEffect(props: map<Prop, Value>, data: Value, p: Prop)
    requires p in props
    ensures UpdatedProps(props, OwnEntries(data)).Keys == props.Keys
    ensures UpdatedProps(props, OwnEntries(data))[p] ==
              if p != Id && Get(data, p.PropName()) != Undefined && data.Obj? then Get(data, p.PropName())
              else props[p]
  {
  }

  /** Applying the same payload twice changes nothing more. */
  lemma UpdatePropertiesIdempotent(props: map<Prop, Value>, entries: map<string, Value>)
    ensures UpdatedProps(UpdatedProps(props, entries), entries) == UpdatedProps(props, entries)
  {
    var once := UpdatedProps(props, entries);
    assert PropertyUpdates(once, entries) == PropertyUpdates(props, entries);
  }

  /** `if (guard) { entity[key](value) }` */
  datatype GuardedWrite = GuardedWrite(guard: bool, key: Prop, value: Value)

  /** The guarded write sets `key`. */
  predicate WritesTo(w: GuardedWrite, key: Prop) {
    w.guard && w.key == key
  }

  function ApplyWrite(p: map<Prop, Value>, w: GuardedWrite): map<Prop, Value> {
    if w.guard then p[w.key := w.value] else p
  }

  /** The guarded writes performed in order. */
  function ApplyWrites(p: map<Prop, Value>, ws: seq<GuardedWrite>): map<Prop, Value>
    decreases |ws|
  {
    if ws == [] then p else ApplyWrite(ApplyWrites(p, ws[..|ws| - 1]), ws[|ws| - 1])
  }

  /**
   * The fields of a self state that updateSelfStatus reads: the database
   * shape (plain timestamps and states) and the backend shape (`otr_*`,
   * with ISO-8601 `_ref` timestamps and a notification bit mask).
   */
  datatype SelfStatusFields = SelfStatusFields(
    archivedTimestamp: Value, archivedState: Value, clearedTimestamp: Value,
    ephemeralTimer: Value, messageTimer: Value, receiptMode: Value,
    lastEventTimestamp: Value, lastReadTimestamp: Value, lastServerTimestamp: Value,
    mutedTimestamp: Value, mutedState: Value, status: Value,
    verificationState: Value, legalHoldStatus: Value,
    otrArchived: Value, otrArchivedRef: Value,
    otrMuted: Value, otrMutedRef: Value, otrMutedStatus: Value)

  /** The destructuring `const {archived_timestamp, ...} = selfState`. */
  function ReadSelfStatus(selfState: Value): SelfStatusFields {
    SelfStatusFields(
      Get(selfState, "archived_timestamp"), Get(selfState, "archived_state"),
      Get(selfState, "cleared_timestamp"), Get(selfState, "ephemeral_timer"),
      Get(selfState, "message_timer"), Get(selfState, "receipt_mode"),
      Get(selfState, "last_event_timestamp"), Get(selfState, "last_read_timestamp"),
      Get(selfState, "last_server_timestamp"), Get(selfState, "muted_timestamp"),
      Get(selfState, "muted_state"), Get(selfState, "status"),
      Get(selfState, "verification_state"), Get(selfState, "legal_hold_status"),
      Get(selfState, "otr_archived"), Get(selfState, "otr_archived_ref"),
      Get(selfState, "otr_muted"), Get(selfState, "otr_muted_ref"),
      Get(selfState, "otr_muted_status"))
  }

  /**
   * The writes of updateSelfStatus, in source order, each with its guard:
   * first the database fields (some applied only when truthy, the others
   * whenever defined), then the backend fields `otr_archived` and
   * `otr_muted`, whose timestamps are parsed from their `_ref` companions
   * and whose muted state is normalised.
   */
  function SelfStatusWrites(s: SelfStatusFields, parse: DateParser): seq<GuardedWrite> {
    DatabaseWrites(s) + BackendWrites(s, parse)
  }

  /** The writes from the database shape of a self state. */
  function DatabaseWrites(s: SelfStatusFields): seq<GuardedWrite> {
    [ GuardedWrite(Truthy(s.archivedTimestamp), ArchivedTimestamp, s.archivedTimestamp),
      GuardedWrite(Truthy(s.archivedTimestamp), ArchivedState, s.archivedState),
      GuardedWrite(s.clearedTimestamp != Undefined, ClearedTimestamp, s.clearedTimestamp),
      GuardedWrite(s.ephemeralTimer != Undefined, LocalMessageTimer, s.ephemeralTimer),
      GuardedWrite(s.messageTimer != Undefined, GlobalMessageTimer, s.messageTimer),
      GuardedWrite(s.receiptMode != Undefined, ReceiptMode, s.receiptMode),
      GuardedWrite(Truthy(s.lastEventTimestamp), LastEventTimestamp, s.lastEventTimestamp),
      GuardedWrite(Truthy(s.lastReadTimestamp), LastReadTimestamp, s.lastReadTimestamp),
      GuardedWrite(Truthy(s.lastServerTimestamp), LastServerTimestamp, s.lastServerTimestamp),
      GuardedWrite(Truthy(s.mutedTimestamp), MutedTimestamp, s.mutedTimestamp),
      GuardedWrite(Truthy(s.mutedTimestamp), MutedState, s.mutedState),
      GuardedWrite(s.status != Undefined, Status, s.status),
      GuardedWrite(s.verificationState != Undefined, VerificationState, s.verificationState),
      GuardedWrite(Truthy(s.legalHoldStatus), LegalHoldStatus, s.legalHoldStatus) ]
  }

  /** The writes from the backend shape of a self state. */
  function BackendWrites(s: SelfStatusFields, parse: DateParser): seq<GuardedWrite> {
    [ GuardedWrite(s.otrArchived != Undefined, ArchivedTimestamp, DateTime(parse, s.otrArchivedRef)),
      GuardedWrite(s.otrArchived != Undefined, ArchivedState, s.otrArchived),
      GuardedWrite(s.otrMuted != Undefined, MutedTimestamp, DateTime(parse, s.otrMutedRef)),
      GuardedWrite(s.otrMuted != Undefined, MutedState, GetMutedState(s.otrMuted, s.otrMutedStatus)) ]
  }

  /** The entity's properties after updateSelfStatus. */
  function ApplySelfStatus(p: map<Prop, Value>, s: SelfStatusFields, parse: DateParser): map<Prop, Value> {
    ApplyWrites(p, SelfStatusWrites(s, parse))
  }

  /** The property each write of updateSelfStatus sets, in order. */
  const SelfStatusKeys: seq<Prop> := [
    ArchivedTimestamp, ArchivedState, ClearedTimestamp, LocalMessageTimer,
    GlobalMessageTimer, ReceiptMode, LastEventTimestamp, LastReadTimestamp,
    LastServerTimestamp, MutedTimestamp, MutedState, Status, VerificationState,
    LegalHoldStatus, ArchivedTimestamp, ArchivedState, MutedTimestamp, MutedState
  ]

  /** The properties updateSelfStatus may write. */
  const SelfStatusTargets: set<Prop> := {
    ArchivedTimestamp, ArchivedState, ClearedTimestamp, LocalMessageTimer,
    GlobalMessageTimer, ReceiptMode, LastEventTimestamp, LastReadTimestamp,
    LastServerTimestamp, MutedTimestamp, MutedState, Status, VerificationState,
    LegalHoldStatus
  }

  lemma SelfStatusWriteKeys(s: SelfStatusFields, parse: DateParser)
    ensures |SelfStatusWrites(s, parse)| == |SelfStatusKeys|
    ensures forall j | 0 <= j < |SelfStatusKeys| :: SelfStatusWrites(s, parse)[j].key == SelfStatusKeys[j]
  {
  }


  /** The last guarded write that sets `key` decides its value. */
  lemma {:induction false} LastWriteWins(p: map<Prop, Value>, ws: seq<GuardedWrite>, key: Prop, i: nat)
    requires i < |ws| && WritesTo(ws[i], key)
    requires forall j | i < j < |ws| :: !WritesTo(ws[j], key)
    ensures Lookup(ApplyWrites(p, ws), key) == ws[i].value
    decreases |ws|
  {
    if i < |ws| - 1 {
      LastWriteWins(p, ws[..|ws| - 1], key, i);
    }
  }

  /** Performing `a` and then `b` is performing `a + b`. */
  lemma {:induction false} ApplyWritesAppend(p: map<Prop, Value>, a: seq<GuardedWrite>, b: seq<GuardedWrite>)
    ensures ApplyWrites(p, a + b) == ApplyWrites(ApplyWrites(p, a), b)
    decreases |b|
  {
    if b != [] {
      assert (a + b)[..|a + b| - 1] == a + b[..|b| - 1];
      ApplyWritesAppend(p, a, b[..|b| - 1]);
    } else {
      assert a + b == a;
    }
  }

  /** A key no write sets keeps its value, and its presence. */
  lemma {:induction false} UnwrittenKept(p: map<Prop, Value>, ws: seq<GuardedWrite>, key: Prop)
    requires forall j | 0 <= j < |ws| :: !WritesTo(ws[j], key)
    ensures Lookup(ApplyWrites(p, ws), key) == Lookup(p, key)
    ensures key in ApplyWrites(p, ws) <==> key in p
    decreases |ws|
  {
    if ws != [] {
      UnwrittenKept(p, ws[..|ws| - 1], key);
    }
  }

  /** The keys after the writes: the old ones and those of the writes whose guard held. */
  lemma {:induction false} WrittenKeys(p: map<Prop, Value>, ws: seq<GuardedWrite>)
    ensures ApplyWrites(p, ws).Keys == p.Keys + set j | 0 <= j < |ws| && ws[j].guard :: ws[j].key
    decreases |ws|
  {
    if ws != [] {
      var init := ws[..|ws| - 1];
      WrittenKeys(p, init);
      assert (set j | 0 <= j < |ws| && ws[j].guard :: ws[j].key) ==
             (set j | 0 <= j < |init| && init[j].guard :: init[j].key) +
             (if ws[|ws| - 1].guard then {ws[|ws| - 1].key} else {});
    }
  }

  /** Writes overlay whatever lies beneath the map they are applied to. */
  lemma {:induction false} WritesOverlay(p: map<Prop, Value>, d: map<Prop, Value>, ws: seq<GuardedWrite>)
    ensures ApplyWrites(p + d, ws) == p + ApplyWrites(d, ws)
    decreases |ws|
  {
    if ws != [] {
      WritesOverlay(p, d, ws[..|ws| - 1]);
    }
  }

  /** A key that only the write at `i` may set. */
  lemma OnlyWriteAt(p: map<Prop, Value>, ws: seq<GuardedWrite>, key: Prop, i: nat)
    requires i < |ws| && ws[i].key == key
    requires forall j | 0 <= j < |ws| && j != i :: ws[j].key != key
    ensures Lookup(ApplyWrites(p, ws), key) == if ws[i].guard then ws[i].value else Lookup(p, key)
  {
    if ws[i].guard {
      LastWriteWins(p, ws, key, i);
    } else {
      UnwrittenKept(p, ws, key);
    }
  }

  /** A key that the writes at `i` and, later, at `k` may set: the later one wins. */
  lemma TwoWritesAt(p: map<Prop, Value>, ws: seq<GuardedWrite>, key: Prop, i: nat, k: nat)
    requires i < k < |ws| && ws[i].key == key && ws[k].key == key
    requires forall j | 0 <= j < |ws| && j != i && j != k :: ws[j].key != key
    ensures Lookup(ApplyWrites(p, ws), key) ==
              if ws[k].guard then ws[k].value else if ws[i].guard then ws[i].value else Lookup(p, key)
  {
    if ws[k].guard {
      LastWriteWins(p, ws, key, k);
    } else if ws[i].guard {
      LastWriteWins(p, ws, key, i);
    } else {
      UnwrittenKept(p, ws, key);
    }
  }

  /** `v` unless it is undefined, in which case `otherwise`. */
  function DefinedOr(v: Value, otherwise: Value): Value {
    if v != Undefined then v else otherwise
  }

  /**
   * What updateSelfStatus leaves in `key`, property by property, when it
   * held `current`: the backend shape of the archived and muted pairs wins
   * over the database shape; the last event, read and server timestamps
   * and the legal hold status are taken only when truthy; the cleared
   * timestamp, the timers, the receipt mode, the status and the
   * verification state whenever defined; nothing else changes.
   */
  function SelfStatusValue(s: SelfStatusFields, parse: DateParser, key: Prop, current: Value): Value {
    match key
    case ArchivedTimestamp =>
      if s.otrArchived != Undefined then DateTime(parse, s.otrArchivedRef)
      else if Truthy(s.archivedTimestamp) then s.archivedTimestamp
      else current
    case ArchivedState =>
      if s.otrArchived != Undefined then s.otrArchived
      else if Truthy(s.archivedTimestamp) then s.archivedState
      else current
    case MutedTimestamp =>
      if s.otrMuted != Undefined then DateTime(parse, s.otrMutedRef)
      else if Truthy(s.mutedTimestamp) then s.mutedTimestamp
      else current
    case MutedState =>
      if s.otrMuted != Undefined then GetMutedState(s.otrMuted, s.otrMutedStatus)
      else if Truthy(s.mutedTimestamp) then s.mutedState
      else current
    case LastEventTimestamp => Or(s.lastEventTimestamp, current)
    case LastReadTimestamp => Or(s.lastReadTimestamp, current)
    case LastServerTimestamp => Or(s.lastServerTimestamp, current)
    case LegalHoldStatus => Or(s.legalHoldStatus, current)
    case ClearedTimestamp => DefinedOr(s.clearedTimestamp, current)
    case LocalMessageTimer => DefinedOr(s.ephemeralTimer, current)
    case GlobalMessageTimer => DefinedOr(s.messageTimer, current)
    case ReceiptMode => DefinedOr(s.receiptMode, current)
    case Status => DefinedOr(s.status, current)
    case VerificationState => DefinedOr(s.verificationState, current)
    case _ => current
  }

  /**
   * The last event, last read and last server timestamps and the legal
   * hold status are taken from the self state only when truthy, so 0
   * leaves them as they were.
   */
  lemma SelfStatusTruthyField(p: map<Prop, Value>, s: SelfStatusFields, parse: DateParser, key: Prop)
    requires key in {LastEventTimestamp, LastReadTimestamp, LastServerTimestamp, LegalHoldStatus}
    ensures Lookup(ApplySelfStatus(p, s, parse), key) == SelfStatusValue(s, parse, key, Lookup(p, key))
  {
    var ws := SelfStatusWrites(s, parse);
    match key
    case LastEventTimestamp => OnlyWriteAt(p, ws, key, 6);
    case LastReadTimestamp => OnlyWriteAt(p, ws, key, 7);
    case LastServerTimestamp => OnlyWriteAt(p, ws, key, 8);
    case LegalHoldStatus => OnlyWriteAt(p, ws, key, 13);
  }

  /**
   * The cleared timestamp, both message timers, the receipt mode, the
   * status and the verification state are taken from the self state
   * whenever defined, so 0 and false are applied too.
   */
  lemma SelfStatusDefinedField(p: map<Prop, Value>, s: SelfStatusFields, parse: DateParser, key: Prop)
    requires key in {ClearedTimestamp, LocalMessageTimer, GlobalMessageTimer, ReceiptMode, Status, VerificationState}
    ensures Lookup(ApplySelfStatus(p, s, parse), key) == SelfStatusValue(s, parse, key, Lookup(p, key))
  {
    var ws := SelfStatusWrites(s, parse);
    match key
    case ClearedTimestamp => OnlyWriteAt(p, ws, key, 2);
    case LocalMessageTimer => OnlyWriteAt(p, ws, key, 3);
    case GlobalMessageTimer => OnlyWriteAt(p, ws, key, 4);
    case ReceiptMode => OnlyWriteAt(p, ws, key, 5);
    case Status => OnlyWriteAt(p, ws, key, 11);
    case VerificationState => OnlyWriteAt(p, ws, key, 12);
  }

  /**
   * The archived pair: the backend shape (`otr_archived`, whenever
   * defined) wins over the database shape (`archived_timestamp`, when
   * truthy, with `archived_state`); with neither, nothing changes.
   */
  lemma SelfStatusArchived(p: map<Prop, Value>, s: SelfStatusFields, parse: DateParser)
    ensures var r := ApplySelfStatus(p, s, parse);
      if s.otrArchived != Undefined then
        Lookup(r, ArchivedTimestamp) == DateTime(parse, s.otrArchivedRef) &&
        Lookup(r, ArchivedState) == s.otrArchived
      else if Truthy(s.archivedTimestamp) then
        Lookup(r, ArchivedTimestamp) == s.archivedTimestamp &&
        Lookup(r, ArchivedState) == s.archivedState
      else
        Lookup(r, ArchivedTimestamp) == Lookup(p, ArchivedTimestamp) &&
        Lookup(r, ArchivedState) == Lookup(p, ArchivedState)
  {
    var ws := SelfStatusWrites(s, parse);
    TwoWritesAt(p, ws, ArchivedTimestamp, 0, 14);
    TwoWritesAt(p, ws, ArchivedState, 1, 15);
  }

  /**
   * The muted pair, in the same way; from the backend shape the state is
   * the normalised notification state of `otr_muted` and `otr_muted_status`.
   */
  lemma SelfStatusMuted(p: map<Prop, Value>, s: SelfStatusFields, parse: DateParser)
    ensures var r := ApplySelfStatus(p, s, parse);
      if s.otrMuted != Undefined then
        Lookup(r, MutedTimestamp) == DateTime(parse, s.otrMutedRef) &&
        Lookup(r, MutedState) == GetMutedState(s.otrMuted, s.otrMutedStatus)
      else if Truthy(s.mutedTimestamp) then
        Lookup(r, MutedTimestamp) == s.mutedTimestamp &&
        Lookup(r, MutedState) == s.mutedState
      else
        Lookup(r, MutedTimestamp) == Lookup(p, MutedTimestamp) &&
        Lookup(r, MutedState) == Lookup(p, MutedState)
  {
    var ws := SelfStatusWrites(s, parse);
    TwoWritesAt(p, ws, MutedTimestamp, 9, 16);
    TwoWritesAt(p, ws, MutedState, 10, 17);
  }

  /** Only self-status properties are written; everything else is kept. */
  lemma SelfStatusFrame(p: map<Prop, Value>, s: SelfStatusFields, parse: DateParser)
    ensures var r := ApplySelfStatus(p, s, parse);
      && r.Keys <= p.Keys + SelfStatusTargets
      && p.Keys <= r.Keys
      && forall k | k in p && k !in SelfStatusTargets :: r[k] == p[k]
  {
    var ws := SelfStatusWrites(s, parse);
    SelfStatusWriteKeys(s, parse);
    WrittenKeys(p, ws);
    forall k | k in p && k !in SelfStatusTargets
      ensures ApplyWrites(p, ws)[k] == p[k]
    {
      UnwrittenKept(p, ws, k);
    }
  }

  /**
   * The sequence of guarded writes agrees, property by property, with the
   * per-property description of updateSelfStatus.
   */
  lemma SelfStatusPerProperty(p: map<Prop, Value>, s: SelfStatusFields, parse: DateParser, key: Prop)
    ensures Lookup(ApplySelfStatus(p, s, parse), key) == SelfStatusValue(s, parse, key, Lookup(p, key))
  {
    if key in {LastEventTimestamp, LastReadTimestamp, LastServerTimestamp, LegalHoldStatus} {
      SelfStatusTruthyField(p, s, parse, key);
    } else if key in {ClearedTimestamp, LocalMessageTimer, GlobalMessageTimer, ReceiptMode, Status, VerificationState} {
      SelfStatusDefinedField(p, s, parse, key);
    } else if key in {ArchivedTimestamp, ArchivedState} {
      SelfStatusArchived(p, s, parse);
    } else if key in {MutedTimestamp, MutedState} {
      SelfStatusMuted(p, s, parse);
    } else {
      UnwrittenKept(p, SelfStatusWrites(s, parse), key);
    }
  }

  /**
   * A self state overlays the entity's properties with values that depend
   * on the self state alone.
   */
  lemma SelfStatusIsOverlay(p: map<Prop, Value>, s: SelfStatusFields, parse: DateParser)
    ensures ApplySelfStatus(p, s, parse) == p + ApplySelfStatus(map[], s, parse)
  {
    WritesOverlay(p, map[], SelfStatusWrites(s, parse));
    assert p + map[] == p;
  }

  /** Applying the same self state twice gives what applying it once gives. */
  lemma SelfStatusIdempotent(p: map<Prop, Value>, s: SelfStatusFields, parse: DateParser)
    ensures ApplySelfStatus(ApplySelfStatus(p, s, parse), s, parse) == ApplySelfStatus(p, s, parse)
  {
    var d := ApplySelfStatus(map[], s, parse);
    SelfStatusIsOverlay(p, s, parse);
    SelfStatusIsOverlay(p + d, s, parse);
    assert (p + d) + d == p + d;
  }

  /**
   * `log` extends `prefix` by property writes only, each made with
   * persistence `persisted`.
   */
  ghost predicate SelfStatusLog(log: seq<StateChange>, prefix: seq<StateChange>, persisted: bool) {
    |prefix| <= |log| && log[..|prefix|] == prefix &&
    forall i | |prefix| <= i < |log| :: log[i].PropertyChange? && log[i].persisted == persisted
  }

  /**
   * `if (guard) { entity[key](value) }` for write `i` of the table `ws`,
   * whose writes before `i` the entity has already undergone since it
   * held `p0`.
   */
  method SetPropertyWhen(entity: Conversation, ws: seq<GuardedWrite>, i: nat,
                         ghost p0: map<Prop, Value>, ghost prefix: seq<StateChange>)
    requires i < |ws| && entity.props == ApplyWrites(p0, ws[..i])
    requires SelfStatusLog(entity.changes, prefix, entity.persistStateChanges)
    modifies entity
    ensures entity.props == ApplyWrites(p0, ws[..i + 1])
    ensures entity.accessState == old(entity.accessState)
    ensures entity.persistStateChanges == old(entity.persistStateChanges)
    ensures SelfStatusLog(entity.changes, prefix, entity.persistStateChanges)
  {
    assert ws[..i + 1][..i] == ws[..i];
    if ws[i].guard {
      entity.Set(ws[i].key, ws[i].value);
      assert entity.changes[..|prefix|] == old(entity.changes)[..|prefix|];
    }
  }

  /** The database half of updateSelfStatus, one guarded write per field. */
  method UpdateDatabaseStates(entity: Conversation, s: SelfStatusFields, ghost prefix: seq<StateChange>)
    requires SelfStatusLog(entity.changes, prefix, entity.persistStateChanges)
    modifies entity
    ensures entity.props == ApplyWrites(old(entity.props), DatabaseWrites(s))
    ensures entity.accessState == old(entity.accessState)
    ensures entity.persistStateChanges == old(entity.persistStateChanges)
    ensures SelfStatusLog(entity.changes, prefix, entity.persistStateChanges)
  {
    ghost var p0 := entity.props;
    var ws := DatabaseWrites(s);
    assert ws[..0] == [];
    SetPropertyWhen(entity, ws, 0, p0, prefix);  // archived_timestamp
    SetPropertyWhen(entity, ws, 1, p0, prefix);  // archived_state
    SetPropertyWhen(entity, ws, 2, p0, prefix);  // cleared_timestamp
    SetPropertyWhen(entity, ws, 3, p0, prefix);  // ephemeral_timer
    SetPropertyWhen(entity, ws, 4, p0, prefix);  // message_timer
    SetPropertyWhen(entity, ws, 5, p0, prefix);  // receipt_mode
    SetPropertyWhen(entity, ws, 6, p0, prefix);  // last_event_timestamp
    SetPropertyWhen(entity, ws, 7, p0, prefix);  // last_read_timestamp
    SetPropertyWhen(entity, ws, 8, p0, prefix);  // last_server_timestamp
    SetPropertyWhen(entity, ws, 9, p0, prefix);  // muted_timestamp
    SetPropertyWhen(entity, ws, 10, p0, prefix); // muted_state
    SetPropertyWhen(entity, ws, 11, p0, prefix); // status
    SetPropertyWhen(entity, ws, 12, p0, prefix); // verification_state
    SetPropertyWhen(entity, ws, 13, p0, prefix); // legal_hold_status
    assert ws[..14] == ws;
  }

  /**
   * The backend half of updateSelfStatus, whose writes parse the `_ref`
   * timestamps and normalise the muted state.
   */
  method UpdateBackendStates(entity: Conversation, s: SelfStatusFields, parse: DateParser,
                             ghost prefix: seq<StateChange>)
    requires SelfStatusLog(entity.changes, prefix, entity.persistStateChanges)
    modifies entity
    ensures entity.props == ApplyWrites(old(entity.props), BackendWrites(s, parse))
    ensures entity.accessState == old(entity.accessState)
    ensures entity.persistStateChanges == old(entity.persistStateChanges)
    ensures SelfStatusLog(entity.changes, prefix, entity.persistStateChanges)
  {
    ghost var p0 := entity.props;
    var ws := BackendWrites(s, parse);
    assert ws[..0] == [];
    SetPropertyWhen(entity, ws, 0, p0, prefix);  // otr_archived_ref
    SetPropertyWhen(entity, ws, 1, p0, prefix);  // otr_archived
    SetPropertyWhen(entity, ws, 2, p0, prefix);  // otr_muted_ref
    SetPropertyWhen(entity, ws, 3, p0, prefix);  // otr_muted, otr_muted_status
    assert ws[..4] == ws;
  }

  /**
   * Applies the self state to the entity. Without an entity nothing
   * happens and nothing is returned. With `disablePersistence` persistence
   * is switched off for the writes and switched on afterwards (on, not back
   * to what it was); a null or undefined self state throws after the
   * switch-off, which then stays in force.
   */
  method UpdateSelfStatus(entity: Conversation?, selfState: Value, disablePersistence: bool, parse: DateParser)
    returns (r: Result<Conversation?, MapperError>)
    modifies entity
    ensures entity == null ==> r == Ok(null)
    ensures entity != null && Nullish(selfState) ==>
              r == Err(TypeError) && entity.props == old(entity.props) && entity.changes == old(entity.changes) &&
              entity.persistStateChanges == (old(entity.persistStateChanges) && !disablePersistence)
    ensures entity != null && !Nullish(selfState) ==>
              r == Ok(entity) && entity.props == ApplySelfStatus(old(entity.props), ReadSelfStatus(selfState), parse) &&
              entity.persistStateChanges == (old(entity.persistStateChanges) || disablePersistence)
    ensures entity != null ==> entity.accessState == old(entity.accessState)
    ensures entity != null ==>
              SelfStatusLog(entity.changes, old(entity.changes), old(entity.persistStateChanges) && !disablePersistence)
  {
    if entity == null {
      return Ok(null);
    }
    if disablePersistence {
      entity.SetStateChangePersistence(false);
    }
    ghost var before := entity.changes;
    assert before[..|before|] == before;
    if Nullish(selfState) {
      return Err(TypeError);
    }
    var s := ReadSelfStatus(selfState);
    ghost var p0 := entity.props;
    UpdateDatabaseStates(entity, s, before);
    UpdateBackendStates(entity, s, parse, before);
    ApplyWritesAppend(p0, DatabaseWrites(s), BackendWrites(s, parse));

    if disablePersistence {
      entity.SetStateChangePersistence(true);
    }
    r := Ok(entity);
  }
}
