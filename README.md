# Conversation mapper

This project models the conversation mapper of a chat client (`ConversationMapper`).
The mapper turns conversation payloads into conversation entities. A payload is either a
record persisted in the local database or a payload sent by the backend. The mapper also
reconciles local records with backend payloads. The model covers these parts:

- `getMutedState`: the notification state derived from a legacy boolean and a bitmask
  (`muted_state.dfy`).
- `mapAccessState`: the first-match decision table that classifies the access state of a
  conversation (`access_state.dfy`).
- `updateProperties` and `updateSelfStatus`: the field-by-field updates of an entity. Each
  write is guarded by a presence test. `updateSelfStatus` switches persistence off around
  its updates only when `disablePersistence` is set; `updateProperties` never switches it off
  (`entity_update.dfy`).
- `_createConversationEntity` and `mapConversations`: build one entity from a payload, or a
  whole batch with position-based fallback timestamps (`entity_builder.dfy`).
- `mergeConversation`: merges the local records with the backend payloads. It covers field
  precedence, the local receipt-mode override, the role map, participant filtering, the
  timestamp fix-ups and the archived/muted reconciliation (`merge.dfy`).

Supporting modules:

- `JsValue` (`js_value.dfy`) models the JavaScript values the mapper works on: `undefined`,
  `null`, booleans, integer numbers, `NaN`, strings, arrays and plain objects. It also models
  truthiness, `||`, property reads, `===`, `<`, `includes`, property keys, and
  `new Date(v).getTime()`. The date parser is a parameter.
- `ConversationEntity` (`conversation.dfy`) is a class. It holds the entity's properties as a
  map, its access state, and its state-change persistence flag. A ghost log of changes records
  whether persistence was on when each change was made.
- `ConversationEnums` holds the enumeration values.
- `Wrappers` holds `Option` and `Result`.

Each imperative operation is a method over the entity class or over local variables. Each
method is proved against a specification function. The properties the code promises are
stated and proved as lemmas about those functions.

In these places the model follows the code as written:

- `getMutedState` with a valid bitmask and a falsy legacy flag gives `EVERYTHING`.
- A member's role is skipped when the role string is already a key of the role map. The code
  does not ask whether the member id is a key, so a later entry for the same id overwrites an
  earlier one: an earlier entry for the same id is not protected.
- The archived and muted settings of a merged record are taken from the backend when the local
  state (not the local timestamp) is undefined.
- `setStateChangePersistence(true)` is not in a `finally` block. When `updateSelfStatus`
  throws after switching persistence off, persistence stays off.
- The spread in the merge copies keys whose value is `undefined`. An undefined backend field
  therefore overwrites the local value.
- Comparisons with `NaN` are false.

## Model

| member | source | states |
|---|---|---|
| MutedStateMapping.GetMutedState | src/script/conversation/ConversationMapper.js:313-321 | With a valid notification state, a truthy legacy flag gives that state with bit 0 set and a falsy one gives EVERYTHING. Otherwise a boolean flag is returned as is and anything else gives EVERYTHING. The result is always a notification state or a boolean. |
| MutedStateMapping.MutedStateExamples | src/script/conversation/ConversationMapper.js:313-321 | Concrete cases, including that `false` with a valid bitmask gives EVERYTHING and that an unknown bitmask returns the boolean. |
| AccessStateMapping.AccessStateOf | src/script/conversation/ConversationMapper.js:438-473 | Team conversations, first match wins: 1:1 gives TEAM.ONE2ONE; role `team` with modes of length 1 including `invite` gives TEAM_ONLY; role `non_activated` with modes of length 2 including `code` and `invite` gives GUEST_ROOM; anything else gives LEGACY. Non-team: self gives SELF, group gives PERSONAL.GROUP, anything else gives PERSONAL.ONE2ONE. Each state is stated as an if-and-only-if. A team state results exactly when the team id is truthy. Modes that are neither an array nor a string throw a TypeError. |
| AccessStateMapping.ModeChecks | src/script/conversation/ConversationMapper.js:446-457 | The `includes`/`length` tests on an array or string of modes hold exactly for `[invite]`, and for `[code, invite]` in either order. |
| AccessStateMapping.SubstringIsNoLonger | src/script/conversation/ConversationMapper.js:446-457 | A substring is no longer than the string it occurs in, which rules out string modes in the table. |
| AccessStateMapping.MapAccessState | src/script/conversation/ConversationMapper.js:438-473 | Sets the entity's access state to AccessStateOf of its team id and type. It changes nothing else and logs one access-state change. |
| EntityUpdate.UpdateProperties | src/script/conversation/ConversationMapper.js:127-141 | Loops over the payload's entries and writes them one at a time. The final properties are UpdatedProps of the old ones, and the same entity is returned. A null or undefined payload throws a TypeError and changes nothing. |
| EntityUpdate.WriteEntry | src/script/conversation/ConversationMapper.js:128-137 | One entry is written exactly when its key is not `id`, its value is defined and the entity has that property. |
| EntityUpdate.UpdatedPropsStep | src/script/conversation/ConversationMapper.js:128-137 | Adding one entry to the payload changes the result only at that entry's property, under the same guard. |
| EntityUpdate.EntryWritesStep | src/script/conversation/ConversationMapper.js:128-137 | The generic form of the one-entry step that UpdatedPropsStep instantiates. |
| EntityUpdate.UpdatePropertiesEffect | src/script/conversation/ConversationMapper.js:127-141 | The set of properties is unchanged. `id` is never written. Every other property takes the payload's value when that value is defined, and otherwise keeps its old value. |
| EntityUpdate.UpdatePropertiesIdempotent | src/script/conversation/ConversationMapper.js:127-141 | Applying the same payload twice gives the same properties as applying it once. |
| EntityUpdate.UpdateSelfStatus | src/script/conversation/ConversationMapper.js:151-246 | No entity returns undefined. A null or undefined self state throws a TypeError before any write, leaving persistence off if it was switched off. Otherwise the properties become ApplySelfStatus of the old ones, persistence is back on when it was disabled, and every logged change made while disabled is marked unpersisted. |
| EntityUpdate.UpdateDatabaseStates | src/script/conversation/ConversationMapper.js:157-221 | The database-shape writes are applied in source order, each under its own guard. |
| EntityUpdate.UpdateBackendStates | src/script/conversation/ConversationMapper.js:223-238 | The backend-shape writes (`otr_archived`, `otr_muted`) are applied after the database ones. |
| EntityUpdate.SetPropertyWhen | src/script/conversation/ConversationMapper.js:173-238 | One guarded write extends the applied prefix of the write list by one. |
| EntityUpdate.SelfStatusWriteKeys | src/script/conversation/ConversationMapper.js:157-238 | The write list has one write per target, in the fixed source order. |
| EntityUpdate.LastWriteWins | src/script/conversation/ConversationMapper.js:223-238 | A property ends with the value of the last write to it whose guard holds. |
| EntityUpdate.UnwrittenKept | src/script/conversation/ConversationMapper.js:151-246 | A property that no enabled write targets keeps its value and its presence. |
| EntityUpdate.ApplyWritesAppend | src/script/conversation/ConversationMapper.js:157-238 | Applying two write lists in sequence is the same as applying their concatenation. |
| EntityUpdate.WrittenKeys | src/script/conversation/ConversationMapper.js:157-238 | The updated properties are the old ones plus the targets of the enabled writes. |
| EntityUpdate.WritesOverlay | src/script/conversation/ConversationMapper.js:157-238 | The writes act as an overlay that does not depend on the properties they do not touch. |
| EntityUpdate.OnlyWriteAt | src/script/conversation/ConversationMapper.js:173-221 | A property written once ends with that write's value if its guard holds, and otherwise keeps its old value. |
| EntityUpdate.TwoWritesAt | src/script/conversation/ConversationMapper.js:173-238 | A property written twice ends with the later enabled write's value. |
| EntityUpdate.SelfStatusTruthyField | src/script/conversation/ConversationMapper.js:194-221 | `last_event_timestamp`, `last_read_timestamp`, `last_server_timestamp` and `legal_hold_status` are applied only when truthy. |
| EntityUpdate.SelfStatusDefinedField | src/script/conversation/ConversationMapper.js:178-217 | `cleared_timestamp`, `ephemeral_timer`, `message_timer`, `receipt_mode`, `status` and `verification_state` are applied whenever they are not undefined, so 0 is applied. |
| EntityUpdate.SelfStatusArchived | src/script/conversation/ConversationMapper.js:173-230 | A defined `otr_archived` wins, with the parsed `otr_archived_ref` as the time. Otherwise a truthy `archived_timestamp` applies together with `archived_state`. Otherwise nothing changes. |
| EntityUpdate.SelfStatusMuted | src/script/conversation/ConversationMapper.js:206-238 | A defined `otr_muted` wins, with getMutedState of it and `otr_muted_status` as the state. Otherwise a truthy `muted_timestamp` applies together with `muted_state`. Otherwise nothing changes. |
| EntityUpdate.SelfStatusFrame | src/script/conversation/ConversationMapper.js:151-246 | The self-status update writes only the self-status targets. Every other property is unchanged, and no property is removed. |
| EntityUpdate.SelfStatusPerProperty | src/script/conversation/ConversationMapper.js:157-238 | Each property's final value is SelfStatusValue, an independent per-property reference definition. |
| EntityUpdate.SelfStatusIsOverlay | src/script/conversation/ConversationMapper.js:157-238 | The update is the old properties overlaid with the update applied to an empty entity. |
| EntityUpdate.SelfStatusIdempotent | src/script/conversation/ConversationMapper.js:151-246 | Applying the same self state twice gives the same properties as applying it once. |
| ConversationEntity.Conversation.constructor | src/script/conversation/ConversationMapper.js:265 | A new entity holds its id, every other property undefined, no access state, and persistence on. |
| ConversationEntity.Conversation.Set | src/script/conversation/ConversationMapper.js:174-237 | Writing an observable replaces one property and logs the change with the current persistence flag. |
| ConversationEntity.Conversation.Assign | src/script/conversation/ConversationMapper.js:268 | A plain field assignment replaces one property and logs nothing. |
| ConversationEntity.Conversation.SetAccessState | src/script/conversation/ConversationMapper.js:438-473 | Sets the access state and logs the change. |
| ConversationEntity.Conversation.SetStateChangePersistence | src/script/conversation/ConversationMapper.js:153-155 | Sets the persistence flag and changes nothing else. |
| ConversationEntity.PropNamedIn | src/script/conversation/ConversationMapper.js:130 | A found property has the given name. When none is found, no property has that name. |
| ConversationEntity.PropNameInjective | src/script/conversation/ConversationMapper.js:130 | Distinct properties have distinct names, so `hasOwnProperty(key)` picks at most one. |
| ConversationEntity.PropNamedFindsEvery | src/script/conversation/ConversationMapper.js:130 | Every property is found by its own name. |
| EntityBuilder.BuildConversation | src/script/conversation/ConversationMapper.js:256-304 | An undefined payload fails with MissingParameter. A payload that is not an object, or has no keys, fails with InvalidParameter. On success the payload has keys, a non-nullish self state and readable participants; exactly when it succeeds is stated by `EntityBuilder.BuildConversationSucceeds`. |
| EntityBuilder.BuildConversationFields | src/script/conversation/ConversationMapper.js:264-301 | A built entity has the payload's id, creator and type, `roles || {}`, `name || ''`, the participant ids, the truthy team id, and the payload's receipt mode, even when that is undefined. |
| EntityBuilder.BuildConversationTimestamps | src/script/conversation/ConversationMapper.js:273-278 | When the self state has no truthy last event timestamp, a truthy initial timestamp sets both the last event and the last server timestamp. Otherwise the self state's values stand. |
| EntityBuilder.BuildConversationSelfStatus | src/script/conversation/ConversationMapper.js:272-273 | Every other self-status property is the self state's value, read from `members.self` or from the payload itself. |
| EntityBuilder.BuildConversationAccess | src/script/conversation/ConversationMapper.js:294-299 | An access state is set exactly when the modes and the role are both truthy. It is then AccessStateOf the payload's team id, type, modes and role. |
| EntityBuilder.BuildConversationStages | src/script/conversation/ConversationMapper.js:264-303 | A built entity is the self-status update of the base properties, then completed with the payload fields. |
| EntityBuilder.BasePropertiesSet | src/script/conversation/ConversationMapper.js:264-270 | The base properties hold the id, `roles || {}`, creator, type and `name || ''`. |
| EntityBuilder.BasePropertiesUnset | src/script/conversation/ConversationMapper.js:264-270 | Every other base property is undefined. |
| EntityBuilder.MemberIds | src/script/conversation/ConversationMapper.js:281 | `others.map(o => o.id)` keeps length and order. It throws a TypeError exactly when some member is null or undefined. |
| EntityBuilder.ParticipantIds | src/script/conversation/ConversationMapper.js:281 | A truthy flat `others` is used as is. Otherwise the result is the ids of `members.others`, in order, and it fails with TypeError exactly when `members` is null or undefined, `members.others` is not an array, or one of its entries is null or undefined. |
| EntityBuilder.AccessAndReceiptProps | src/script/conversation/ConversationMapper.js:294-301 | The access step writes only the receipt mode among the properties. |
| EntityBuilder.CompleteConversationFallback | src/script/conversation/ConversationMapper.js:275-278 | The fallback sets both timestamps exactly when the last event timestamp is falsy and the initial timestamp is truthy. |
| EntityBuilder.CompleteConversationPayload | src/script/conversation/ConversationMapper.js:280-301 | The participants, the truthy team id, the truthy `is_guest` and the receipt mode are set from the payload. |
| EntityBuilder.CompleteConversationKeeps | src/script/conversation/ConversationMapper.js:275-301 | Completion leaves every other property unchanged. |
| EntityBuilder.CompleteConversationAccess | src/script/conversation/ConversationMapper.js:294-299 | The access state is set exactly when modes and role are truthy, and follows the decision table. |
| EntityBuilder.SelfStatusSurvives | src/script/conversation/ConversationMapper.js:273-301 | A self-status value survives completion unless completion writes that property. |
| EntityBuilder.SelfThenCompleteBase | src/script/conversation/ConversationMapper.js:264-301 | The base fields survive the self-status update and completion. |
| EntityBuilder.SelfThenCompletePayload | src/script/conversation/ConversationMapper.js:273-301 | The payload fields win over anything the self-status update wrote. |
| EntityBuilder.SelfThenCompleteAccess | src/script/conversation/ConversationMapper.js:273-299 | The access state depends only on the payload and the base team id and type. |
| EntityBuilder.SelfThenCompleteTimestamps | src/script/conversation/ConversationMapper.js:273-278 | The three cases of the timestamp fallback after the self-status update. |
| EntityBuilder.NewConversation | src/script/conversation/ConversationMapper.js:264-270 | A fresh entity holds exactly the base properties. |
| EntityBuilder.SetFallbackTimestamps | src/script/conversation/ConversationMapper.js:275-278 | The method performs the fallback-timestamp step. |
| EntityBuilder.SetTeamAndGuest | src/script/conversation/ConversationMapper.js:284-292 | The method performs the team id and guest step. |
| EntityBuilder.SetAccessAndReceipt | src/script/conversation/ConversationMapper.js:294-301 | The method performs the access and receipt step, failing exactly when the function does. |
| EntityBuilder.CompleteEntity | src/script/conversation/ConversationMapper.js:275-301 | The method performs completion, failing exactly when the function does. |
| EntityBuilder.CreateConversationEntity | src/script/conversation/ConversationMapper.js:256-304 | The method builds a fresh entity whose state is BuildConversation, or fails with the same error. Persistence stays on. |
| EntityBuilder.CompleteConversationSucceeds | src/script/conversation/ConversationMapper.js:280-303 | The steps after the self state succeed exactly when the participants can be read and, when the access modes and role are both truthy, the access-state decision for the team id and type held by then does not throw. |
| EntityBuilder.SelfThenCompleteSucceeds | src/script/conversation/ConversationMapper.js:271-303 | Starting from properties with no team id and the payload's type, the self-status update and the later steps succeed exactly when the payload `Completes` (readable participants, and an access decision that does not throw when modes and role are truthy): the self state never changes the team id or type the access decision reads. |
| EntityBuilder.BuildConversationSucceeds | src/script/conversation/ConversationMapper.js:256-304 | A payload builds exactly when it is `Buildable`: it has keys, its self state (`members.self`, or the payload) is not null or undefined, its participants can be read, and, when access modes and role are both truthy, the access-state decision for its team id and type does not throw. A keyed payload that is not `Buildable` fails with TypeError, and only such a payload does. |
| EntityBuilder.BuildAtSucceeds | src/script/conversation/ConversationMapper.js:112-114 | The batch callback succeeds on a payload exactly when that payload is `Buildable`, whatever fallback timestamp it is given. |
| EntityBuilder.MapIndexedSucceeds | src/script/conversation/ConversationMapper.js:112-114 | The indexed map succeeds exactly when every item passes a test that decides whether its call succeeds. |
| EntityBuilder.MapConversationsSucceeds | src/script/conversation/ConversationMapper.js:105-115 | A non-empty array batch maps exactly when every payload in it is `Buildable`, and then gives one entity per payload. |
| EntityBuilder.MapConversations | src/script/conversation/ConversationMapper.js:105-115 | An undefined batch fails with MissingParameter. A non-array or empty batch fails with InvalidParameter. A successful batch gives one entity per payload; exactly when a batch succeeds is stated by `EntityBuilder.MapConversationsSucceeds`. |
| EntityBuilder.MapIndexed | src/script/conversation/ConversationMapper.js:112-114 | The indexed map keeps the length. |
| EntityBuilder.MapIndexedElementwise | src/script/conversation/ConversationMapper.js:112-114 | Element `i` is the callback on item `i` with `start + i`. The map fails exactly when some call fails, with the first failing call's error. |
| EntityBuilder.MapConversationsElementwise | src/script/conversation/ConversationMapper.js:105-115 | Entity `i` is built from payload `i` with initial timestamp `timestamp + i`. A failing batch fails with its first failing payload's error. |
| EntityBuilder.MapConversationsFallback | src/script/conversation/ConversationMapper.js:112-114 | An entity without its own last event timestamp gets `timestamp + i`, when `timestamp + i` is non-zero (the fallback at line 275 is applied only when truthy). |
| EntityBuilder.MapConversationsFallbackOrder | src/script/conversation/ConversationMapper.js:105-115 | Of two entities without their own last event timestamp, the earlier one in the batch gets the smaller one: `timestamp + i` and `timestamp + j`, with the first `<` the second, when both are non-zero (the fallback at line 275 is applied only when truthy). |
| Merge.LiveLocals | src/script/conversation/ConversationMapper.js:331 | The filter keeps exactly the truthy local records. |
| Merge.LiveLocalsAppend | src/script/conversation/ConversationMapper.js:331 | The filter keeps order and multiplicity: filtering a concatenation concatenates the filtered parts. |
| Merge.KeepTruthy | src/script/conversation/ConversationMapper.js:331 | The filtering loop computes LiveLocals. |
| Merge.FindLocal | src/script/conversation/ConversationMapper.js:335 | `find` returns the first record whose id is strictly equal, and None exactly when there is none. |
| Merge.FindRecord | src/script/conversation/ConversationMapper.js:335 | The search loop computes FindLocal. |
| Merge.FindLiveFirst | src/script/conversation/ConversationMapper.js:331-335 | Searching the filtered records finds the first truthy local record, in input order, whose id is strictly equal, and finds nothing exactly when no truthy record has that id. |
| Merge.LocalForPicksLive | src/script/conversation/ConversationMapper.js:331-335 | The record a payload merges with is truthy and holds the payload's id. It is either one of the local records or the stub `{id}`. |
| Merge.AddRole | src/script/conversation/ConversationMapper.js:369-373 | One member's step throws exactly when the member is null or undefined. |
| Merge.RolesAfter | src/script/conversation/ConversationMapper.js:369-373 | The role loop throws a TypeError exactly when some member is null or undefined. |
| Merge.RolesOf | src/script/conversation/ConversationMapper.js:363-373 | Building the role map fails only with a TypeError. |
| Merge.CollectRoles | src/script/conversation/ConversationMapper.js:369-373 | The role loop computes RolesAfter and stops at the first throw. |
| Merge.RolesAfterExtends | src/script/conversation/ConversationMapper.js:369-373 | A role loop that throws on a prefix of the members throws on all of them. |
| Merge.RolesAfterSound | src/script/conversation/ConversationMapper.js:369-373 | The role loop keeps every key. Every entry it adds is a truthy role of a member, under that member's id. |
| Merge.RolesOfSound | src/script/conversation/ConversationMapper.js:363-373 | The role map holds only truthy roles, each under the id of the self member or another member carrying it. |
| Merge.RolesCompleteStep | src/script/conversation/ConversationMapper.js:369-373 | When no role string collides with a key, one more member with a truthy role gets its entry, and the map stays complete. |
| Merge.RolesAfterComplete | src/script/conversation/ConversationMapper.js:369-373 | When no role string collides with a key, the role loop adds the id of every member with a truthy role. Each such key holds the role of the last member with that id. The other initial entries are kept. |
| Merge.RolesOfComplete | src/script/conversation/ConversationMapper.js:363-373 | When no role string is a member id, the role map's keys are exactly the ids of the members (self first) with a truthy role. Each holds the role of the last of them with that id, so a later entry for an id overwrites an earlier one. |
| Merge.RolesAfterKeysGrow | src/script/conversation/ConversationMapper.js:369-373 | The role loop never removes a key. |
| Merge.RoleStringKeySkips | src/script/conversation/ConversationMapper.js:363-373 | When the self member has a truthy role, a member whose role string is the self member's id is skipped, whatever its own id: its step leaves the role map unchanged. |
| Merge.RoleStringKeyed | src/script/conversation/ConversationMapper.js:370 | Example: a member whose role string is the self member's id gets no entry. |
| Merge.RolesLaterEntryWins | src/script/conversation/ConversationMapper.js:370-371 | Example: of two entries for the same member id, the later one is kept. |
| Merge.UpdatesFields | src/script/conversation/ConversationMapper.js:350-377 | `updates` has exactly the ten backend fields. A numeric local receipt mode, NaN included, replaces the remote one. |
| Merge.BuildUpdates | src/script/conversation/ConversationMapper.js:350-377 | The method builds the `updates` object, including the receipt override. |
| Merge.CurrentMemberIds | src/script/conversation/ConversationMapper.js:384-386 | The ids are exactly those of the members with status CURRENT_MEMBER, and there are no more of them than members. |
| Merge.CurrentMemberIdsAppend | src/script/conversation/ConversationMapper.js:384-386 | The ids keep the members' order and multiplicity: the ids of a concatenation concatenate the ids of the parts. |
| Merge.CurrentMembers | src/script/conversation/ConversationMapper.js:384-386 | The filter-and-map loop computes CurrentMemberIds. |
| Merge.AdoptRemote | src/script/conversation/ConversationMapper.js:400-420 | With a NaN remote timestamp, the backend's setting is adopted exactly when the local state is undefined. |
| Merge.MergeRecord | src/script/conversation/ConversationMapper.js:333-427 | A payload's callback throws a TypeError exactly when the payload, its members or its self member is null or undefined, its others are not an array, or one of them is null or undefined. |
| Merge.MergeRecordStages | src/script/conversation/ConversationMapper.js:333-427 | A merged record is the spread of the local record and `updates`, then patched. |
| Merge.MergeRecordId | src/script/conversation/ConversationMapper.js:334-335 | A merged record carries its payload's id. |
| Merge.MergeRecordPrecedence | src/script/conversation/ConversationMapper.js:350-379 | Every field of `updates` is present with its `updates` value, even when undefined. Every property that neither `updates` nor a patch writes keeps the local value and presence. |
| Merge.MergeRecordOthers | src/script/conversation/ConversationMapper.js:381-387 | A group, or a record with falsy or empty local `others`, gets the ids of the current members in remote order. Any other record keeps its local `others`. |
| Merge.MergeRecordTimestamps | src/script/conversation/ConversationMapper.js:389-398 | The last event timestamp is the local one when truthy, and otherwise the position plus one. The last server timestamp is truthy and not below it, and is at least as large when both are numbers. |
| Merge.MergeRecordArchivedMuted | src/script/conversation/ConversationMapper.js:400-423 | The archived and muted settings and their times come from the backend exactly when AdoptRemote holds for the local ones: the local state is undefined, or the local timestamp is defined and the parsed remote one is greater. The muted state is then recomputed with getMutedState. Otherwise the local values stay. |
| Merge.MergedId | src/script/conversation/ConversationMapper.js:379 | The merged record's id is the local record's. |
| Merge.MergedUpdates | src/script/conversation/ConversationMapper.js:379 | Every key of `updates` is present with its `updates` value. |
| Merge.MergedKeeps | src/script/conversation/ConversationMapper.js:379-423 | An untouched key keeps the local value and presence. |
| Merge.MergedTimestamps | src/script/conversation/ConversationMapper.js:389-398 | The timestamp rule over the spread record. |
| Merge.MergedOthers | src/script/conversation/ConversationMapper.js:381-387 | The participants rule over the spread record. |
| Merge.MergedArchived | src/script/conversation/ConversationMapper.js:400-411 | The archived rule over the spread record. |
| Merge.MergedMuted | src/script/conversation/ConversationMapper.js:413-423 | The muted rule over the spread record. |
| Merge.SpreadKeeps | src/script/conversation/ConversationMapper.js:379 | A key that `updates` lacks keeps the local value in the spread. |
| Merge.UpdatesKeys | src/script/conversation/ConversationMapper.js:350-361 | `updates` has exactly the ten backend fields. |
| Merge.OwnEntriesGet | src/script/conversation/ConversationMapper.js:379 | The spread copies what a property read sees. |
| Merge.LocalForId | src/script/conversation/ConversationMapper.js:335 | The found record, or the stub, holds the payload's id. |
| Merge.PatchedKeeps | src/script/conversation/ConversationMapper.js:381-423 | The patches write only their seven properties. |
| Merge.OthersKeeps | src/script/conversation/ConversationMapper.js:383-387 | The participants patch writes only `others`. |
| Merge.TimestampsKeep | src/script/conversation/ConversationMapper.js:389-398 | The timestamp patch writes only the two timestamps. |
| Merge.ArchivedKeeps | src/script/conversation/ConversationMapper.js:408-411 | The archived patch writes only its two properties. |
| Merge.MutedKeeps | src/script/conversation/ConversationMapper.js:419-423 | The muted patch writes only its two properties. |
| Merge.OthersTimestampsKeep | src/script/conversation/ConversationMapper.js:381-398 | The first two patches leave the archived and muted properties alone. |
| Merge.ArchivedMutedKeep | src/script/conversation/ConversationMapper.js:400-423 | The last two patches leave every other property alone. |
| Merge.UpdateKeysUnpatched | src/script/conversation/ConversationMapper.js:350-423 | No field of `updates` is one that a patch writes. |
| Merge.TimestampsFixed | src/script/conversation/ConversationMapper.js:389-398 | The timestamp patch gives a truthy event timestamp and a truthy server timestamp not below it. |
| Merge.PatchedTimestamps | src/script/conversation/ConversationMapper.js:389-398 | The same, across all patches. |
| Merge.PatchedOthers | src/script/conversation/ConversationMapper.js:381-387 | The participants rule across all patches. |
| Merge.ArchivedReconciled | src/script/conversation/ConversationMapper.js:400-411 | The archived patch on its own. |
| Merge.PatchedArchived | src/script/conversation/ConversationMapper.js:400-411 | The archived rule across all patches. |
| Merge.MutedReconciled | src/script/conversation/ConversationMapper.js:413-423 | The muted patch on its own. |
| Merge.PatchedMuted | src/script/conversation/ConversationMapper.js:413-423 | The muted rule across all patches. |
| Merge.SetOthers | src/script/conversation/ConversationMapper.js:381-387 | The in-place participants patch computes WithOthers. |
| Merge.FixTimestamps | src/script/conversation/ConversationMapper.js:389-398 | The in-place timestamp patch computes WithTimestamps. |
| Merge.ReconcileArchived | src/script/conversation/ConversationMapper.js:400-411 | The in-place archived patch computes WithArchived. |
| Merge.ReconcileMuted | src/script/conversation/ConversationMapper.js:413-423 | The in-place muted patch computes WithMuted. |
| Merge.MergeOne | src/script/conversation/ConversationMapper.js:333-426 | The callback, written step by step, computes MergeRecord. |
| Merge.MapWithIndex | src/script/conversation/ConversationMapper.js:333 | The indexed map keeps the length. |
| Merge.MapWithIndexElementwise | src/script/conversation/ConversationMapper.js:333 | Element `i` is the callback on item `i` with index `i`. The map fails exactly when some call fails, with the first failing call's error. |
| Merge.MergeAll | src/script/conversation/ConversationMapper.js:333-426 | The merge gives one record per payload. |
| Merge.MergeAllElementwise | src/script/conversation/ConversationMapper.js:333-426 | Record `i` is merged from payload `i` at position `i`. The merge fails, with a TypeError, exactly when some payload's callback throws. |
| Merge.MergeAllStep | src/script/conversation/ConversationMapper.js:333-426 | Merging one more payload appends its record, or fails. |
| Merge.MergeAllExtends | src/script/conversation/ConversationMapper.js:333-426 | A merge that fails on a prefix fails on the whole list. |
| Merge.MergeConversations | src/script/conversation/ConversationMapper.js:330-427 | The merge fails only with a TypeError. On success it gives one record per remote payload, in order. |
| Merge.MergeConversation | src/script/conversation/ConversationMapper.js:330-427 | The loop over the payloads computes MergeConversations. |
| Merge.MergeConversationsAt | src/script/conversation/ConversationMapper.js:330-427 | Output `i` is the record merged from remote `i` over the truthy local records. |
| Merge.MergeConversationsFails | src/script/conversation/ConversationMapper.js:330-427 | The merge throws exactly when an argument is not an array or some payload's callback throws. |
| Merge.MergeConversationsRecords | src/script/conversation/ConversationMapper.js:330-398 | Every output carries its payload's id, a truthy last event timestamp, and a truthy last server timestamp not below it. |
| Merge.MergeConversationsLocal | src/script/conversation/ConversationMapper.js:331-379 | Falsy local records are dropped. Properties that no step writes come from the first truthy local record, in input order, whose id is strictly equal to the payload's. When there is none, they come from the stub `{id}`. |
| JsValue.DateTime | src/script/conversation/ConversationMapper.js:227 | `new Date(v).getTime()` is a number or NaN. Undefined gives NaN, null gives 0, an in-range number is kept, and a string goes through the parser and the time clip. |
| JsValue.Or | src/script/conversation/ConversationMapper.js:266 | `a \|\| b` is `a` when truthy and `b` otherwise. |

## Left out

- `mapAccessCode` is not modelled: it only builds a URL string from a browser global.
- Knockout observables are modelled as plain property writes. A write through an observable is logged as a state change, and a plain field assignment is not. `ko.isObservable` is decided by a fixed list of which entity properties are observables.
- `setTimestamp` is modelled as a plain write of the timestamp property. The `Conversation` entity is not part of this model. Its observables, `is1to1`, `isGroup` and `isSelf` are modelled as the mapper uses them: the last three are tests on `type` only, so the team 1:1 detection inside the entity is not captured.
- The enumeration files are not part of this model. Their values are the constants in `enums.dfy`.
- `new Date(...).getTime()` parsing of ISO-8601 strings is a parameter `parse` of type `string -> Option<int>`. Booleans count as 1 and 0. Arrays and objects are converted to their property-key string before parsing.
- Numbers are integers. Floating point, negative zero and infinities are not modelled. `NaN` is its own value.
- `<` is modelled on numbers, with null counting as 0 and booleans as 1 and 0. Comparisons involving undefined, NaN, strings, arrays or objects give false, so the string and object relational comparisons of JavaScript are not captured.
- The `in` test on the role map sees only the map's own keys. Keys inherited from `Object.prototype` (such as `constructor`) are not modelled.
- Spreading an array or a string local record copies nothing in the model. JavaScript would copy its index keys.
- `mapConversations` is modelled on entity states (properties plus access state) for the batch. Each single entity is also built by the imperative `CreateConversationEntity`.
- Exceptions are modelled as error results: MissingParameter, InvalidParameter, or TypeError where JavaScript would throw on reading a property of null or undefined, or on calling a missing method.
- EntityBuilder.BuildConversation: does not state the order of errors between an unreadable self state and unreadable participants; both give TypeError.
- `hasOwnProperty` on an entity ranges over the 22 modelled properties only (`conversation.dfy`). A payload key naming any other own property of the real entity is not written by `EntityUpdate.UpdateProperties`.
- A new entity starts with every property other than its id undefined (`conversation.dfy`), in place of the defaults the real entity's constructor sets.
