/**
 * The enumerations the mapper reads: notification states, conversation
 * types, membership status, access modes and roles, access states, and the
 * errors the mapper throws. The values are those the wire protocol uses.
 */
module ConversationEnums {

  // NOTIFICATION_STATE: a bit mask whose low bit means "muted at all".
  const EVERYTHING: int := 0
  const MENTIONS_AND_REPLIES: int := 1
  const NOTHING: int := 3
  const NotificationStates: set<int> := {EVERYTHING, MENTIONS_AND_REPLIES, NOTHING}

  // ConversationType
  const GROUP: int := 0
  const SELF: int := 1
  const ONE_TO_ONE: int := 2

  // ConversationStatus of a member
  const CURRENT_MEMBER: int := 0

  // ACCESS_MODE and ACCESS_ROLE
  const ACCESS_MODE_CODE: string := "code"
  const ACCESS_MODE_INVITE: string := "invite"
  const ACCESS_ROLE_TEAM: string := "team"
  const ACCESS_ROLE_NON_ACTIVATED: string := "non_activated"

  /** ACCESS_STATE: who may join a conversation, as the client classifies it. */
  datatype AccessState =
    | TeamOne2One
    | TeamTeamOnly
    | TeamGuestRoom
    | TeamLegacy
    | SelfConversation
    | PersonalGroup
    | PersonalOne2One
  {
    predicate IsTeamState() {
      this in {TeamOne2One, TeamTeamOnly, TeamGuestRoom, TeamLegacy}
    }
  }

  /**
   * MISSING_PARAMETER and INVALID_PARAMETER are the ConversationError
   * types the mapper throws itself; TypeError is what the JavaScript
   * runtime throws when the mapper reads a property of null or undefined
   * or calls a method a value does not have.
   */
  datatype MapperError = MissingParameter | InvalidParameter | TypeError
}
