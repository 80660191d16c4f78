/**
 * mapAccessState: the access state of a conversation, decided first-match
 * from its team, its type, its access role and its access modes.
 */
module AccessStateMapping {
  import opened Wrappers
  import opened JsValue
  import opened ConversationEnums
  import opened ConversationEntity

  /** Role TEAM and the single mode INVITE. */
  predicate TeamOnlyAccess(accessModes: Value, accessRole: Value) {
    accessRole == Str(ACCESS_ROLE_TEAM) && accessModes == Arr([Str(ACCESS_MODE_INVITE)])
  }

  /** Role NON_ACTIVATED and exactly the modes CODE and INVITE, in either order. */
  predicate GuestRoomAccess(accessModes: Value, accessRole: Value) {
    accessRole == Str(ACCESS_ROLE_NON_ACTIVATED) &&
    (accessModes == Arr([Str(ACCESS_MODE_CODE), Str(ACCESS_MODE_INVITE)]) ||
     accessModes == Arr([Str(ACCESS_MODE_INVITE), Str(ACCESS_MODE_CODE)]))
  }

  lemma SubstringIsNoLonger(t: string, s: string)
    requires IsSubstring(t, s)
    ensures |t| <= |s|
  {
    var i :| 0 <= i <= |s| && OccursAt(t, s, i);
  }

  /**
   * What `includes` and `length` establish about a modes value: "includes
   * INVITE and has length 1" is the array [INVITE], "includes CODE and
   * INVITE and has length 2" is one of the two orderings of those modes.
   */
  lemma ModeChecks(accessModes: Value)
    requires accessModes.Arr? || accessModes.Str?
    ensures (Includes(accessModes, ACCESS_MODE_INVITE) && Get(accessModes, "length") == Num(1))
            <==> accessModes == Arr([Str(ACCESS_MODE_INVITE)])
    ensures (Includes(accessModes, ACCESS_MODE_CODE) && Includes(accessModes, ACCESS_MODE_INVITE) &&
             Get(accessModes, "length") == Num(2))
            <==> (accessModes == Arr([Str(ACCESS_MODE_CODE), Str(ACCESS_MODE_INVITE)]) ||
                  accessModes == Arr([Str(ACCESS_MODE_INVITE), Str(ACCESS_MODE_CODE)]))
  {
    match accessModes
    case Str(s) =>
      if Includes(accessModes, ACCESS_MODE_INVITE) {
        SubstringIsNoLonger(ACCESS_MODE_INVITE, s);
      }
    case Arr(items) =>
      if accessModes == Arr([Str(ACCESS_MODE_INVITE)]) {
        assert items[0] == Str(ACCESS_MODE_INVITE);
      }
      if accessModes == Arr([Str(ACCESS_MODE_CODE), Str(ACCESS_MODE_INVITE)]) {
        assert items[0] == Str(ACCESS_MODE_CODE) && items[1] == Str(ACCESS_MODE_INVITE);
      }
      if accessModes == Arr([Str(ACCESS_MODE_INVITE), Str(ACCESS_MODE_CODE)]) {
        assert items[1] == Str(ACCESS_MODE_CODE) && items[0] == Str(ACCESS_MODE_INVITE);
      }
      if Includes(accessModes, ACCESS_MODE_CODE) && Includes(accessModes, ACCESS_MODE_INVITE) && |items| == 2 {
        var i :| 0 <= i < |items| && items[i] == Str(ACCESS_MODE_CODE);
        var j :| 0 <= j < |items| && items[j] == Str(ACCESS_MODE_INVITE);
        assert i != j;
      }
  }

  /**
   * The decision as the source takes it: `includes` and `length` on the
   * modes, first match wins. Only the team branch looks at the modes, and
   * there a modes value without `includes` makes the call throw. The
   * contract is the decision table: a non-team conversation is self,
   * personal group or personal 1:1 by its type; a team 1:1 is TEAM.ONE2ONE
   * whatever its access; otherwise role TEAM with the single mode INVITE
   * is TEAM_ONLY, role NON_ACTIVATED with exactly CODE and INVITE is
   * GUEST_ROOM, any other modes array or string is LEGACY.
   */
  function AccessStateOf(teamId: Value, conversationType: Value, accessModes: Value, accessRole: Value)
    : (r: Result<AccessState, MapperError>)
    ensures !Truthy(teamId) ==>
              r == Ok(if IsSelf(conversationType) then SelfConversation
                      else if IsGroup(conversationType) then PersonalGroup
                      else PersonalOne2One)
    ensures r.Ok? ==> (r.value.IsTeamState() <==> Truthy(teamId))
    ensures r.Err? ==> r.error == TypeError
    ensures r == Ok(TeamOne2One) <==> Truthy(teamId) && Is1to1(conversationType)
    ensures r == Err(TypeError) <==>
              Truthy(teamId) && !Is1to1(conversationType) && !(accessModes.Arr? || accessModes.Str?)
    ensures r == Ok(TeamTeamOnly) <==>
              Truthy(teamId) && !Is1to1(conversationType) && TeamOnlyAccess(accessModes, accessRole)
    ensures r == Ok(TeamGuestRoom) <==>
              Truthy(teamId) && !Is1to1(conversationType) && GuestRoomAccess(accessModes, accessRole)
    ensures r == Ok(TeamLegacy) <==>
              Truthy(teamId) && !Is1to1(conversationType) && (accessModes.Arr? || accessModes.Str?) &&
              !TeamOnlyAccess(accessModes, accessRole) && !GuestRoomAccess(accessModes, accessRole)
  {
    if Truthy(teamId) then
      if Is1to1(conversationType) then Ok(TeamOne2One)
      else if !(accessModes.Arr? || accessModes.Str?) then Err(TypeError)
      else
        ModeChecks(accessModes);
        var length := Get(accessModes, "length");
        var includesInviteMode := Includes(accessModes, ACCESS_MODE_INVITE);
        var isInviteModeOnly := includesInviteMode && length == Num(1);
        if accessRole == Str(ACCESS_ROLE_TEAM) && isInviteModeOnly then
          Ok(TeamTeamOnly)
        else
          var includesCodeMode := Includes(accessModes, ACCESS_MODE_CODE);
          var isExpectedModes := includesCodeMode && includesInviteMode && length == Num(2);
          if accessRole == Str(ACCESS_ROLE_NON_ACTIVATED) && isExpectedModes then Ok(TeamGuestRoom)
          else Ok(TeamLegacy)
    else if IsSelf(conversationType) then Ok(SelfConversation)
    else if IsGroup(conversationType) then Ok(PersonalGroup)
    else Ok(PersonalOne2One)
  }

  /**
   * Sets the entity's access state from its `team_id` and `type`; when the
   * decision throws, nothing is set.
   */
  method MapAccessState(entity: Conversation, accessModes: Value, accessRole: Value)
    returns (r: Result<AccessState, MapperError>)
    modifies entity
    ensures r == AccessStateOf(old(entity.Property(TeamId)), old(entity.Property(Type)), accessModes, accessRole)
    ensures r.Ok? ==> entity.accessState == Some(r.value)
    ensures r.Ok? ==> entity.changes == old(entity.changes) + [AccessStateChange(entity.persistStateChanges)]
    ensures r.Err? ==> entity.accessState == old(entity.accessState) && entity.changes == old(entity.changes)
    ensures entity.props == old(entity.props) && entity.persistStateChanges == old(entity.persistStateChanges)
  {
    r := AccessStateOf(entity.Property(TeamId), entity.Property(Type), accessModes, accessRole);
    if r.Ok? {
      entity.SetAccessState(r.value);
    }
  }
}
