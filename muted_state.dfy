/**
 * getMutedState: one notification state from the deprecated boolean
 * `otr_muted` and the bit mask `otr_muted_status`.
 */
module MutedStateMapping {
  import opened JsValue
  import opened ConversationEnums

  /** `Object.values(NOTIFICATION_STATE).includes(v)` */
  predicate IsNotificationState(v: Value) {
    v.Num? && v.n in NotificationStates
  }

  /** `n | 0b1` on a non-negative number. */
  function WithMutedBit(n: nat): nat {
    if n % 2 == 1 then n else n + 1
  }

  /**
   * A known bit mask wins: with a truthy legacy flag its low bit is forced
   * on, with a falsy one the result is EVERYTHING (not the mask). Without a
   * known mask a boolean flag is returned as it is, anything else gives
   * EVERYTHING.
   */
  function GetMutedState(mutedState: Value, notificationState: Value): (r: Value)
    ensures IsNotificationState(r) || r.Bool?
    ensures r.Bool? <==> !IsNotificationState(notificationState) && mutedState.Bool?
    ensures r.Bool? ==> r == mutedState
    ensures IsNotificationState(notificationState) ==>
              IsNotificationState(r) && (r.n % 2 == 1 <==> Truthy(mutedState))
    ensures IsNotificationState(notificationState) && Truthy(mutedState) ==>
              notificationState.n <= r.n <= notificationState.n + 1
    ensures IsNotificationState(notificationState) && !Truthy(mutedState) ==> r == Num(EVERYTHING)
    ensures !IsNotificationState(notificationState) && !mutedState.Bool? ==> r == Num(EVERYTHING)
  {
    if IsNotificationState(notificationState) then
      if Truthy(mutedState) then Num(WithMutedBit(notificationState.n)) else Num(EVERYTHING)
    else if mutedState.Bool? then mutedState
    else Num(EVERYTHING)
  }

  /** Concrete cases, including those where a falsy flag hides a known mask. */
  lemma MutedStateExamples()
    ensures GetMutedState(Bool(true), Undefined) == Bool(true)
    ensures GetMutedState(Undefined, Undefined) == Num(EVERYTHING)
    ensures GetMutedState(Bool(true), Num(MENTIONS_AND_REPLIES)) == Num(MENTIONS_AND_REPLIES)
    ensures GetMutedState(Bool(true), Num(EVERYTHING)) == Num(MENTIONS_AND_REPLIES)
    ensures GetMutedState(Bool(false), Num(NOTHING)) == Num(EVERYTHING)
    ensures GetMutedState(Bool(false), Num(2)) == Bool(false)
    ensures GetMutedState(Bool(true), Num(2)) == Bool(true)
  {
  }
}
