/** The subscription gate, `isUserSubscribed` (index.js:28-35). The call to
    the messaging platform is replaced by its answer: either the member's
    status string or an error. */
module Gate {

  datatype MemberAnswer =
    | MemberStatus(status: string)
    | MemberError

  /** The statuses the gate accepts, in the order the source lists them. */
  const SubscribedStatuses: seq<string> := ["member", "administrator", "creator"]

  /** True exactly when the platform answered with one of the three accepted
      statuses; every error, and every other status, denies access. */
  function IsUserSubscribed(answer: MemberAnswer): (subscribed: bool)
    ensures subscribed <==>
      answer.MemberStatus? &&
      (answer.status == "member" || answer.status == "administrator" || answer.status == "creator")
    ensures answer.MemberError? ==> !subscribed
  {
    match answer
    case MemberStatus(status) => status in SubscribedStatuses
    case MemberError => false
  }

  /** The statuses a platform reports for people outside the channel, or
      restricted in it, are all denied. */
  lemma OutsidersDenied()
    ensures !IsUserSubscribed(MemberStatus("left"))
    ensures !IsUserSubscribed(MemberStatus("kicked"))
    ensures !IsUserSubscribed(MemberStatus("restricted"))
    ensures !IsUserSubscribed(MemberStatus(""))
  {
  }
}
