/** Who may vote and who may retract (backend/apps/votes/permissions.py). */
module VotePermissions {
  import opened Common

  /** CanVotePermission.has_permission */
  predicate CanVote(httpMethod: string, user: Requester) {
    if IsSafeMethod(httpMethod) then true
    else if httpMethod == "POST" then true
    else if httpMethod == "DELETE" then user.IsAuthenticated()
    else false
  }

  /** CanVotePermission.has_object_permission: `voteUser` is the vote's
      (nullable) user. */
  predicate CanActOnVote(httpMethod: string, user: Requester, voteUser: Option<int>) {
    if httpMethod == "DELETE" then IsUser(user, voteUser) else true
  }

  /** The request-level decision, method by method. */
  lemma CanVoteTable(httpMethod: string, user: Requester)
    ensures IsSafeMethod(httpMethod) ==> CanVote(httpMethod, user)
    ensures httpMethod == "POST" ==> CanVote(httpMethod, Anonymous) && CanVote(httpMethod, user)
    ensures httpMethod == "DELETE" ==> (CanVote(httpMethod, user) <==> user.Member?)
    ensures !IsSafeMethod(httpMethod) && httpMethod != "POST" && httpMethod != "DELETE" ==> !CanVote(httpMethod, user)
  {
  }

  /** Only the owner may retract; an anonymous vote cannot be retracted by
      anyone, and every other method passes the object check. */
  lemma CanActOnVoteTable(httpMethod: string, user: Requester, voteUser: Option<int>)
    ensures httpMethod == "DELETE" ==> (CanActOnVote(httpMethod, user, voteUser) <==> user.Member? && voteUser == Some(user.id))
    ensures voteUser.None? && httpMethod == "DELETE" ==> !CanActOnVote(httpMethod, user, voteUser)
    ensures httpMethod != "DELETE" ==> CanActOnVote(httpMethod, user, voteUser)
  {
  }
}
