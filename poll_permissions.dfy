/** Poll permission classes (backend/apps/polls/permissions.py). A poll is
    represented by its nullable creator. */
module PollPermissions {
  import opened Common

  /** IsPollOwnerOrReadOnly.has_permission */
  predicate OwnerOrReadOnlyAllows(httpMethod: string, user: Requester) {
    if IsSafeMethod(httpMethod) then true else user.IsAuthenticated()
  }

  /** IsPollOwnerOrReadOnly.has_object_permission */
  predicate OwnerOrReadOnlyAllowsOn(httpMethod: string, user: Requester, createdBy: Option<int>) {
    if IsSafeMethod(httpMethod) then true else IsUser(user, createdBy)
  }

  /** CanModifyPoll.has_object_permission: its three branches (a safe
      method, a poll with votes, any other request) all allow. */
  predicate CanModifyPollOn(httpMethod: string, hasVotes: bool) {
    true
  }

  /** IsAdminOrPollOwner.has_permission: every request proceeds to the
      object check, so anonymous users are refused there (403, not 401). */
  predicate AdminOrOwnerAllows(httpMethod: string, user: Requester) {
    true
  }

  /** IsAdminOrPollOwner.has_object_permission */
  predicate AdminOrOwnerAllowsOn(user: Requester, createdBy: Option<int>) {
    if user.IsAuthenticated() && user.isStaff then true
    else if user.IsAuthenticated() then IsUser(user, createdBy)
    else false
  }

  /** Reads are open to all; writes need a signed-in user at request level
      and the poll's creator at object level. */
  lemma OwnerOrReadOnlyTable(httpMethod: string, user: Requester, createdBy: Option<int>)
    ensures IsSafeMethod(httpMethod) ==>
      OwnerOrReadOnlyAllows(httpMethod, user) && OwnerOrReadOnlyAllowsOn(httpMethod, user, createdBy)
    ensures !IsSafeMethod(httpMethod) ==>
      (OwnerOrReadOnlyAllows(httpMethod, user) <==> user.Member?) &&
      (OwnerOrReadOnlyAllowsOn(httpMethod, user, createdBy) <==> user.Member? && createdBy == Some(user.id))
    ensures !IsSafeMethod(httpMethod) ==> !OwnerOrReadOnlyAllowsOn(httpMethod, Anonymous, createdBy)
  {
  }

  /** CanModifyPoll never refuses, and IsAdminOrPollOwner never refuses at
      request level. */
  lemma PermissiveChecks(httpMethod: string, hasVotes: bool, user: Requester)
    ensures CanModifyPollOn(httpMethod, hasVotes)
    ensures AdminOrOwnerAllows(httpMethod, user)
  {
  }

  /** Staff always pass, a signed-in owner passes, a signed-in non-owner and
      the anonymous user do not. */
  lemma AdminOrOwnerTable(user: Requester, createdBy: Option<int>)
    ensures AdminOrOwnerAllowsOn(user, createdBy) <==>
      user.Member? && (user.isStaff || createdBy == Some(user.id))
    ensures !AdminOrOwnerAllowsOn(Anonymous, createdBy)
  {
  }
}
