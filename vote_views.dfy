/** The vote endpoints (backend/apps/votes/views.py): the outcome table of
    `cast`, the guarded retraction in `destroy` with its two counter
    updates, and the throttle and queryset selection. cast_vote itself is
    not part of this model; its result or exception is an input. */
module VoteViews {
  import opened Common

  // ---------------------------------------------------------------------
  // cast

  /** The exceptions `cast` distinguishes; any other exception raised by
      cast_vote (rate limiting included) is `OtherError`. */
  datatype ErrorKind =
    | PollNotFoundError | InvalidPollError | PollClosedError | InvalidVoteError
    | DuplicateVoteError | FraudDetectedError | CaptchaVerificationError
    | IPBlockedError | FingerprintValidationError | OtherError(className: string)

  /** The exception's class name, which is also the reported error code. */
  function ClassName(k: ErrorKind): string {
    match k
    case PollNotFoundError => "PollNotFoundError"
    case InvalidPollError => "InvalidPollError"
    case PollClosedError => "PollClosedError"
    case InvalidVoteError => "InvalidVoteError"
    case DuplicateVoteError => "DuplicateVoteError"
    case FraudDetectedError => "FraudDetectedError"
    case CaptchaVerificationError => "CaptchaVerificationError"
    case IPBlockedError => "IPBlockedError"
    case FingerprintValidationError => "FingerprintValidationError"
    case OtherError(name) => name
  }

  /** What cast_vote did: it returned the vote (serialised) and whether it
      is new, or raised. */
  datatype CastOutcome = Cast(vote: string, isNew: bool) | CastRaised(kind: ErrorKind, message: string)

  /** A response body: a serialised vote, or an error with an optional code. */
  datatype Body = VoteBody(vote: string) | ErrorBody(error: string, errorCode: Option<string>) | Empty

  datatype Reply = Reply(status: int, body: Body)

  /** The status of each listed exception. */
  function ErrorStatus(k: ErrorKind): (status: int)
    ensures k.OtherError? <==> status == 500
  {
    match k
    case PollNotFoundError => 404
    case InvalidPollError => 400
    case PollClosedError => 400
    case InvalidVoteError => 400
    case CaptchaVerificationError => 400
    case FingerprintValidationError => 400
    case DuplicateVoteError => 409
    case FraudDetectedError => 403
    case IPBlockedError => 403
    case OtherError(_) => 500
  }

  const InternalErrorText := "An internal server error occurred"

  /** The response to an exception from cast_vote: listed exceptions carry
      their text and class name; any other gets a fixed 500 body. */
  function ExceptionReply(k: ErrorKind, message: string): (r: Reply)
    ensures r.status == ErrorStatus(k)
    ensures !k.OtherError? ==> r.body == ErrorBody(message, Some(ClassName(k)))
    ensures k.OtherError? ==> r.body == ErrorBody(InternalErrorText, Some("InternalServerError"))
  {
    if k.OtherError? then Reply(500, ErrorBody(InternalErrorText, Some("InternalServerError")))
    else Reply(ErrorStatus(k), ErrorBody(message, Some(ClassName(k))))
  }

  /** The status table of the listed exceptions. */
  lemma ExceptionStatusTable(message: string)
    ensures ExceptionReply(PollNotFoundError, message).status == 404
    ensures forall k :: k in {InvalidPollError, PollClosedError, InvalidVoteError, CaptchaVerificationError, FingerprintValidationError}
              ==> ExceptionReply(k, message).status == 400
    ensures ExceptionReply(DuplicateVoteError, message).status == 409
    ensures ExceptionReply(FraudDetectedError, message).status == 403 && ExceptionReply(IPBlockedError, message).status == 403
  {
  }

  /** An unexpected exception's text never reaches the client. */
  lemma InternalErrorHidesMessage(name: string, m1: string, m2: string)
    ensures ExceptionReply(OtherError(name), m1) == ExceptionReply(OtherError(name), m2)
  {
  }

  /** The poll as the anonymous-voter check sees it. */
  datatype PollRules = PollRules(securityRules: map<string, Value>)

  /** `cast` after request validation. `poll` is the poll looked up for an
      anonymous voter (`None` when it does not exist); `outcome` is what
      cast_vote would do. */
  function CastReply(user: Requester, poll: Option<PollRules>, outcome: CastOutcome): (r: Reply)
    ensures user.Anonymous? && poll.Some? ==> r.status == 401
    ensures (user.Member? || poll.None?) && outcome.Cast? ==>
              r == Reply(if outcome.isNew then 201 else 200, VoteBody(outcome.vote))
    ensures (user.Member? || poll.None?) && outcome.CastRaised? ==> r == ExceptionReply(outcome.kind, outcome.message)
  {
    if user.Anonymous? && poll.Some? then
      if FlagSet(poll.value.securityRules, "require_authentication") then
        Reply(401, ErrorBody("This poll requires authentication", None))
      else
        Reply(401, ErrorBody("Authentication required to vote", None))
    else
      match outcome
      case Cast(vote, isNew) => Reply(if isNew then 201 else 200, VoteBody(vote))
      case CastRaised(k, m) => ExceptionReply(k, m)
  }

  /** An anonymous request for an existing poll is refused before cast_vote
      is reached, so cast_vote's behaviour cannot affect the reply. */
  lemma AnonymousRefusedBeforeCast(poll: PollRules, o1: CastOutcome, o2: CastOutcome)
    ensures CastReply(Anonymous, Some(poll), o1) == CastReply(Anonymous, Some(poll), o2)
  {
  }

  /** A replay differs from the first cast only in its status. */
  lemma ReplayCarriesSameVote(user: Requester, poll: Option<PollRules>, vote: string)
    requires user.Member? || poll.None?
    ensures CastReply(user, poll, Cast(vote, true)).body == CastReply(user, poll, Cast(vote, false)).body
    ensures CastReply(user, poll, Cast(vote, true)).status == 201 && CastReply(user, poll, Cast(vote, false)).status == 200
  {
  }

  // ---------------------------------------------------------------------
  // get_throttles, get_queryset

  /** Only the cast action is rate limited. */
  function Throttles(action: string): (r: seq<string>)
    ensures r != [] <==> action == "cast"
  {
    if action == "cast" then ["VoteCastRateThrottle"] else []
  }

  /** A stored vote: its (nullable) user, its option and its poll. */
  datatype Vote = Vote(user: Option<int>, optionId: int, pollId: int)

  /** get_queryset: the requester's own votes, none for an anonymous user. */
  function VisibleVotes(votes: map<int, Vote>, user: Requester): (r: map<int, Vote>)
    ensures forall id :: id in r <==> id in votes && IsUser(user, votes[id].user)
    ensures forall id :: id in r ==> r[id] == votes[id]
    ensures user.Anonymous? ==> r == map[]
  {
    map id | id in votes && IsUser(user, votes[id].user) :: votes[id]
  }

  // ---------------------------------------------------------------------
  // destroy

  /** A poll as retraction sees it (`is_open` is computed by the poll model,
      which is not part of this model). */
  datatype PollState = PollState(settings: map<string, Value>, isOpen: bool)

  /** The stored votes, option counters, poll counters and polls. */
  datatype Store = Store(votes: map<int, Vote>, optionCounts: map<int, int>,
                         pollTotals: map<int, int>, polls: map<int, PollState>)

  /** Every vote belongs to a stored poll (a foreign key). */
  predicate WellFormed(st: Store) {
    forall id :: id in st.votes ==> st.votes[id].pollId in st.polls
  }

  /** The reply of `destroy`: the guards in order (not found, not the
      owner, retraction disabled, poll closed), then 204. */
  function RetractReply(st: Store, voteId: int, user: Requester): (r: Reply)
    requires WellFormed(st)
    ensures voteId !in st.votes ==> r == Reply(404, ErrorBody("Vote not found", None))
    ensures voteId in st.votes && !IsUser(user, st.votes[voteId].user) ==>
              r == Reply(403, ErrorBody("You can only retract your own votes", None))
    ensures r.status == 204 <==>
              voteId in st.votes && IsUser(user, st.votes[voteId].user) &&
              FlagSet(st.polls[st.votes[voteId].pollId].settings, "allow_vote_retraction") &&
              st.polls[st.votes[voteId].pollId].isOpen
    ensures r.status in {204, 403, 404}
  {
    if voteId !in st.votes then Reply(404, ErrorBody("Vote not found", None))
    else
      var v := st.votes[voteId];
      var poll := st.polls[v.pollId];
      if !IsUser(user, v.user) then Reply(403, ErrorBody("You can only retract your own votes", None))
      else if !FlagSet(poll.settings, "allow_vote_retraction") then
        Reply(403, ErrorBody("This poll does not allow vote retraction", None))
      else if !poll.isOpen then Reply(403, ErrorBody("Cannot retract vote from closed poll", None))
      else Reply(204, Empty)
  }

  /** `filter(id=k).update(n = F(n) - 1)`: no row, no change. */
  function Decrement(counts: map<int, int>, k: int): (r: map<int, int>)
    ensures r.Keys == counts.Keys
    ensures k in counts ==> r[k] == counts[k] - 1
    ensures forall j :: j in counts && j != k ==> r[j] == counts[j]
  {
    if k in counts then counts[k := counts[k] - 1] else counts
  }

  /** The store after `destroy`. */
  function Retracted(st: Store, voteId: int, user: Requester): Store
    requires WellFormed(st)
  {
    if RetractReply(st, voteId, user).status != 204 then st
    else
      var v := st.votes[voteId];
      Store(st.votes - {voteId}, Decrement(st.optionCounts, v.optionId),
            Decrement(st.pollTotals, v.pollId), st.polls)
  }

  /** A refused retraction changes nothing; a successful one removes exactly
      that vote, lowers its option's and its poll's counters by one, and
      leaves every other vote, counter and poll as it was. */
  lemma RetractionEffect(st: Store, voteId: int, user: Requester)
    requires WellFormed(st)
    ensures var st' := Retracted(st, voteId, user);
      WellFormed(st') &&
      (RetractReply(st, voteId, user).status != 204 ==> st' == st) &&
      (RetractReply(st, voteId, user).status == 204 ==>
        var v := st.votes[voteId];
        st'.votes.Keys == st.votes.Keys - {voteId} &&
        (forall id :: id in st'.votes ==> st'.votes[id] == st.votes[id]) &&
        st'.optionCounts.Keys == st.optionCounts.Keys &&
        (v.optionId in st.optionCounts ==> st'.optionCounts[v.optionId] == st.optionCounts[v.optionId] - 1) &&
        (forall o :: o in st.optionCounts && o != v.optionId ==> st'.optionCounts[o] == st.optionCounts[o]) &&
        st'.pollTotals.Keys == st.pollTotals.Keys &&
        (v.pollId in st.pollTotals ==> st'.pollTotals[v.pollId] == st.pollTotals[v.pollId] - 1) &&
        (forall p :: p in st.pollTotals && p != v.pollId ==> st'.pollTotals[p] == st.pollTotals[p]) &&
        st'.polls == st.polls)
  {
  }

  /** Only the owner can ever retract, and never on a closed poll or one
      that does not allow retraction. */
  lemma RetractionNeedsOwnerAndOpenPoll(st: Store, voteId: int, user: Requester)
    requires WellFormed(st)
    requires Retracted(st, voteId, user) != st
    ensures voteId in st.votes && user.Member? && st.votes[voteId].user == Some(user.id)
    ensures st.polls[st.votes[voteId].pollId].isOpen
  {
  }

  /** The vote tables, as the view updates them. */
  class VoteStore {
    var votes: map<int, Vote>
    var optionCounts: map<int, int>
    var pollTotals: map<int, int>
    var polls: map<int, PollState>

    function State(): Store
      reads this
    {
      Store(votes, optionCounts, pollTotals, polls)
    }

    constructor (st: Store)
      ensures State() == st
    {
      votes := st.votes;
      optionCounts := st.optionCounts;
      pollTotals := st.pollTotals;
      polls := st.polls;
    }

    /** destroy */
    method Destroy(voteId: int, user: Requester) returns (r: Reply)
      requires WellFormed(State())
      modifies this
      ensures r == RetractReply(old(State()), voteId, user)
      ensures State() == Retracted(old(State()), voteId, user)
    {
      if voteId !in votes {
        return Reply(404, ErrorBody("Vote not found", None));
      }
      var v := votes[voteId];
      if !IsUser(user, v.user) {
        return Reply(403, ErrorBody("You can only retract your own votes", None));
      }
      var poll := polls[v.pollId];
      if !FlagSet(poll.settings, "allow_vote_retraction") {
        return Reply(403, ErrorBody("This poll does not allow vote retraction", None));
      }
      if !poll.isOpen {
        return Reply(403, ErrorBody("Cannot retract vote from closed poll", None));
      }
      votes := votes - {voteId};
      optionCounts := Decrement(optionCounts, v.optionId);
      pollTotals := Decrement(pollTotals, v.pollId);
      return Reply(204, Empty);
    }
  }
}
