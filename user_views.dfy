/** User views (backend/apps/users/views.py): issuing API tokens and the
    follow relation. `authenticate` is an outside call whose answer is an
    input, and so is the random key a new token receives. */
module UserViews {
  import opened Common

  datatype Account = Account(id: int, username: string, isActive: bool, isStaff: bool)

  datatype TokenReply =
    | TokenIssued(token: string, userId: int, username: string, isStaff: bool)
    | TokenRefused(status: int, error: string)

  const MissingCredentials := "Username and password are required."
  const InvalidCredentials := "Invalid username or password."
  const AccountDisabled := "User account is disabled."

  /** `request.data.get(k)` is falsy: absent, or a false-like value. */
  predicate Blank(v: Option<Value>) {
    v.None? || !v.value.Truthy()
  }

  /** The reply of obtain_auth_token, given the stored tokens, the request
      fields, the account `authenticate` returned for them, and the key a
      newly created token would get. */
  function TokenReplyFor(tokens: map<int, string>, username: Option<Value>, password: Option<Value>,
                         authenticated: Option<Account>, freshKey: string): TokenReply
  {
    if Blank(username) || Blank(password) then TokenRefused(400, MissingCredentials)
    else if authenticated.None? then TokenRefused(401, InvalidCredentials)
    else if !authenticated.value.isActive then TokenRefused(401, AccountDisabled)
    else
      var a := authenticated.value;
      TokenIssued(if a.id in tokens then tokens[a.id] else freshKey, a.id, a.username, a.isStaff)
  }

  /** The token table after obtain_auth_token: only a successful call for
      a user without a token adds one. */
  function TokensAfter(tokens: map<int, string>, username: Option<Value>, password: Option<Value>,
                       authenticated: Option<Account>, freshKey: string): (r: map<int, string>)
    ensures r.Keys >= tokens.Keys
    ensures forall id :: id in tokens ==> r[id] == tokens[id]
  {
    if TokenReplyFor(tokens, username, password, authenticated, freshKey).TokenIssued? &&
       authenticated.value.id !in tokens
    then tokens[authenticated.value.id := freshKey]
    else tokens
  }

  /** The checks come in order: blank fields are refused with 400 whatever
      the credentials are, then the failed login and the disabled account
      with 401; every other call succeeds for the authenticated account. */
  lemma TokenCheckOrder(tokens: map<int, string>, username: Option<Value>, password: Option<Value>,
                        authenticated: Option<Account>, freshKey: string)
    ensures var r := TokenReplyFor(tokens, username, password, authenticated, freshKey);
      && (Blank(username) || Blank(password) <==> r == TokenRefused(400, MissingCredentials))
      && (!Blank(username) && !Blank(password) && authenticated.None? <==> r == TokenRefused(401, InvalidCredentials))
      && (r.TokenIssued? <==> !Blank(username) && !Blank(password) && authenticated.Some? && authenticated.value.isActive)
      && (r.TokenIssued? ==> r.userId == authenticated.value.id && r.username == authenticated.value.username &&
                             r.isStaff == authenticated.value.isStaff)
      && (r.TokenRefused? ==> TokensAfter(tokens, username, password, authenticated, freshKey) == tokens)
  {
  }

  /** A second successful call for the same account returns the token of
      the first, whatever key a new token would have received. */
  lemma SameTokenTwice(tokens: map<int, string>, username: Option<Value>, password: Option<Value>,
                       authenticated: Option<Account>, key1: string,
                       username2: Option<Value>, password2: Option<Value>, key2: string)
    requires TokenReplyFor(tokens, username, password, authenticated, key1).TokenIssued?
    requires TokenReplyFor(tokens, username2, password2, authenticated, key2).TokenIssued?
    ensures var t1 := TokensAfter(tokens, username, password, authenticated, key1);
      var r1 := TokenReplyFor(tokens, username, password, authenticated, key1);
      var r2 := TokenReplyFor(t1, username2, password2, authenticated, key2);
      r2 == r1 && TokensAfter(t1, username2, password2, authenticated, key2) == t1
  {
  }

  /** The token table (rest_framework's Token rows, one per user). */
  class TokenStore {
    var tokens: map<int, string>

    constructor ()
      ensures tokens == map[]
    {
      tokens := map[];
    }

    /** obtain_auth_token */
    method ObtainAuthToken(username: Option<Value>, password: Option<Value>,
                           authenticated: Option<Account>, freshKey: string) returns (r: TokenReply)
      modifies this
      ensures r == TokenReplyFor(old(tokens), username, password, authenticated, freshKey)
      ensures tokens == TokensAfter(old(tokens), username, password, authenticated, freshKey)
    {
      if Blank(username) || Blank(password) {
        return TokenRefused(400, MissingCredentials);
      }
      if authenticated.None? {
        return TokenRefused(401, InvalidCredentials);
      }
      var user := authenticated.value;
      if !user.isActive {
        return TokenRefused(401, AccountDisabled);
      }
      if user.id !in tokens {
        tokens := tokens[user.id := freshKey];
      }
      r := TokenIssued(tokens[user.id], user.id, user.username, user.isStaff);
    }
  }

  // ---------------------------------------------------------------------
  // Following

  /** A follow row, (follower, following). */
  type Pair = (int, int)

  datatype FollowReply =
    | FollowCreated(follower: int, following: int)
    | Message(status: int, message: string)
    | Failure(status: int, error: string)

  const NotFound := "Not found."
  const CannotFollowSelf := "You cannot follow yourself."
  const AlreadyFollowing := "You are already following this user."
  const Unfollowed := "Successfully unfollowed user."
  const NotFollowing := "You are not following this user."

  /** UserViewSet.follow by user `me` on user `target` (get_object answers
      404 for an unknown user). */
  function FollowReplyFor(users: set<int>, pairs: set<Pair>, me: int, target: int): FollowReply {
    if target !in users then Failure(404, NotFound)
    else if target == me then Failure(400, CannotFollowSelf)
    else if (me, target) in pairs then Message(200, AlreadyFollowing)
    else FollowCreated(me, target)
  }

  function PairsAfterFollow(users: set<int>, pairs: set<Pair>, me: int, target: int): (r: set<Pair>)
    ensures r >= pairs
  {
    if FollowReplyFor(users, pairs, me, target).FollowCreated? then pairs + {(me, target)} else pairs
  }

  /** UserViewSet.unfollow */
  function UnfollowReplyFor(users: set<int>, pairs: set<Pair>, me: int, target: int): FollowReply {
    if target !in users then Failure(404, NotFound)
    else if (me, target) in pairs then Message(200, Unfollowed)
    else Failure(404, NotFollowing)
  }

  function PairsAfterUnfollow(users: set<int>, pairs: set<Pair>, me: int, target: int): (r: set<Pair>)
    ensures r <= pairs
  {
    if target in users then pairs - {(me, target)} else pairs
  }

  /** Following yourself is refused with the set unchanged; a first follow
      adds exactly the pair with 201, and a repeat answers 200 without a
      change. */
  lemma FollowCases(users: set<int>, pairs: set<Pair>, me: int, target: int)
    requires target in users
    ensures target == me ==>
      FollowReplyFor(users, pairs, me, target) == Failure(400, CannotFollowSelf) &&
      PairsAfterFollow(users, pairs, me, target) == pairs
    ensures target != me && (me, target) !in pairs ==>
      FollowReplyFor(users, pairs, me, target) == FollowCreated(me, target) &&
      PairsAfterFollow(users, pairs, me, target) == pairs + {(me, target)}
    ensures target != me && (me, target) in pairs ==>
      FollowReplyFor(users, pairs, me, target) == Message(200, AlreadyFollowing) &&
      PairsAfterFollow(users, pairs, me, target) == pairs
  {
  }

  /** Unfollow removes an existing pair with 200 and answers 404 with the
      set unchanged when there is none. */
  lemma UnfollowCases(users: set<int>, pairs: set<Pair>, me: int, target: int)
    requires target in users
    ensures (me, target) in pairs ==>
      UnfollowReplyFor(users, pairs, me, target) == Message(200, Unfollowed) &&
      PairsAfterUnfollow(users, pairs, me, target) == pairs - {(me, target)} &&
      (me, target) !in PairsAfterUnfollow(users, pairs, me, target)
    ensures (me, target) !in pairs ==>
      UnfollowReplyFor(users, pairs, me, target) == Failure(404, NotFollowing) &&
      PairsAfterUnfollow(users, pairs, me, target) == pairs
  {
  }

  /** Following a new user and unfollowing them again restores the
      relation; so does following twice and unfollowing once. */
  lemma FollowUnfollowRoundTrip(users: set<int>, pairs: set<Pair>, me: int, target: int)
    requires (me, target) !in pairs
    ensures PairsAfterUnfollow(users, PairsAfterFollow(users, pairs, me, target), me, target) == pairs
    ensures var once := PairsAfterFollow(users, pairs, me, target);
      PairsAfterUnfollow(users, PairsAfterFollow(users, once, me, target), me, target) == pairs
  {
    var once := PairsAfterFollow(users, pairs, me, target);
    assert PairsAfterFollow(users, once, me, target) == once;
  }

  /** The rows a listing shows: those whose follower is `who` (following,
      my_following and FollowViewSet's default list) or whose followed user
      is `who` (followers, my_followers). */
  function FollowingOf(pairs: set<Pair>, who: int): (r: set<Pair>)
    ensures forall p :: p in r <==> p in pairs && p.0 == who
  {
    set p | p in pairs && p.0 == who
  }

  function FollowersOf(pairs: set<Pair>, who: int): (r: set<Pair>)
    ensures forall p :: p in r <==> p in pairs && p.1 == who
  {
    set p | p in pairs && p.1 == who
  }

  /** A follow shows up in the follower's following list and the followed
      user's followers list and in no one else's. */
  lemma FollowListed(users: set<int>, pairs: set<Pair>, me: int, target: int, who: int)
    requires FollowReplyFor(users, pairs, me, target).FollowCreated?
    ensures FollowingOf(PairsAfterFollow(users, pairs, me, target), who) ==
      FollowingOf(pairs, who) + (if who == me then {(me, target)} else {})
    ensures FollowersOf(PairsAfterFollow(users, pairs, me, target), who) ==
      FollowersOf(pairs, who) + (if who == target then {(me, target)} else {})
  {
  }

  /** The users and the follow rows. */
  class FollowGraph {
    var users: set<int>
    var pairs: set<Pair>

    constructor (users: set<int>)
      ensures this.users == users && pairs == {}
    {
      this.users := users;
      pairs := {};
    }

    /** The users `me` follows, as FollowViewSet.get_queryset lists them. */
    function MyFollowing(me: int): set<Pair>
      reads this
    {
      FollowingOf(pairs, me)
    }

    /** UserViewSet.follow */
    method Follow(me: int, target: int) returns (r: FollowReply)
      modifies this
      ensures r == FollowReplyFor(old(users), old(pairs), me, target)
      ensures users == old(users) && pairs == PairsAfterFollow(old(users), old(pairs), me, target)
    {
      if target !in users {
        return Failure(404, NotFound);
      }
      if target == me {
        return Failure(400, CannotFollowSelf);
      }
      if (me, target) in pairs {
        return Message(200, AlreadyFollowing);
      }
      pairs := pairs + {(me, target)};
      r := FollowCreated(me, target);
    }

    /** UserViewSet.unfollow */
    method Unfollow(me: int, target: int) returns (r: FollowReply)
      modifies this
      ensures r == UnfollowReplyFor(old(users), old(pairs), me, target)
      ensures users == old(users) && pairs == PairsAfterUnfollow(old(users), old(pairs), me, target)
    {
      if target !in users {
        return Failure(404, NotFound);
      }
      if (me, target) !in pairs {
        return Failure(404, NotFollowing);
      }
      pairs := pairs - {(me, target)};
      r := Message(200, Unfollowed);
    }
  }
}
