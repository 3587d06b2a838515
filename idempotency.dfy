/** Idempotency keys, the idempotency result cache, voter tokens and client
    IP extraction for vote casting (backend/core/utils/idempotency.py).

    SHA-256 is a parameter `sha` of type `Hasher`: any deterministic function
    from the encoded text to a 64-character lower-case hex digest. Request
    headers are the request's META dictionary; an absent header is an absent
    key. A key of `None` behaves exactly like the empty key everywhere in
    this file, so keys are plain strings. */
module Idempotency {
  import opened Common
  import opened Json

  predicate IsLowerHex(c: char) { IsDigit(c) || 'a' <= c <= 'f' }

  /** What `hashlib.sha256(...).hexdigest()` returns. */
  predicate IsDigest(s: string) {
    |s| == 64 && forall k :: 0 <= k < |s| ==> IsLowerHex(s[k])
  }

  type Digest = s: string | IsDigest(s)
    witness Zeros(64)

  type Hasher = string -> Digest

  // ---------------------------------------------------------------------
  // generate_idempotency_key

  /** `str(user_id)`: the user may be None for an anonymous voter. */
  function IdText(u: Option<int>): (r: string)
    ensures ':' !in r
  {
    match u
    case None => "None"
    case Some(i) => IntToString(i)
  }

  /** `f"{poll_id}:{choice_id}"` */
  function PollChoiceText(poll: int, choice: int): string {
    IntToString(poll) + ":" + IntToString(choice)
  }

  /** `f"{user_id}:{poll_id}:{choice_id}"` */
  function KeyMaterial(user: Option<int>, poll: int, choice: int): string {
    IdText(user) + ":" + PollChoiceText(poll, choice)
  }

  /** The idempotency key of a vote: the SHA-256 of the colon-joined triple.
      It is always a key that validation accepts. */
  function GenerateIdempotencyKey(sha: Hasher, user: Option<int>, poll: int, choice: int): (key: Digest)
    ensures key == sha(KeyMaterial(user, poll, choice))
    ensures ValidateIdempotencyKey(key)
  {
    var k := sha(KeyMaterial(user, poll, choice));
    DigestIsValidKey(k);
    k
  }

  lemma {:induction false} SplitAtColon(a: string, b: string, a': string, b': string)
    requires ':' !in a && ':' !in a'
    requires a + ":" + b == a' + ":" + b'
    ensures a == a' && b == b'
  {
    var s := a + ":" + b;
    assert SplitFirst(s, ':') == a by { assert s == a + (":" + b); SplitFirstBeforeSeparator(a, ":" + b); }
    assert SplitFirst(s, ':') == a' by { assert s == a' + (":" + b'); SplitFirstBeforeSeparator(a', ":" + b'); }
    assert b == s[|a| + 1..];
    assert b' == s[|a'| + 1..];
  }

  lemma {:induction false} SplitFirstBeforeSeparator(a: string, rest: string)
    requires ':' !in a && |rest| > 0 && rest[0] == ':'
    ensures SplitFirst(a + rest, ':') == a
  {
    if a != [] {
      assert (a + rest)[1..] == a[1..] + rest;
      SplitFirstBeforeSeparator(a[1..], rest);
    }
  }

  lemma IdTextInjective(u1: Option<int>, u2: Option<int>)
    requires IdText(u1) == IdText(u2)
    ensures u1 == u2
  {
    match u1
    case None =>
      match u2 {
        case None =>
        case Some(j) => IdTextOfSome(j); assert false;
      }
    case Some(i) =>
      if u2.Some? { IntToStringInjective(i, u2.value); }
  }

  lemma IdTextOfSome(i: int)
    ensures IdText(Some(i)) != "None"
  {
    assert IdText(Some(i))[0] != 'N';
  }

  lemma NoColonInInt(i: int)
    ensures ':' !in IntToString(i)
  {
    var r := IntToString(i);
    assert forall k :: 0 <= k < |r| ==> r[k] == '-' || IsDigit(r[k]);
  }

  lemma PollChoiceInjective(p1: int, c1: int, p2: int, c2: int)
    requires PollChoiceText(p1, c1) == PollChoiceText(p2, c2)
    ensures p1 == p2 && c1 == c2
  {
    NoColonInInt(p1);
    NoColonInInt(p2);
    SplitAtColon(IntToString(p1), IntToString(c1), IntToString(p2), IntToString(c2));
    IntToStringInjective(p1, p2);
    IntToStringInjective(c1, c2);
  }

  /** Distinct (user, poll, choice) triples give distinct hash inputs: the
      key can only coincide for distinct triples through a hash collision. */
  lemma KeyMaterialInjective(u1: Option<int>, p1: int, c1: int, u2: Option<int>, p2: int, c2: int)
    requires KeyMaterial(u1, p1, c1) == KeyMaterial(u2, p2, c2)
    ensures u1 == u2 && p1 == p2 && c1 == c2
  {
    SplitAtColon(IdText(u1), PollChoiceText(p1, c1), IdText(u2), PollChoiceText(p2, c2));
    IdTextInjective(u1, u2);
    PollChoiceInjective(p1, c1, p2, c2);
  }

  // ---------------------------------------------------------------------
  // validate_idempotency_key

  /** One or more hex digits, with single underscores allowed between digits. */
  predicate HexGroups(v: string) {
    |v| > 0 && IsHexDigit(v[0]) && IsHexDigit(v[|v| - 1]) &&
    (forall k :: 0 <= k < |v| ==> IsHexDigit(v[k]) || v[k] == '_') &&
    (forall k :: 0 <= k < |v| - 1 ==> !(v[k] == '_' && v[k + 1] == '_'))
  }

  /** With base 16, an optional `0x`/`0X` prefix, which may be followed by
      one underscore. */
  function Unprefixed(u: string): (w: string)
    ensures |u| >= 2 && u[0] == '0' && (u[1] == 'x' || u[1] == 'X') ==>
              w == (if |u| > 2 && u[2] == '_' then u[3..] else u[2..])
    ensures !(|u| >= 2 && u[0] == '0' && (u[1] == 'x' || u[1] == 'X')) ==> w == u
  {
    if |u| >= 2 && u[0] == '0' && (u[1] == 'x' || u[1] == 'X') then
      (if |u| > 2 && u[2] == '_' then u[3..] else u[2..])
    else u
  }

  /** Python's `int(s, 16)` does not raise: surrounding whitespace, one sign,
      an optional prefix, then hex digits with single underscores between them. */
  predicate ParsesAsBase16(s: string) {
    HexGroups(Unprefixed(Unsigned(Strip(s))))
  }

  /** A key is accepted when it is non-empty, 64 characters long, and
      `int(key, 16)` succeeds. Every 64-digit hex string is accepted. */
  function ValidateIdempotencyKey(key: string): (ok: bool)
    ensures ok ==> |key| == 64
    ensures |key| == 64 && AllHex(key) ==> ok
  {
    if key == [] then false
    else if |key| != 64 then false
    else
      HexStringParses(key);
      ParsesAsBase16(key)
  }

  predicate AllHex(key: string) {
    forall k :: 0 <= k < |key| ==> IsHexDigit(key[k])
  }

  lemma HexKeyStrip(key: string)
    requires |key| > 0 && AllHex(key)
    ensures Strip(key) == key
  {
    assert IsHexDigit(key[0]) && IsHexDigit(key[|key| - 1]);
    StripNoWhitespace(key);
  }

  lemma HexKeyDigits(key: string)
    requires |key| > 0 && AllHex(key)
    ensures Unprefixed(Unsigned(key)) == key
    ensures HexGroups(key)
  {
    assert IsHexDigit(key[0]);
    if |key| >= 2 { assert IsHexDigit(key[1]); }
  }

  lemma HexStringParses(key: string)
    ensures |key| > 0 && AllHex(key) ==> ParsesAsBase16(key)
  {
    if |key| > 0 && AllHex(key) {
      HexKeyStrip(key);
      HexKeyDigits(key);
    }
  }

  lemma DigestIsValidKey(d: Digest)
    ensures ValidateIdempotencyKey(d)
  {
    assert AllHex(d);
  }

  function Zeros(n: nat): (r: string)
    ensures |r| == n && forall k :: 0 <= k < n ==> r[k] == '0'
  {
    if n == 0 then "" else "0" + Zeros(n - 1)
  }

  lemma PrefixedKeyStrip(w: string)
    requires HexGroups(w)
    ensures Strip("0x" + w) == "0x" + w
  {
    var a := "0x" + w;
    assert a[0] == '0' && a[|a| - 1] == w[|w| - 1];
    StripNoWhitespace(a);
  }

  lemma PrefixedKeyDigits(w: string)
    requires HexGroups(w)
    ensures Unsigned("0x" + w) == "0x" + w
    ensures Unprefixed("0x" + w) == w
  {
    var a := "0x" + w;
    assert a[0] == '0' && a[1] == 'x' && a[2..] == w && a[2] == w[0];
  }

  lemma PrefixedParses(w: string)
    requires HexGroups(w)
    ensures ParsesAsBase16("0x" + w)
  {
    PrefixedKeyStrip(w);
    PrefixedKeyDigits(w);
  }

  lemma SignedParses(a: string)
    requires |a| >= 3 && a[0] == '-' && HexGroups(a[1..])
    requires !(a[1] == '0' && (a[2] == 'x' || a[2] == 'X'))
    ensures ParsesAsBase16(a)
  {
    assert Strip(a) == a by { assert a[|a| - 1] == a[1..][|a| - 2]; StripNoWhitespace(a); }
    assert Unsigned(a) == a[1..];
    assert Unprefixed(a[1..]) == a[1..];
  }

  /** Acceptance is looser than "64 hex digits": `int()` also takes a
      `0x` prefix, so a key made of that prefix and 62 hex digits passes
      although it is not a digest. */
  lemma AcceptsPrefixedKey(w: string)
    requires HexGroups(w) && |w| == 62
    ensures ValidateIdempotencyKey("0x" + w) && !IsDigest("0x" + w)
  {
    assert ("0x" + w)[1] == 'x';
    PrefixedParses(w);
  }

  /** Likewise a sign is accepted: a minus sign and 63 hex digits pass. */
  lemma AcceptsSignedKey(w: string)
    requires HexGroups(w) && |w| == 63
    ensures ValidateIdempotencyKey("-" + w) && !IsDigest("-" + w)
  {
    var b := "-" + w;
    assert b[1..] == w;
    assert IsHexDigit(w[1]) || w[1] == '_';
    SignedParses(b);
  }

  // ---------------------------------------------------------------------
  // check_idempotency / store_idempotency_result

  /** A cached operation result, with Python truthiness (None and `{}` are falsy). */
  datatype Cached = CachedNone | CachedDict(fields: map<string, Value>)
  {
    predicate Truthy() { CachedDict? && fields != map[] }
  }

  function CacheKey(key: string): string { "idempotency:" + key }

  lemma CacheKeyInjective(k1: string, k2: string)
    requires CacheKey(k1) == CacheKey(k2)
    ensures k1 == k2
  {
    assert k1 == CacheKey(k1)[12..];
    assert k2 == CacheKey(k2)[12..];
  }

  /** The answer of check_idempotency against the cache contents `entries`:
      an invalid key is never a duplicate and the cache is not consulted; a
      valid key is a duplicate exactly when a truthy result is cached for it. */
  function Lookup(entries: map<string, Cached>, key: string): (r: (bool, Option<Cached>))
    ensures !ValidateIdempotencyKey(key) ==> r == (false, None)
    ensures r.0 <==> ValidateIdempotencyKey(key) && CacheKey(key) in entries && entries[CacheKey(key)].Truthy()
    ensures r.0 ==> r.1 == Some(entries[CacheKey(key)])
    ensures !r.0 ==> r.1 == None
  {
    if !ValidateIdempotencyKey(key) then (false, None)
    else if CacheKey(key) in entries && entries[CacheKey(key)].Truthy() then (true, Some(entries[CacheKey(key)]))
    else (false, None)
  }

  /** The cache contents after store_idempotency_result (expiry not modelled). */
  function Stored(entries: map<string, Cached>, key: string, result: Cached): map<string, Cached> {
    if ValidateIdempotencyKey(key) then entries[CacheKey(key) := result] else entries
  }

  /** Round trip: a truthy result stored under a valid key is what the next
      check returns, as a duplicate. */
  lemma StoreThenCheck(entries: map<string, Cached>, key: string, result: Cached)
    requires ValidateIdempotencyKey(key) && result.Truthy()
    ensures Lookup(Stored(entries, key, result), key) == (true, Some(result))
  {
  }

  /** Storing a falsy result makes the key read as "not a duplicate". */
  lemma StoreFalsyThenCheck(entries: map<string, Cached>, key: string, result: Cached)
    requires !result.Truthy()
    ensures Lookup(Stored(entries, key, result), key) == (false, None)
  {
  }

  /** Storing under one key leaves every other key's answer unchanged, and
      storing under an invalid key changes nothing at all. */
  lemma StoreIsolated(entries: map<string, Cached>, key: string, other: string, result: Cached)
    requires other != key
    ensures Lookup(Stored(entries, key, result), other) == Lookup(entries, other)
    ensures !ValidateIdempotencyKey(key) ==> Stored(entries, key, result) == entries
  {
    if CacheKey(other) == CacheKey(key) { CacheKeyInjective(other, key); }
    var e2 := Stored(entries, key, result);
    var ck := CacheKey(other);
    assert ck in e2 <==> ck in entries;
    assert ck in e2 ==> e2[ck] == entries[ck];
  }

  /** The shared cache seen as an at-most-once result store. */
  class IdempotencyCache {
    var entries: map<string, Cached>

    constructor ()
      ensures entries == map[]
    {
      entries := map[];
    }

    /** check_idempotency */
    method Check(key: string) returns (isDuplicate: bool, cached: Option<Cached>)
      ensures (isDuplicate, cached) == Lookup(entries, key)
    {
      if !ValidateIdempotencyKey(key) {
        return false, None;
      }
      var ck := CacheKey(key);
      if ck in entries && entries[ck].Truthy() {
        return true, Some(entries[ck]);
      }
      return false, None;
    }

    /** store_idempotency_result */
    method Store(key: string, result: Cached)
      modifies this
      ensures entries == Stored(old(entries), key, result)
    {
      if !ValidateIdempotencyKey(key) {
        return;
      }
      entries := entries[CacheKey(key) := result];
    }
  }

  // ---------------------------------------------------------------------
  // check_duplicate_vote_by_idempotency

  /** The database check. `votes` maps each stored vote's idempotency key to
      the vote id; `None` stands for a query that raised. Invalid keys and
      failing queries both read as "not a duplicate" (it fails open). */
  function CheckDuplicateVote(key: string, votes: Option<map<string, nat>>): (r: (bool, Option<nat>))
    ensures r.0 <==> ValidateIdempotencyKey(key) && votes.Some? && key in votes.value
    ensures r.0 ==> r.1 == Some(votes.value[key])
    ensures !r.0 ==> r.1 == None
  {
    if !ValidateIdempotencyKey(key) then (false, None)
    else match votes
      case None => (false, None)
      case Some(v) => if key in v then (true, Some(v[key])) else (false, None)
  }

  // ---------------------------------------------------------------------
  // generate_voter_token

  /** `if user_id:`; 0 and None are both falsy. */
  predicate IdTruthy(u: Option<int>) { u.Some? && u.value != 0 }

  /** `value or ""` */
  function OrEmpty(s: Option<string>): (r: string)
    ensures s.None? ==> r == ""
    ensures s.Some? ==> r == s.value
  {
    if s.Some? then s.value else ""
  }

  /** The anonymous voter's identity object `{"ip", "ua", "fp"}`. */
  function AnonymousIdentity(ip: Option<string>, ua: Option<string>, fp: Option<string>): map<string, string> {
    map["ip" := OrEmpty(ip), "ua" := OrEmpty(ua), "fp" := OrEmpty(fp)]
  }

  function VoterTokenData(dumps: Dumps, user: Option<int>, ip: Option<string>, ua: Option<string>, fp: Option<string>): string {
    if IdTruthy(user) then "user:" + IntToString(user.value)
    else dumps(SortedItems(AnonymousIdentity(ip, ua, fp)))
  }

  function GenerateVoterToken(sha: Hasher, dumps: Dumps, user: Option<int>,
                              ip: Option<string>, ua: Option<string>, fp: Option<string>): Digest
  {
    sha(VoterTokenData(dumps, user, ip, ua, fp))
  }

  /** An authenticated voter's token depends on the user id alone. */
  lemma TokenOfAuthenticatedUser(sha: Hasher, dumps: Dumps, id: int,
                                 ip1: Option<string>, ua1: Option<string>, fp1: Option<string>,
                                 ip2: Option<string>, ua2: Option<string>, fp2: Option<string>)
    requires id != 0
    ensures GenerateVoterToken(sha, dumps, Some(id), ip1, ua1, fp1) == GenerateVoterToken(sha, dumps, Some(id), ip2, ua2, fp2)
    ensures GenerateVoterToken(sha, dumps, Some(id), ip1, ua1, fp1) == sha("user:" + IntToString(id))
  {
  }

  /** User id 0 takes the anonymous path, and a missing field hashes like an
      empty one. */
  lemma TokenOfAnonymousVoter(sha: Hasher, dumps: Dumps, ip: Option<string>, ua: Option<string>, fp: Option<string>)
    ensures GenerateVoterToken(sha, dumps, Some(0), ip, ua, fp) == GenerateVoterToken(sha, dumps, None, ip, ua, fp)
    ensures GenerateVoterToken(sha, dumps, None, ip, ua, fp)
         == GenerateVoterToken(sha, dumps, None, Some(OrEmpty(ip)), Some(OrEmpty(ua)), Some(OrEmpty(fp)))
  {
  }

  lemma IdentityKeyOrder()
    ensures LexLess("fp", "ip") && LexLess("ip", "ua")
    ensures !LexLess("fp", "fp") && !LexLess("ip", "fp") && !LexLess("ua", "fp")
    ensures !LexLess("ip", "ip") && !LexLess("ua", "ip") && !LexLess("ua", "ua")
  {
    LexIrreflexive("fp");
    LexIrreflexive("ip");
    LexIrreflexive("ua");
    assert "fp"[0] < "ip"[0] && "ip"[0] < "ua"[0];
    assert "fp"[0] < "ua"[0];
  }

  lemma IdentityKeysSorted()
    ensures SortedKeys({"fp", "ip", "ua"}) == ["fp", "ip", "ua"]
  {
    IdentityKeyOrder();
    SortedThree("fp", "ip", "ua");
  }

  /** Three keys in strictly ascending order sort to themselves. */
  lemma SortedThree(a: string, b: string, c: string)
    requires LexLess(a, b) && LexLess(b, c)
    requires !LexLess(a, a) && !LexLess(b, a) && !LexLess(c, a)
    requires !LexLess(b, b) && !LexLess(c, b) && !LexLess(c, c)
    ensures SortedKeys({a, b, c}) == [a, b, c]
  {
    var r := SortedKeys({a, b, c});
    assert a != b && b != c && a != c;
    assert |r| == 3;
    assert forall i :: 0 <= i < |r| ==> r[i] in {a, b, c};
    assert r[0] == a by {
      assert a in r;
    }
    assert r[2] == c by {
      assert c in r;
    }
    assert r[1] == b by {
      assert b in r;
    }
  }

  lemma SortedItemsByKeys(d: map<string, string>, ks: seq<string>)
    requires SortedKeys(d.Keys) == ks
    ensures forall k :: k in ks ==> k in d
    ensures SortedItems(d) == ItemsOf(d, ks)
  {
  }

  lemma ItemsOfIdentity(d: map<string, string>)
    requires forall k :: k in ["fp", "ip", "ua"] ==> k in d
    ensures ItemsOf(d, ["fp", "ip", "ua"]) == [("fp", d["fp"]), ("ip", d["ip"]), ("ua", d["ua"])]
  {
  }

  /** With keys sorted, the anonymous identity is serialised in the order
      fp, ip, ua. */
  lemma AnonymousIdentityOrder(ip: Option<string>, ua: Option<string>, fp: Option<string>)
    ensures SortedItems(AnonymousIdentity(ip, ua, fp))
         == [("fp", OrEmpty(fp)), ("ip", OrEmpty(ip)), ("ua", OrEmpty(ua))]
  {
    var d := AnonymousIdentity(ip, ua, fp);
    assert d.Keys == {"fp", "ip", "ua"};
    IdentityKeysSorted();
    SortedItemsByKeys(d, ["fp", "ip", "ua"]);
    ItemsOfIdentity(d);
  }

  // ---------------------------------------------------------------------
  // extract_ip_address

  const ForwardedForHeader := "HTTP_X_FORWARDED_FOR"
  const RealIpHeader := "HTTP_X_REAL_IP"
  const RemoteAddrKey := "REMOTE_ADDR"

  /** `x_forwarded_for.split(",")[0].strip()`: the first proxy-chain entry. */
  function FirstForwardedEntry(xff: string): (r: string)
    ensures ',' !in r
  {
    Strip(SplitFirst(xff, ','))
  }

  /** `request.META.get(k)` is truthy. */
  predicate HeaderSet(meta: map<string, string>, k: string) {
    k in meta && meta[k] != ""
  }

  /** Client IP with the precedence forwarded-for first entry, then real-ip,
      then the connection address; blank candidates are skipped and the
      result is never the empty string. */
  function ExtractIpAddress(meta: map<string, string>): (ip: Option<string>)
    ensures ip != Some("")
    ensures HeaderSet(meta, ForwardedForHeader) && FirstForwardedEntry(meta[ForwardedForHeader]) != ""
            ==> ip == Some(FirstForwardedEntry(meta[ForwardedForHeader]))
    ensures ip.None? <==>
              !(HeaderSet(meta, ForwardedForHeader) && FirstForwardedEntry(meta[ForwardedForHeader]) != "") &&
              !(HeaderSet(meta, RealIpHeader) && Strip(meta[RealIpHeader]) != "") &&
              !HeaderSet(meta, RemoteAddrKey)
  {
    if HeaderSet(meta, ForwardedForHeader) && FirstForwardedEntry(meta[ForwardedForHeader]) != "" then
      Some(FirstForwardedEntry(meta[ForwardedForHeader]))
    else if HeaderSet(meta, RealIpHeader) && Strip(meta[RealIpHeader]) != "" then
      Some(Strip(meta[RealIpHeader]))
    else if HeaderSet(meta, RemoteAddrKey) then
      Some(meta[RemoteAddrKey])
    else
      None
  }

  /** The real-ip header is consulted only when forwarded-for yields nothing,
      and the connection address only when neither header yields anything. */
  lemma ExtractIpFallbacks(meta: map<string, string>)
    ensures !(HeaderSet(meta, ForwardedForHeader) && FirstForwardedEntry(meta[ForwardedForHeader]) != "") &&
            HeaderSet(meta, RealIpHeader) && Strip(meta[RealIpHeader]) != ""
            ==> ExtractIpAddress(meta) == Some(Strip(meta[RealIpHeader]))
    ensures !(HeaderSet(meta, ForwardedForHeader) && FirstForwardedEntry(meta[ForwardedForHeader]) != "") &&
            !(HeaderSet(meta, RealIpHeader) && Strip(meta[RealIpHeader]) != "") &&
            HeaderSet(meta, RemoteAddrKey)
            ==> ExtractIpAddress(meta) == Some(meta[RemoteAddrKey])
  {
  }
}
