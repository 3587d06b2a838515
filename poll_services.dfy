/** Poll services (backend/apps/polls/services.py): who may see results,
    the two per-poll key formats, and cloning a poll with its options. */
module PollServices {
  import opened Common

  /** can_view_results. `isOpen` is the poll's computed open state. */
  function CanViewResults(settings: map<string, Value>, createdBy: Option<int>, isOpen: bool,
                          user: Requester): (r: bool)
    ensures r <==> (!FlagSet(settings, "is_private") || IsUser(user, createdBy)) &&
                   (FlagSet(settings, "show_results_during_voting") || !isOpen)
  {
    if FlagSet(settings, "is_private") && (!user.IsAuthenticated() || !IsUser(user, createdBy)) then false
    else if !FlagSet(settings, "show_results_during_voting") && isOpen then false
    else true
  }

  /** A private poll's results are hidden from the anonymous user and from
      everyone but its creator; a public poll that is closed, or that shows
      results during voting, is visible to everyone. */
  lemma ResultVisibility(settings: map<string, Value>, createdBy: Option<int>, isOpen: bool,
                         user: Requester)
    ensures FlagSet(settings, "is_private") && !IsUser(user, createdBy) ==>
      !CanViewResults(settings, createdBy, isOpen, user)
    ensures FlagSet(settings, "is_private") ==> !CanViewResults(settings, createdBy, isOpen, Anonymous)
    ensures !FlagSet(settings, "is_private") && (!isOpen || FlagSet(settings, "show_results_during_voting")) ==>
      CanViewResults(settings, createdBy, isOpen, user)
  {
  }

  // ---------------------------------------------------------------------
  // Key formats

  /** get_results_cache_key */
  function ResultsCacheKey(pollId: int): (k: string)
    ensures StartsWith(k, "poll_results:")
  {
    "poll_results:" + IntToString(pollId)
  }

  /** get_poll_group_name */
  function PollGroupName(pollId: int): (k: string)
    ensures StartsWith(k, "poll_") && |k| >= 14 && k[|k| - 8..] == "_results"
  {
    "poll_" + IntToString(pollId) + "_results"
  }

  /** Each key carries the poll id, printed as `str()` prints it, between
      its fixed prefix and suffix. */
  lemma KeysCarryPollId(pollId: int)
    ensures var k := ResultsCacheKey(pollId); k[13..] == IntToString(pollId)
    ensures var k := PollGroupName(pollId); k[5..|k| - 8] == IntToString(pollId)
  {
    var k := PollGroupName(pollId);
    assert k == "poll_" + IntToString(pollId) + "_results";
  }

  /** Distinct polls get distinct keys of each kind, and a results cache
      key is never a group name. */
  lemma KeyFormatsDistinct(a: int, b: int)
    ensures ResultsCacheKey(a) == ResultsCacheKey(b) ==> a == b
    ensures PollGroupName(a) == PollGroupName(b) ==> a == b
    ensures ResultsCacheKey(a) != PollGroupName(b)
  {
    if ResultsCacheKey(a) == ResultsCacheKey(b) {
      assert ResultsCacheKey(a)[13..] == IntToString(a);
      assert ResultsCacheKey(b)[13..] == IntToString(b);
      IntToStringInjective(a, b);
    }
    if PollGroupName(a) == PollGroupName(b) {
      var ka, kb := PollGroupName(a), PollGroupName(b);
      assert ka[5..|ka| - 8] == IntToString(a);
      assert kb[5..|kb| - 8] == IntToString(b);
      IntToStringInjective(a, b);
    }
    // At index 5 a results key has 'r', a group name a digit or '-'.
    assert ResultsCacheKey(a)[5] == 'r';
    assert PollGroupName(b)[5] == IntToString(b)[0];
  }

  // ---------------------------------------------------------------------
  // Cloning

  datatype PollRecord = PollRecord(
    title: string, description: string, createdBy: Option<int>,
    startsAt: Option<int>, endsAt: Option<int>, isActive: bool, isDraft: bool,
    settings: map<string, Value>, securityRules: map<string, Value>,
    cachedTotalVotes: nat, cachedUniqueVoters: nat)

  datatype OptionRecord = OptionRecord(pollId: int, text: string, order: int, cachedVoteCount: nat)

  const MaxTitleLength: nat := 200

  /** The clone's title: `newTitle` verbatim when given, else "Copy of "
      and the original, cut to 197 characters and "..." when over 200. */
  function CloneTitle(title: string, newTitle: Option<string>): (r: string)
    ensures newTitle.Some? ==> r == newTitle.value
    ensures newTitle.None? && |title| + 8 <= MaxTitleLength ==> r == "Copy of " + title
    ensures newTitle.None? && |title| + 8 > MaxTitleLength ==>
      |r| == MaxTitleLength && r[..197] == ("Copy of " + title)[..197] && r[197..] == "..."
  {
    if newTitle.Some? then newTitle.value
    else
      var t := "Copy of " + title;
      if |t| > MaxTitleLength then t[..197] + "..." else t
  }

  /** A generated title never exceeds 200 characters. */
  lemma CloneTitleBounded(title: string)
    ensures |CloneTitle(title, None)| <= MaxTitleLength
    ensures StartsWith(CloneTitle(title, None), Take("Copy of " + title, 197))
  {
  }

  /** The cloned poll's row. */
  function ClonedPoll(p: PollRecord, userId: int, cloneSettings: bool, cloneSecurityRules: bool,
                      newTitle: Option<string>, isDraft: bool): (c: PollRecord)
    ensures c.title == CloneTitle(p.title, newTitle)
    ensures c.description == p.description && c.startsAt == p.startsAt && c.endsAt == p.endsAt
    ensures c.createdBy == Some(userId) && !c.isActive && c.isDraft == isDraft
    ensures c.cachedTotalVotes == 0 && c.cachedUniqueVoters == 0
    ensures c.settings == (if cloneSettings then p.settings else map[])
    ensures c.securityRules == (if cloneSecurityRules then p.securityRules else map[])
  {
    PollRecord(CloneTitle(p.title, newTitle), p.description, Some(userId), p.startsAt, p.endsAt,
               false, isDraft, if cloneSettings then p.settings else map[],
               if cloneSecurityRules then p.securityRules else map[], 0, 0)
  }

  /** `poll.options.all()`: the option rows of poll `pid`, in table order. */
  function OptionsOf(options: seq<OptionRecord>, pid: int): (r: seq<OptionRecord>)
    ensures forall i :: 0 <= i < |r| ==> r[i].pollId == pid
    ensures multiset(r) <= multiset(options)
    ensures forall o :: o in options && o.pollId == pid ==> o in r
  {
    if options == [] then []
    else
      var rest := OptionsOf(options[..|options| - 1], pid);
      assert options == options[..|options| - 1] + [options[|options| - 1]];
      if options[|options| - 1].pollId == pid then rest + [options[|options| - 1]] else rest
  }

  /** Appending rows of another poll leaves a poll's options unchanged;
      appending rows of the poll itself adds them at the end. */
  lemma {:induction false} OptionsOfAppend(options: seq<OptionRecord>, more: seq<OptionRecord>, pid: int)
    ensures OptionsOf(options + more, pid) == OptionsOf(options, pid) + OptionsOf(more, pid)
    decreases |more|
  {
    if more == [] {
      assert options + more == options;
    } else {
      var init := more[..|more| - 1];
      assert options + more == (options + init) + [more[|more| - 1]];
      assert (options + more)[..|options + more| - 1] == options + init;
      OptionsOfAppend(options, init, pid);
    }
  }

  predicate OrderedByOrder(s: seq<OptionRecord>) {
    forall i, j :: 0 <= i < j < |s| ==> s[i].order <= s[j].order
  }

  /** `o` inserted before the first element of larger order. */
  function InsertByOrder(o: OptionRecord, s: seq<OptionRecord>): (r: seq<OptionRecord>)
    ensures multiset(r) == multiset(s) + multiset{o}
    ensures |r| == |s| + 1
  {
    if s == [] then [o]
    else if o.order <= s[0].order then [o] + s
    else
      assert s == [s[0]] + s[1..];
      [s[0]] + InsertByOrder(o, s[1..])
  }

  /** Insertion keeps a sequence ordered. */
  lemma {:induction false} InsertKeepsOrder(o: OptionRecord, s: seq<OptionRecord>)
    requires OrderedByOrder(s)
    ensures OrderedByOrder(InsertByOrder(o, s))
  {
    if s != [] && o.order > s[0].order {
      InsertKeepsOrder(o, s[1..]);
      var rest := InsertByOrder(o, s[1..]);
      forall k | 0 <= k < |rest| ensures s[0].order <= rest[k].order {
        assert rest[k] in multiset(rest);
        assert rest[k] in multiset(s[1..]) + multiset{o};
        if rest[k] != o {
          assert rest[k] in s[1..];
        }
      }
    }
  }

  /** `order_by("order")`: a stable sort on the order field. */
  function SortByOrder(s: seq<OptionRecord>): (r: seq<OptionRecord>)
    ensures OrderedByOrder(r)
    ensures multiset(r) == multiset(s) && |r| == |s|
  {
    if s == [] then []
    else
      assert s == [s[0]] + s[1..];
      InsertKeepsOrder(s[0], SortByOrder(s[1..]));
      InsertByOrder(s[0], SortByOrder(s[1..]))
  }

  /** The copies created for the clone `cid`: same text and order, no votes. */
  function CopiedOptions(s: seq<OptionRecord>, cid: int): (r: seq<OptionRecord>)
    ensures |r| == |s|
    ensures forall i :: 0 <= i < |r| ==> r[i] == OptionRecord(cid, s[i].text, s[i].order, 0)
  {
    if s == [] then [] else [OptionRecord(cid, s[0].text, s[0].order, 0)] + CopiedOptions(s[1..], cid)
  }

  /** The polls and options tables. Poll ids are allocated from `nextId`,
      and every option belongs to an existing poll. */
  class PollStore {
    var polls: map<int, PollRecord>
    var options: seq<OptionRecord>
    var nextId: int

    ghost predicate Valid()
      reads this
    {
      (forall id :: id in polls ==> id < nextId) &&
      (forall i :: 0 <= i < |options| ==> options[i].pollId in polls)
    }

    constructor ()
      ensures Valid() && polls == map[] && options == [] && nextId == 1
    {
      polls := map[];
      options := [];
      nextId := 1;
    }

    /** clone_poll. Refuses a poll without options and changes nothing;
        otherwise creates the clone under a fresh id, then one copy of each
        option in ascending order. */
    method ClonePoll(pid: int, userId: int, cloneSettings: bool, cloneSecurityRules: bool,
                     newTitle: Option<string>, isDraft: bool) returns (r: Outcome<int>)
      requires Valid() && pid in polls
      modifies this
      ensures Valid()
      ensures OptionsOf(old(options), pid) == [] ==>
        r == Raised("Cannot clone poll: poll has no options") &&
        polls == old(polls) && options == old(options) && nextId == old(nextId)
      ensures OptionsOf(old(options), pid) != [] ==>
        && r == Ok(old(nextId))
        && polls == old(polls)[old(nextId) := ClonedPoll(old(polls)[pid], userId, cloneSettings,
                                                         cloneSecurityRules, newTitle, isDraft)]
        && options == old(options) + CopiedOptions(SortByOrder(OptionsOf(old(options), pid)), old(nextId))
        && nextId == old(nextId) + 1
    {
      var originals := OptionsOf(options, pid);
      if |originals| == 0 {
        return Raised("Cannot clone poll: poll has no options");
      }
      var cid := nextId;
      var clone := ClonedPoll(polls[pid], userId, cloneSettings, cloneSecurityRules, newTitle, isDraft);
      polls := polls[cid := clone];
      nextId := nextId + 1;
      var ordered := SortByOrder(originals);
      CopyOptions(ordered, cid);
      CloneKeepsValid(old(options), CopiedOptions(ordered, cid), old(polls), cid, clone);
      return Ok(cid);
    }

    /** The option-copy loop of clone_poll: one new row per option, in the
        given order, under the clone's id. */
    method CopyOptions(ordered: seq<OptionRecord>, cid: int)
      modifies this
      ensures options == old(options) + CopiedOptions(ordered, cid)
      ensures polls == old(polls) && nextId == old(nextId)
    {
      for i := 0 to |ordered|
        invariant polls == old(polls) && nextId == old(nextId)
        invariant options == old(options) + CopiedOptions(ordered[..i], cid)
      {
        CopiedOptionsSnoc(ordered, i, cid);
        options := options + [OptionRecord(cid, ordered[i].text, ordered[i].order, 0)];
      }
      assert ordered[..|ordered|] == ordered;
    }
  }

  lemma {:induction false} CopiedOptionsSnoc(s: seq<OptionRecord>, i: nat, cid: int)
    requires i < |s|
    ensures CopiedOptions(s[..i + 1], cid) == CopiedOptions(s[..i], cid) + [OptionRecord(cid, s[i].text, s[i].order, 0)]
  {
    var a := CopiedOptions(s[..i + 1], cid);
    var b := CopiedOptions(s[..i], cid) + [OptionRecord(cid, s[i].text, s[i].order, 0)];
    forall k | 0 <= k < |a|
      ensures a[k] == b[k]
    {
      assert s[..i + 1][k] == s[k];
      if k < i {
        assert s[..i][k] == s[k];
      }
    }
  }

  lemma CloneKeepsValid(before: seq<OptionRecord>, copies: seq<OptionRecord>,
                        polls: map<int, PollRecord>, cid: int, clone: PollRecord)
    requires forall i :: 0 <= i < |before| ==> before[i].pollId in polls
    requires forall i :: 0 <= i < |copies| ==> copies[i].pollId == cid
    ensures forall i :: 0 <= i < |before + copies| ==> (before + copies)[i].pollId in polls[cid := clone]
  {
  }

  /** The clone's options, read back in table order, are exactly the
      copies of the original's options in ascending order: as many as the
      original had, each with its text and order and no votes. */
  lemma ClonedOptions(options: seq<OptionRecord>, pid: int, cid: int)
    requires forall i :: 0 <= i < |options| ==> options[i].pollId != cid
    ensures var copies := CopiedOptions(SortByOrder(OptionsOf(options, pid)), cid);
      OptionsOf(options + copies, cid) == copies
  {
    CopiesReadBack(options, SortByOrder(OptionsOf(options, pid)), cid);
  }

  lemma CopiesReadBack(options: seq<OptionRecord>, s: seq<OptionRecord>, cid: int)
    requires forall i :: 0 <= i < |options| ==> options[i].pollId != cid
    ensures OptionsOf(options + CopiedOptions(s, cid), cid) == CopiedOptions(s, cid)
  {
    var copies := CopiedOptions(s, cid);
    OptionsOfAppend(options, copies, cid);
    NoOptionsOf(options, cid);
    OptionsOfAll(copies, cid);
  }

  /** A table with no row of poll `pid` yields no options for it. */
  lemma {:induction false} NoOptionsOf(options: seq<OptionRecord>, pid: int)
    requires forall i :: 0 <= i < |options| ==> options[i].pollId != pid
    ensures OptionsOf(options, pid) == []
  {
    if options != [] {
      OptionsOfLast(options, pid);
      NoOptionsOf(options[..|options| - 1], pid);
    }
  }

  /** A table whose rows all belong to `pid` yields all of them. */
  lemma {:induction false} OptionsOfAll(options: seq<OptionRecord>, pid: int)
    requires forall i :: 0 <= i < |options| ==> options[i].pollId == pid
    ensures OptionsOf(options, pid) == options
  {
    if options != [] {
      var init := options[..|options| - 1];
      PrefixOfPoll(options, pid);
      OptionsOfAll(init, pid);
      OptionsOfAllStep(options, pid);
    }
  }

  lemma PrefixOfPoll(options: seq<OptionRecord>, pid: int)
    requires options != []
    requires forall i :: 0 <= i < |options| ==> options[i].pollId == pid
    ensures var init := options[..|options| - 1]; forall i :: 0 <= i < |init| ==> init[i].pollId == pid
  {
  }

  lemma OptionsOfAllStep(options: seq<OptionRecord>, pid: int)
    requires options != [] && options[|options| - 1].pollId == pid
    requires OptionsOf(options[..|options| - 1], pid) == options[..|options| - 1]
    ensures OptionsOf(options, pid) == options
  {
    OptionsOfLast(options, pid);
    assert options == options[..|options| - 1] + [options[|options| - 1]];
  }

  /** OptionsOf of a non-empty table, one row at a time. */
  lemma OptionsOfLast(options: seq<OptionRecord>, pid: int)
    requires options != []
    ensures var last := options[|options| - 1];
      OptionsOf(options, pid) == OptionsOf(options[..|options| - 1], pid) + (if last.pollId == pid then [last] else [])
  {
  }
}
