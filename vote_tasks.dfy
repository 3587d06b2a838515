/** Background fraud analysis (backend/apps/votes/tasks.py): the deep
    fingerprint analysis that scores a fingerprint's recent history in one
    poll and merges the result into the fingerprint activity cache, and the
    two pattern-analysis tasks that wrap the pattern analyser, which is not
    part of this model and whose results are inputs here.

    Times are integers in microseconds, the resolution of the stored
    timestamps. */
module VoteTasks {
  import opened Common

  /** The fields of a stored vote the analysis reads. */
  datatype VoteRecord = VoteRecord(
    fingerprint: string, pollId: int, userId: Option<int>, ipAddress: Option<string>, createdAt: int)

  /** `if v["user_id"]` and `if v["ip_address"]` */
  predicate HasUser(v: VoteRecord) { v.userId.Some? && v.userId.value != 0 }
  predicate HasIp(v: VoteRecord) { v.ipAddress.Some? && v.ipAddress.value != "" }

  /** The analysis settings, with their defaults. */
  datatype AnalysisSettings = AnalysisSettings(windowHours: int, differentUsers: int, differentIps: int)

  const DefaultAnalysisSettings := AnalysisSettings(168, 2, 2)

  /** The votes with this fingerprint in this poll cast at or after `cutoff`. */
  function InWindow(votes: seq<VoteRecord>, fp: string, poll: int, cutoff: int): (w: seq<VoteRecord>)
    ensures |w| <= |votes|
    ensures forall v :: v in w <==> v in votes && v.fingerprint == fp && v.pollId == poll && v.createdAt >= cutoff
  {
    if votes == [] then []
    else
      var rest := InWindow(votes[..|votes| - 1], fp, poll, cutoff);
      var v := votes[|votes| - 1];
      assert votes == votes[..|votes| - 1] + [v];
      if v.fingerprint == fp && v.pollId == poll && v.createdAt >= cutoff then rest + [v] else rest
  }

  /** The distinct truthy user ids, and the distinct truthy IP addresses. */
  function DistinctUsers(w: seq<VoteRecord>): (s: set<int>)
    ensures forall u :: u in s <==> exists i :: 0 <= i < |w| && HasUser(w[i]) && w[i].userId.value == u
  {
    if w == [] then {}
    else
      var init := w[..|w| - 1];
      assert forall i :: 0 <= i < |init| ==> init[i] == w[i];
      DistinctUsers(init) + (if HasUser(w[|w| - 1]) then {w[|w| - 1].userId.value} else {})
  }

  function DistinctIps(w: seq<VoteRecord>): (s: set<string>)
    ensures forall a :: a in s <==> exists i :: 0 <= i < |w| && HasIp(w[i]) && w[i].ipAddress.value == a
  {
    if w == [] then {}
    else
      var init := w[..|w| - 1];
      assert forall i :: 0 <= i < |init| ==> init[i] == w[i];
      DistinctIps(init) + (if HasIp(w[|w| - 1]) then {w[|w| - 1].ipAddress.value} else {})
  }

  /** The earliest and latest vote times of a non-empty window (the
      window is ordered newest first, so the earliest is the last vote). */
  function Earliest(w: seq<VoteRecord>): (t: int)
    requires w != []
    ensures forall i :: 0 <= i < |w| ==> t <= w[i].createdAt
    ensures exists i :: 0 <= i < |w| && t == w[i].createdAt
  {
    if |w| == 1 then w[0].createdAt
    else
      var e := Earliest(w[..|w| - 1]);
      assert forall i :: 0 <= i < |w| - 1 ==> w[..|w| - 1][i] == w[i];
      if w[|w| - 1].createdAt < e then w[|w| - 1].createdAt else e
  }

  function Latest(w: seq<VoteRecord>): (t: int)
    requires w != []
    ensures forall i :: 0 <= i < |w| ==> w[i].createdAt <= t
    ensures exists i :: 0 <= i < |w| && t == w[i].createdAt
  {
    if |w| == 1 then w[0].createdAt
    else
      var l := Latest(w[..|w| - 1]);
      assert forall i :: 0 <= i < |w| - 1 ==> w[..|w| - 1][i] == w[i];
      if w[|w| - 1].createdAt > l then w[|w| - 1].createdAt else l
  }

  /** What the analysis measures over a window. */
  datatype History = History(voteCount: nat, users: set<int>, ips: set<string>, span: int)

  /** The reference measurement of a non-empty window. */
  function Measure(w: seq<VoteRecord>): History
    requires w != []
  {
    History(|w|, DistinctUsers(w), DistinctIps(w), Latest(w) - Earliest(w))
  }

  /** One pass over the window collecting its count, distinct users and IPs
      and its time span; proved to compute the reference measurement. */
  method Summarize(w: seq<VoteRecord>) returns (h: History)
    requires w != []
    ensures h == Measure(w)
    ensures h.span >= 0
  {
    var users: set<int> := {};
    var ips: set<string> := {};
    var first := w[0].createdAt;
    var last := w[0].createdAt;
    var i := 0;
    while i < |w|
      invariant 0 <= i <= |w|
      invariant users == DistinctUsers(w[..i])
      invariant ips == DistinctIps(w[..i])
      invariant i > 0 ==> first == Earliest(w[..i]) && last == Latest(w[..i])
      invariant i == 0 ==> first == w[0].createdAt && last == w[0].createdAt
    {
      var v := w[i];
      SummarizeStep(w, i);
      users := users + (if HasUser(v) then {v.userId.value} else {});
      ips := ips + (if HasIp(v) then {v.ipAddress.value} else {});
      first := if v.createdAt < first then v.createdAt else first;
      last := if v.createdAt > last then v.createdAt else last;
      i := i + 1;
    }
    assert w[..|w|] == w;
    h := History(|w|, users, ips, last - first);
  }

  /** How the reference measurements of a prefix grow by one vote. */
  lemma SummarizeStep(w: seq<VoteRecord>, i: int)
    requires 0 <= i < |w|
    ensures DistinctUsers(w[..i + 1]) == DistinctUsers(w[..i]) + (if HasUser(w[i]) then {w[i].userId.value} else {})
    ensures DistinctIps(w[..i + 1]) == DistinctIps(w[..i]) + (if HasIp(w[i]) then {w[i].ipAddress.value} else {})
    ensures i == 0 ==> Earliest(w[..i + 1]) == w[0].createdAt && Latest(w[..i + 1]) == w[0].createdAt
    ensures i > 0 ==> Earliest(w[..i + 1]) == (if w[i].createdAt < Earliest(w[..i]) then w[i].createdAt else Earliest(w[..i]))
    ensures i > 0 ==> Latest(w[..i + 1]) == (if w[i].createdAt > Latest(w[..i]) then w[i].createdAt else Latest(w[..i]))
  {
    var p := w[..i + 1];
    assert p[..|p| - 1] == w[..i];
    assert p[|p| - 1] == w[i];
  }

  /** The risk factors and score of a measured history. More than ten votes
      per hour is `count / (span in hours) > 10`, written without division. */
  datatype Assessment = Assessment(factors: seq<string>, score: int)

  predicate MultipleUsers(h: History, s: AnalysisSettings) { |h.users| >= s.differentUsers }
  predicate MultipleIps(h: History, s: AnalysisSettings) { |h.ips| >= s.differentIps }
  predicate HighFrequency(h: History) { h.span > 0 && h.voteCount * MicrosPerHour > 10 * h.span }

  function Assess(h: History, s: AnalysisSettings): (a: Assessment)
    ensures "multiple_users" in a.factors <==> MultipleUsers(h, s)
    ensures "multiple_ips" in a.factors <==> MultipleIps(h, s)
    ensures "high_frequency" in a.factors <==> HighFrequency(h)
  {
    var a1 := if MultipleUsers(h, s) then Assessment(["multiple_users"], 40) else Assessment([], 0);
    var a2 := if MultipleIps(h, s) then Assessment(a1.factors + ["multiple_ips"], a1.score + 30) else a1;
    if HighFrequency(h) then Assessment(a2.factors + ["high_frequency"], a2.score + 20) else a2
  }

  /** The factors are listed in the order multiple_users, multiple_ips,
      high_frequency, each once and nothing else; each factor carries a
      fixed weight and the score is their sum, so it never exceeds 90 and
      the cap at 100 never applies. */
  lemma AssessScore(h: History, s: AnalysisSettings)
    ensures Assess(h, s).factors ==
      (if MultipleUsers(h, s) then ["multiple_users"] else []) +
      (if MultipleIps(h, s) then ["multiple_ips"] else []) +
      (if HighFrequency(h) then ["high_frequency"] else [])
    ensures var a := Assess(h, s);
      a.score == (if MultipleUsers(h, s) then 40 else 0) + (if MultipleIps(h, s) then 30 else 0)
                 + (if HighFrequency(h) then 20 else 0)
      && 0 <= a.score <= 90 && (if a.score < 100 then a.score else 100) == a.score
  {
  }

  /** A window of at most one voter from at most one address is only ever
      flagged for frequency under the default thresholds. */
  lemma SingleVoterNotMultiple(w: seq<VoteRecord>)
    requires w != []
    requires forall i, j :: 0 <= i < |w| && 0 <= j < |w| ==> w[i].userId == w[j].userId && w[i].ipAddress == w[j].ipAddress
    ensures !MultipleUsers(Measure(w), DefaultAnalysisSettings)
    ensures !MultipleIps(Measure(w), DefaultAnalysisSettings)
  {
    var h := Measure(w);
    if HasUser(w[0]) {
      assert h.users == {w[0].userId.value};
    } else {
      assert h.users == {};
    }
    if HasIp(w[0]) {
      assert h.ips == {w[0].ipAddress.value};
    } else {
      assert h.ips == {};
    }
  }

  /** A value stored in the activity cache. */
  datatype Field = FBool(b: bool) | FInt(i: int) | FStr(s: string) | FList(l: seq<string>)

  const AnalysisKeys: set<string> := {
    "analysis_completed", "analysis_timestamp", "historical_vote_count", "historical_user_count",
    "historical_ip_count", "risk_factors", "risk_score"}

  /** The fields the analysis writes into the cached activity record. */
  function AnalysisFields(h: History, a: Assessment, timestamp: string): map<string, Field> {
    map[
      "analysis_completed" := FBool(true),
      "analysis_timestamp" := FStr(timestamp),
      "historical_vote_count" := FInt(h.voteCount),
      "historical_user_count" := FInt(|h.users|),
      "historical_ip_count" := FInt(|h.ips|),
      "risk_factors" := FList(a.factors),
      "risk_score" := FInt(if a.score < 100 then a.score else 100)
    ]
  }

  /** `cached_data.update(...)` on the previous record (`{}` when absent). */
  function AnalysisRecord(previous: map<string, Field>, h: History, s: AnalysisSettings, timestamp: string): map<string, Field> {
    previous + AnalysisFields(h, Assess(h, s), timestamp)
  }

  /** The updated record holds the previous fields outside the analysis and
      the analysis fields with the measured counts and the capped score. */
  lemma AnalysisRecordFields(previous: map<string, Field>, h: History, s: AnalysisSettings, timestamp: string)
    ensures var r := AnalysisRecord(previous, h, s, timestamp);
      r.Keys == previous.Keys + AnalysisKeys &&
      (forall f :: f in previous && f !in AnalysisKeys ==> r[f] == previous[f]) &&
      r["analysis_completed"] == FBool(true) &&
      r["analysis_timestamp"] == FStr(timestamp) &&
      r["historical_vote_count"] == FInt(h.voteCount) &&
      r["historical_user_count"] == FInt(|h.users|) &&
      r["historical_ip_count"] == FInt(|h.ips|) &&
      r["risk_factors"] == FList(Assess(h, s).factors) &&
      r["risk_score"] == FInt(Assess(h, s).score)
  {
    var fields := AnalysisFields(h, Assess(h, s), timestamp);
    assert fields.Keys == AnalysisKeys;
    AssessScore(h, s);
  }

  /** `f"fp:activity:{fingerprint}:{poll_id}"` */
  function ActivityKey(fp: string, poll: int): string {
    "fp:activity:" + fp + ":" + IntToString(poll)
  }

  /** The start of the analysis window. */
  function Cutoff(s: AnalysisSettings, now: int): int {
    now - s.windowHours * MicrosPerHour
  }

  /** What the analysis measures, if it gets as far as measuring: nothing
      for an empty fingerprint, a failing query or an empty window. `votes`
      is the stored votes, or the exception the query raised. This is the
      evidently intended analysis, reading the earliest vote of the window
      as its first vote; the source as written raises there instead (see
      `AnalysisAsWritten` below). */
  function Analysis(fp: string, poll: int, votes: Outcome<seq<VoteRecord>>, s: AnalysisSettings, now: int): (r: Option<History>)
    ensures r.Some? <==> fp != "" && votes.Ok? && InWindow(votes.value, fp, poll, Cutoff(s, now)) != []
    ensures r.Some? ==> r.value == Measure(InWindow(votes.value, fp, poll, Cutoff(s, now)))
  {
    if fp == "" || votes.Raised? then None
    else
      var w := InWindow(votes.value, fp, poll, Cutoff(s, now));
      if w == [] then None else Some(Measure(w))
  }

  /** The activity cache after analyze_fingerprint_patterns as intended,
      with `now` the clock and `timestamp` its ISO rendering: unchanged when
      nothing was measured, otherwise the record under the activity key
      updated. */
  function AfterFingerprintAnalysis(cache: map<string, map<string, Field>>, fp: string, poll: int,
                                    votes: Outcome<seq<VoteRecord>>, s: AnalysisSettings,
                                    now: int, timestamp: string): map<string, map<string, Field>>
  {
    Recorded(cache, ActivityKey(fp, poll), Analysis(fp, poll, votes, s, now), s, timestamp)
  }

  /** The cache with a measured history merged into the record under `key`,
      or unchanged when nothing was measured. */
  function Recorded(cache: map<string, map<string, Field>>, key: string, a: Option<History>,
                    s: AnalysisSettings, timestamp: string): map<string, map<string, Field>>
  {
    match a
    case None => cache
    case Some(h) => cache[key := AnalysisRecord(if key in cache then cache[key] else map[], h, s, timestamp)]
  }

  lemma RecordUpdateEffect(cache: map<string, map<string, Field>>, key: string, h: History,
                           s: AnalysisSettings, timestamp: string)
    ensures var c := Recorded(cache, key, Some(h), s, timestamp);
      (forall k :: k != key ==> (k in c <==> k in cache) && (k in c ==> c[k] == cache[k])) &&
      key in c &&
      c[key].Keys == (if key in cache then cache[key].Keys else {}) + AnalysisKeys &&
      (key in cache ==> forall f :: f in cache[key] && f !in AnalysisKeys ==> c[key][f] == cache[key][f])
  {
    var previous := if key in cache then cache[key] else map[];
    AnalysisRecordFields(previous, h, s, timestamp);
    assert Recorded(cache, key, Some(h), s, timestamp) == cache[key := AnalysisRecord(previous, h, s, timestamp)];
    assert previous.Keys == (if key in cache then cache[key].Keys else {});
  }

  /** Only the analysed fingerprint's record changes; within it the previous
      fields outside the analysis survive and the analysis fields are set. */
  lemma FingerprintAnalysisEffect(cache: map<string, map<string, Field>>, fp: string, poll: int,
                                  votes: Outcome<seq<VoteRecord>>, s: AnalysisSettings,
                                  now: int, timestamp: string)
    ensures var c := AfterFingerprintAnalysis(cache, fp, poll, votes, s, now, timestamp);
      var key := ActivityKey(fp, poll);
      (forall k :: k != key ==> (k in c <==> k in cache) && (k in c ==> c[k] == cache[k])) &&
      (Analysis(fp, poll, votes, s, now).None? ==> c == cache) &&
      (Analysis(fp, poll, votes, s, now).Some? ==>
         key in c &&
         c[key].Keys == (if key in cache then cache[key].Keys else {}) + AnalysisKeys &&
         (key in cache ==> forall f :: f in cache[key] && f !in AnalysisKeys ==> c[key][f] == cache[key][f]))
  {
    match Analysis(fp, poll, votes, s, now)
    case None =>
    case Some(h) => RecordUpdateEffect(cache, ActivityKey(fp, poll), h, s, timestamp);
  }

  /** A recorded analysis stores the window's vote count, distinct user and
      IP counts, and its risk score. */
  lemma FingerprintAnalysisRecords(cache: map<string, map<string, Field>>, fp: string, poll: int,
                                   votes: seq<VoteRecord>, s: AnalysisSettings, now: int, timestamp: string)
    requires fp != ""
    requires InWindow(votes, fp, poll, Cutoff(s, now)) != []
    ensures var c := AfterFingerprintAnalysis(cache, fp, poll, Ok(votes), s, now, timestamp);
      var w := InWindow(votes, fp, poll, Cutoff(s, now));
      var r := c[ActivityKey(fp, poll)];
      r["analysis_completed"] == FBool(true) &&
      r["historical_vote_count"] == FInt(|w|) &&
      r["historical_user_count"] == FInt(|DistinctUsers(w)|) &&
      r["historical_ip_count"] == FInt(|DistinctIps(w)|) &&
      r["risk_score"] == FInt(Assess(Measure(w), s).score)
  {
    var key := ActivityKey(fp, poll);
    var h := Measure(InWindow(votes, fp, poll, Cutoff(s, now)));
    assert Analysis(fp, poll, Ok(votes), s, now) == Some(h);
    AnalysisRecordFields(if key in cache then cache[key] else map[], h, s, timestamp);
  }

  // ---------------------------------------------------------------------
  // The analysis as written

  /** Indexing the window's QuerySet: Django supports no negative index and
      raises for one, as for an index past the end. */
  function QuerySetAt(w: seq<VoteRecord>, i: int): (r: Outcome<VoteRecord>)
    ensures r.Ok? <==> 0 <= i < |w|
    ensures r.Ok? ==> r.value == w[i]
  {
    if 0 <= i < |w| then Ok(w[i]) else Raised("Negative indexing is not supported.")
  }

  /** What analyze_fingerprint_patterns measures as written: nothing for an
      empty fingerprint (before the `try`), the exception of a failing query,
      nothing for an empty window, and otherwise whatever reading the
      earliest vote as `historical_votes[-1]` gives. */
  function AnalysisAsWritten(fp: string, poll: int, votes: Outcome<seq<VoteRecord>>,
                             s: AnalysisSettings, now: int): Outcome<Option<History>>
  {
    if fp == "" then Ok(None)
    else if votes.Raised? then Raised(votes.message)
    else
      var w := InWindow(votes.value, fp, poll, Cutoff(s, now));
      if w == [] then Ok(None)
      else match QuerySetAt(w, -1)
        case Raised(e) => Raised(e)
        case Ok(_) => Ok(Some(Measure(w)))
  }

  /** The activity cache after the task as written: `except Exception`
      swallows whatever the analysis raised, and only a measured history is
      recorded. */
  function AfterFingerprintAnalysisAsWritten(cache: map<string, map<string, Field>>, fp: string, poll: int,
                                             votes: Outcome<seq<VoteRecord>>, s: AnalysisSettings,
                                             now: int, timestamp: string): map<string, map<string, Field>>
  {
    match AnalysisAsWritten(fp, poll, votes, s, now)
    case Raised(_) => cache
    case Ok(a) => Recorded(cache, ActivityKey(fp, poll), a, s, timestamp)
  }

  /** As written, every non-empty window raises at its earliest vote, so the
      task never records anything and leaves the cache as it was. */
  lemma AsWrittenNeverRecords(cache: map<string, map<string, Field>>, fp: string, poll: int,
                              votes: Outcome<seq<VoteRecord>>, s: AnalysisSettings, now: int, timestamp: string)
    ensures AnalysisAsWritten(fp, poll, votes, s, now).Raised? <==>
      fp != "" && (votes.Raised? || InWindow(votes.value, fp, poll, Cutoff(s, now)) != [])
    ensures AnalysisAsWritten(fp, poll, votes, s, now).Ok? ==> AnalysisAsWritten(fp, poll, votes, s, now).value.None?
    ensures AfterFingerprintAnalysisAsWritten(cache, fp, poll, votes, s, now, timestamp) == cache
  {
    if fp != "" && votes.Ok? {
      var w := InWindow(votes.value, fp, poll, Cutoff(s, now));
      if w != [] {
        assert QuerySetAt(w, -1).Raised?;
      }
    }
  }

  /** Wherever the intended analysis records a window for a fingerprint not
      yet in the cache, the task as written leaves the cache without it. */
  lemma AsWrittenDiffersFromIntended(cache: map<string, map<string, Field>>, fp: string, poll: int,
                                     votes: seq<VoteRecord>, s: AnalysisSettings, now: int, timestamp: string)
    requires fp != "" && InWindow(votes, fp, poll, Cutoff(s, now)) != []
    requires ActivityKey(fp, poll) !in cache
    ensures ActivityKey(fp, poll) in AfterFingerprintAnalysis(cache, fp, poll, Ok(votes), s, now, timestamp)
    ensures ActivityKey(fp, poll) !in AfterFingerprintAnalysisAsWritten(cache, fp, poll, Ok(votes), s, now, timestamp)
  {
    FingerprintAnalysisEffect(cache, fp, poll, Ok(votes), s, now, timestamp);
    AsWrittenNeverRecords(cache, fp, poll, Ok(votes), s, now, timestamp);
  }

  /** A concrete input: one vote of fingerprint "fp" in poll 1, cast now,
      is recorded by the intended analysis and lost by the task as written. */
  lemma AsWrittenLosesOneVote()
    ensures var votes := [VoteRecord("fp", 1, None, None, 0)];
      ActivityKey("fp", 1) in AfterFingerprintAnalysis(map[], "fp", 1, Ok(votes), DefaultAnalysisSettings, 0, "t") &&
      AfterFingerprintAnalysisAsWritten(map[], "fp", 1, Ok(votes), DefaultAnalysisSettings, 0, "t") == map[]
  {
    var votes := [VoteRecord("fp", 1, None, None, 0)];
    var v := votes[0];
    assert v in InWindow(votes, "fp", 1, Cutoff(DefaultAnalysisSettings, 0));
    AsWrittenDiffersFromIntended(map[], "fp", 1, votes, DefaultAnalysisSettings, 0, "t");
  }

  /** The fingerprint activity cache the analysis writes to (expiry is not
      modelled). */
  class ActivityCache {
    var entries: map<string, map<string, Field>>

    constructor ()
      ensures entries == map[]
    {
      entries := map[];
    }

    /** analyze_fingerprint_patterns */
    method AnalyzeFingerprintPatterns(fp: string, poll: int, votes: Outcome<seq<VoteRecord>>,
                                      s: AnalysisSettings, now: int, timestamp: string)
      modifies this
      ensures entries == AfterFingerprintAnalysis(old(entries), fp, poll, votes, s, now, timestamp)
    {
      if fp == "" || votes.Raised? {
        return;
      }
      var w := InWindow(votes.value, fp, poll, Cutoff(s, now));
      if w == [] {
        return;
      }
      var h := Summarize(w);
      assert Analysis(fp, poll, votes, s, now) == Some(h);
      entries := Recorded(entries, ActivityKey(fp, poll), Some(h), s, timestamp);
    }
  }

  // ---------------------------------------------------------------------
  // Pattern-analysis tasks

  /** The parts of the pattern analyser's result the tasks read. */
  datatype PatternResults = PatternResults(totalSuspiciousPatterns: int, alertsGenerated: int, highestRiskScore: int)

  datatype TaskResult =
    | TaskSucceeded(pollId: Option<int>, patternsDetected: int, alertsGenerated: int, highestRiskScore: int)
    | TaskFailed(error: string, failedPollId: Option<int>)

  /** `if poll_id:` */
  predicate PollGiven(pollId: Option<int>) { pollId.Some? && pollId.value != 0 }

  /** analyze_vote_patterns_task, given the outcomes of the analyser, of
      alert generation (the number of alerts) and of vote flagging (the
      number of votes flagged). Alerts and flags are produced only for a
      given poll; the counts it reports are those of the analyser. */
  function AnalyzeVotePatternsTask(pollId: Option<int>, analysis: Outcome<PatternResults>,
                                   alerts: Outcome<nat>, flagged: Outcome<nat>): (r: TaskResult)
    ensures r.TaskSucceeded? <==>
      analysis.Ok? && (PollGiven(pollId) ==> alerts.Ok? && flagged.Ok?)
    ensures r.TaskSucceeded? ==>
      r == TaskSucceeded(pollId, analysis.value.totalSuspiciousPatterns,
                         analysis.value.alertsGenerated, analysis.value.highestRiskScore)
    ensures r.TaskFailed? ==> r.failedPollId == pollId
  {
    if analysis.Raised? then TaskFailed(analysis.message, pollId)
    else if PollGiven(pollId) && alerts.Raised? then TaskFailed(alerts.message, pollId)
    else if PollGiven(pollId) && flagged.Raised? then TaskFailed(flagged.message, pollId)
    else TaskSucceeded(pollId, analysis.value.totalSuspiciousPatterns,
                       analysis.value.alertsGenerated, analysis.value.highestRiskScore)
  }

  /** Without a poll, alert generation and flagging are never called, so
      their outcome cannot matter. */
  lemma TaskWithoutPollIgnoresAlerts(pollId: Option<int>, analysis: Outcome<PatternResults>,
                                     a1: Outcome<nat>, f1: Outcome<nat>, a2: Outcome<nat>, f2: Outcome<nat>)
    requires !PollGiven(pollId)
    ensures AnalyzeVotePatternsTask(pollId, analysis, a1, f1) == AnalyzeVotePatternsTask(pollId, analysis, a2, f2)
  {
  }

  /** One active poll's run: the analyser's, alert generator's and flagger's
      outcomes for it. */
  datatype PollRun = PollRun(analysis: Outcome<PatternResults>, alerts: Outcome<nat>, flagged: Outcome<nat>)

  /** A poll's results count only if all three calls returned. */
  predicate RunCompleted(r: PollRun) { r.analysis.Ok? && r.alerts.Ok? && r.flagged.Ok? }

  function TotalPatterns(runs: seq<PollRun>): int {
    if runs == [] then 0
    else
      var last := runs[|runs| - 1];
      TotalPatterns(runs[..|runs| - 1]) + (if RunCompleted(last) then last.analysis.value.totalSuspiciousPatterns else 0)
  }

  function TotalAlerts(runs: seq<PollRun>): (n: nat) {
    if runs == [] then 0
    else
      var last := runs[|runs| - 1];
      TotalAlerts(runs[..|runs| - 1]) + (if RunCompleted(last) then last.alerts.value else 0)
  }

  function HighestRisk(runs: seq<PollRun>): int {
    if runs == [] then 0
    else
      var last := runs[|runs| - 1];
      var h := HighestRisk(runs[..|runs| - 1]);
      if RunCompleted(last) && last.analysis.value.highestRiskScore > h then last.analysis.value.highestRiskScore else h
  }

  datatype PeriodicResult =
    | PeriodicSucceeded(pollsAnalyzed: nat, totalPatterns: int, totalAlerts: nat, highestRiskScore: int)
    | PeriodicFailed(error: string)

  /** periodic_pattern_analysis over the active polls (or the exception the
      listing raised). A poll whose analysis raises is skipped, but every
      active poll is counted as analysed. */
  method PeriodicPatternAnalysis(polls: Outcome<seq<PollRun>>) returns (r: PeriodicResult)
    ensures polls.Raised? ==> r == PeriodicFailed(polls.message)
    ensures polls.Ok? ==> r == PeriodicSucceeded(|polls.value|, TotalPatterns(polls.value),
                                                 TotalAlerts(polls.value), HighestRisk(polls.value))
  {
    if polls.Raised? {
      return PeriodicFailed(polls.message);
    }
    var runs := polls.value;
    var totalPatterns := 0;
    var totalAlerts := 0;
    var highest := 0;
    for i := 0 to |runs|
      invariant totalPatterns == TotalPatterns(runs[..i])
      invariant totalAlerts == TotalAlerts(runs[..i])
      invariant highest == HighestRisk(runs[..i])
    {
      assert runs[..i + 1][..i] == runs[..i];
      var run := runs[i];
      if run.analysis.Raised? || run.alerts.Raised? || run.flagged.Raised? {
        continue;
      }
      totalPatterns := totalPatterns + run.analysis.value.totalSuspiciousPatterns;
      totalAlerts := totalAlerts + run.alerts.value;
      if run.analysis.value.highestRiskScore > highest {
        highest := run.analysis.value.highestRiskScore;
      }
    }
    assert runs[..|runs|] == runs;
    return PeriodicSucceeded(|runs|, totalPatterns, totalAlerts, highest);
  }

  /** A poll whose analysis raises adds nothing to the totals. */
  lemma FailedRunContributesNothing(runs: seq<PollRun>, failed: PollRun)
    requires !RunCompleted(failed)
    ensures TotalPatterns(runs + [failed]) == TotalPatterns(runs)
    ensures TotalAlerts(runs + [failed]) == TotalAlerts(runs)
    ensures HighestRisk(runs + [failed]) == HighestRisk(runs)
  {
    assert (runs + [failed])[..|runs|] == runs;
  }

  /** The highest risk is the maximum over the completed polls' scores,
      floored at 0. */
  lemma {:induction false} HighestRiskIsMaximum(runs: seq<PollRun>)
    ensures HighestRisk(runs) >= 0
    ensures forall i :: 0 <= i < |runs| && RunCompleted(runs[i]) ==> runs[i].analysis.value.highestRiskScore <= HighestRisk(runs)
    ensures HighestRisk(runs) == 0 || exists i :: 0 <= i < |runs| && RunCompleted(runs[i]) && runs[i].analysis.value.highestRiskScore == HighestRisk(runs)
  {
    if runs != [] {
      var init := runs[..|runs| - 1];
      HighestRiskIsMaximum(init);
      assert forall i :: 0 <= i < |init| ==> init[i] == runs[i];
    }
  }
}
