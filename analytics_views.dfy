/** Analytics views (backend/apps/analytics/views.py): parsing and
    normalising the request parameters and shaping the replies. The
    analytics queries themselves are outside calls, passed in as
    functions; what they compute is not part of this model. */
module AnalyticsViews {
  import opened Common

  // ---------------------------------------------------------------------
  // Python's int() on a string

  /** One or more decimal digits, with single underscores between digits. */
  predicate DecimalGroups(v: string) {
    |v| > 0 && IsDigit(v[0]) && IsDigit(v[|v| - 1]) &&
    (forall k :: 0 <= k < |v| ==> IsDigit(v[k]) || v[k] == '_') &&
    (forall k :: 0 <= k < |v| - 1 ==> !(v[k] == '_' && v[k + 1] == '_'))
  }

  function WithoutUnderscores(v: string): (r: string)
    requires forall k :: 0 <= k < |v| ==> IsDigit(v[k]) || v[k] == '_'
    ensures forall k :: 0 <= k < |r| ==> IsDigit(r[k])
    ensures (forall k :: 0 <= k < |v| ==> IsDigit(v[k])) ==> r == v
  {
    if v == [] then []
    else if v[0] == '_' then WithoutUnderscores(v[1..])
    else [v[0]] + WithoutUnderscores(v[1..])
  }

  /** `int(s)`: surrounding whitespace, one sign, then decimal digits with
      single underscores between them; None where int() raises ValueError. */
  function PyInt(s: string): (r: Option<int>)
    ensures r.Some? <==> DecimalGroups(Unsigned(Strip(s)))
    ensures Strip(s) == [] ==> r.None?
  {
    SignedDecimal(Strip(s))
  }

  /** The value of an optional sign followed by digit groups. */
  function SignedDecimal(t: string): (r: Option<int>)
    ensures r.Some? <==> DecimalGroups(Unsigned(t))
  {
    var u := Unsigned(t);
    if !DecimalGroups(u) then None
    else
      var n := DecimalValue(WithoutUnderscores(u));
      Some(if t[0] == '-' then -n else n)
  }

  /** A non-empty run of digits is accepted as it stands. */
  lemma DigitRunParses(d: string)
    requires |d| > 0 && forall k :: 0 <= k < |d| ==> IsDigit(d[k])
    ensures DecimalGroups(d) && WithoutUnderscores(d) == d
  {
  }

  /** int() of a digit run is its value, and with a minus sign its negation. */
  lemma PyIntOfDigitRun(d: string)
    requires |d| > 0 && forall k :: 0 <= k < |d| ==> IsDigit(d[k])
    ensures PyInt(d) == Some(DecimalValue(d))
  {
    DigitRunUnpadded(d);
    PyIntOfUnpadded(d);
    DigitRunSigned(d);
  }

  lemma DigitRunUnpadded(d: string)
    requires |d| > 0 && forall k :: 0 <= k < |d| ==> IsDigit(d[k])
    ensures !IsPyWhitespace(d[0]) && !IsPyWhitespace(d[|d| - 1])
  {
    assert IsDigit(d[0]) && IsDigit(d[|d| - 1]);
  }

  /** Text without surrounding whitespace is parsed as it stands. */
  lemma PyIntOfUnpadded(t: string)
    requires t == [] || (!IsPyWhitespace(t[0]) && !IsPyWhitespace(t[|t| - 1]))
    ensures PyInt(t) == SignedDecimal(t)
  {
    StripNoWhitespace(t);
  }

  lemma DigitRunSigned(d: string)
    requires |d| > 0 && forall k :: 0 <= k < |d| ==> IsDigit(d[k])
    ensures SignedDecimal(d) == Some(DecimalValue(d))
  {
    DigitRunParses(d);
    assert Unsigned(d) == d;
    assert DecimalGroups(Unsigned(d));
    assert d[0] != '-';
  }

  lemma PyIntOfNegativeRun(t: string)
    requires |t| > 1 && t[0] == '-' && forall k :: 1 <= k < |t| ==> IsDigit(t[k])
    ensures PyInt(t) == Some(-DecimalValue(t[1..]))
  {
    PyIntOfUnpadded(t);
    NegativeRunSigned(t);
  }

  lemma NegativeRunSigned(t: string)
    requires |t| > 1 && t[0] == '-' && forall k :: 1 <= k < |t| ==> IsDigit(t[k])
    ensures SignedDecimal(t) == Some(-DecimalValue(t[1..]))
  {
    var d := t[1..];
    DigitRunParses(d);
    assert Unsigned(t) == d;
  }

  /** int() reads back what str() writes. */
  lemma PyIntOfIntToString(n: int)
    ensures PyInt(IntToString(n)) == Some(n)
  {
    var m: nat := if n < 0 then -n else n;
    var s := IntToString(n);
    DecimalValueOfNatToString(m);
    if n < 0 {
      assert s[1..] == NatToString(m);
      PyIntOfNegativeRun(s);
    } else {
      PyIntOfDigitRun(s);
    }
  }

  // ---------------------------------------------------------------------
  // Replies

  /** `Uncaught` stands for an exception the view does not catch. */
  datatype Reply<B> = Refused(status: int, error: string) | Answer(status: int, body: B) | Uncaught(exception: string)

  const InvalidPollId := "Invalid poll ID"
  const InvalidDate := "Invalid date format. Use YYYY-MM-DD"

  /** comprehensive and summary: the query's dict, with 404 when it
      carries an "error" key. */
  function DictReply<D>(pollIdText: string, fetch: int -> map<string, D>): Reply<map<string, D>> {
    DictReplyOf(PyInt(pollIdText), fetch)
  }

  function DictReplyOf<D>(p: Option<int>, fetch: int -> map<string, D>): Reply<map<string, D>> {
    match p
    case None => Refused(400, InvalidPollId)
    case Some(id) =>
      var result := fetch(id);
      if "error" in result then Answer(404, result) else Answer(200, result)
  }

  /** The reply is 400 exactly when the id does not parse; otherwise the
      query's dict is returned as is, with 404 exactly when it holds an
      "error" key. */
  lemma DictReplyCases<D>(pollIdText: string, fetch: int -> map<string, D>)
    ensures PyInt(pollIdText).None? <==> DictReply(pollIdText, fetch) == Refused(400, InvalidPollId)
    ensures PyInt(pollIdText).Some? ==>
      var result := fetch(PyInt(pollIdText).value);
      var r := DictReply(pollIdText, fetch);
      r.Answer? && r.body == result && (r.status == 404 <==> "error" in result) &&
      (r.status == 200 <==> "error" !in result)
  {
    DictReplyParsed(PyInt(pollIdText), fetch);
  }

  lemma DictReplyParsed<D>(p: Option<int>, fetch: int -> map<string, D>)
    ensures p.None? <==> DictReplyOf(p, fetch) == Refused(400, InvalidPollId)
    ensures p.Some? ==>
      var result := fetch(p.value);
      var r := DictReplyOf(p, fetch);
      r.Answer? && r.body == result && (r.status == 404 <==> "error" in result) &&
      (r.status == 200 <==> "error" !in result)
  {
  }

  /** interval: "hour" unless exactly "hour" or "day". */
  function NormalInterval(q: Option<string>): string {
    if q.Some? && (q.value == "hour" || q.value == "day") then q.value else "hour"
  }

  lemma IntervalNormalised(q: Option<string>)
    ensures NormalInterval(q) == "hour" || NormalInterval(q) == "day"
    ensures NormalInterval(q) == "day" <==> q == Some("day")
    ensures q.None? ==> NormalInterval(q) == "hour"
  {
  }

  datatype SeriesBody<S> = SeriesBody(pollId: int, interval: string, data: S)

  function TimeSeriesReply<S>(pollIdText: string, interval: Option<string>,
                              series: (int, string) -> S): Reply<SeriesBody<S>> {
    match PyInt(pollIdText)
    case None => Refused(400, InvalidPollId)
    case Some(id) =>
      var iv := NormalInterval(interval);
      Answer(200, SeriesBody(id, iv, series(id, iv)))
  }

  /** The query is only ever asked for "hour" or "day" and the reply names
      the interval it was asked for. */
  lemma TimeSeriesAsksNormalInterval<S>(pollIdText: string, interval: Option<string>, series: (int, string) -> S)
    requires PyInt(pollIdText).Some?
    ensures var r := TimeSeriesReply(pollIdText, interval, series);
      r.Answer? && r.status == 200 && r.body.pollId == PyInt(pollIdText).value &&
      (r.body.interval == "hour" || r.body.interval == "day") &&
      r.body.data == series(r.body.pollId, r.body.interval)
  {
  }

  /** `s.replace("Z", "+00:00")` */
  function ReplaceZ(s: string): (r: string)
    ensures forall k :: 0 <= k < |r| ==> r[k] != 'Z'
    ensures (forall k :: 0 <= k < |s| ==> s[k] != 'Z') ==> r == s
  {
    if s == [] then []
    else (if s[0] == 'Z' then "+00:00" else [s[0]]) + ReplaceZ(s[1..])
  }

  datatype HourlyBody<S> = HourlyBody(pollId: int, date: string, data: S)

  /** hourly: `fromIso` is datetime.fromisoformat, None where it raises. */
  function HourlyReply<T, S>(pollIdText: string, date: Option<string>, fromIso: string -> Option<T>,
                             byHour: (int, Option<T>) -> S): Reply<HourlyBody<S>> {
    match PyInt(pollIdText)
    case None => Refused(400, InvalidPollId)
    case Some(id) =>
      if date.Some? && date.value != "" then
        match fromIso(ReplaceZ(date.value))
        case None => Refused(400, InvalidDate)
        case Some(t) => Answer(200, HourlyBody(id, date.value, byHour(id, Some(t))))
      else Answer(200, HourlyBody(id, "today", byHour(id, None)))
  }

  /** An absent or empty date asks for the default day and is echoed as
      "today"; a given date is echoed verbatim, and refused with 400 when
      it does not parse. */
  lemma HourlyDateCases<T, S>(pollIdText: string, date: Option<string>, fromIso: string -> Option<T>,
                              byHour: (int, Option<T>) -> S)
    requires PyInt(pollIdText).Some?
    ensures var r := HourlyReply(pollIdText, date, fromIso, byHour);
      var id := PyInt(pollIdText).value;
      && (date.None? || date == Some("") ==> r == Answer(200, HourlyBody(id, "today", byHour(id, None))))
      && (date.Some? && date.value != "" ==>
            (r == Refused(400, InvalidDate) <==> fromIso(ReplaceZ(date.value)).None?) &&
            (r.Answer? ==> r.body.date == date.value))
  {
  }

  /** The days parameter: 30 when absent or outside 1..365; None where
      int() raises, which the view does not catch. */
  function DaysParam(q: Option<string>): Option<int> {
    if q.None? then Some(30)
    else match PyInt(q.value)
         case None => None
         case Some(n) => Some(if n < 1 || n > 365 then 30 else n)
  }

  lemma DaysNormalised(q: Option<string>)
    ensures DaysParam(q).Some? ==> 1 <= DaysParam(q).value <= 365
    ensures q.None? ==> DaysParam(q) == Some(30)
    ensures q.Some? ==> (DaysParam(q).None? <==> PyInt(q.value).None?)
    ensures q.Some? && PyInt(q.value).Some? ==>
      var n := PyInt(q.value).value;
      DaysParam(q) == Some(if 1 <= n <= 365 then n else 30)
  {
  }

  datatype DailyBody<S> = DailyBody(pollId: int, days: int, data: S)

  function DailyReply<S>(pollIdText: string, days: Option<string>, byDay: (int, int) -> S): Reply<DailyBody<S>> {
    match PyInt(pollIdText)
    case None => Refused(400, InvalidPollId)
    case Some(id) =>
      match DaysParam(days)
      case None => Uncaught("ValueError")
      case Some(n) => Answer(200, DailyBody(id, n, byDay(id, n)))
  }

  /** A reply value of demographics: the poll id, or a value of the query. */
  datatype Field<D> = PollIdField(id: int) | DataField(value: D)

  /** demographics: `{"poll_id": poll_id, **demographics}`; a "poll_id" key
      of the query's dict overrides the parsed id. */
  function DemographicsReply<D>(pollIdText: string, demographics: int -> map<string, D>)
    : Reply<map<string, Field<D>>> {
    DemographicsOf(PyInt(pollIdText), demographics)
  }

  function DemographicsOf<D>(p: Option<int>, demographics: int -> map<string, D>): Reply<map<string, Field<D>>> {
    match p
    case None => Refused(400, InvalidPollId)
    case Some(id) =>
      Answer(200, map["poll_id" := PollIdField(id)] + Tagged(demographics(id)))
  }

  function Tagged<D>(d: map<string, D>): (r: map<string, Field<D>>)
    ensures r.Keys == d.Keys
    ensures forall k :: k in d ==> r[k] == DataField(d[k])
  {
    map k | k in d :: DataField(d[k])
  }

  lemma DemographicsMerge<D>(pollIdText: string, demographics: int -> map<string, D>)
    requires PyInt(pollIdText).Some?
    ensures var id := PyInt(pollIdText).value;
      var d := demographics(id);
      var r := DemographicsReply(pollIdText, demographics);
      && r.Answer? && r.body.Keys == d.Keys + {"poll_id"}
      && (forall k :: k in d ==> r.body[k] == DataField(d[k]))
      && ("poll_id" !in d ==> r.body["poll_id"] == PollIdField(id))
  {
    DemographicsOfParsed(PyInt(pollIdText).value, demographics);
  }

  lemma DemographicsOfParsed<D>(id: int, demographics: int -> map<string, D>)
    ensures var d := demographics(id);
      var r := DemographicsOf(Some(id), demographics);
      && r.Answer? && r.body.Keys == d.Keys + {"poll_id"}
      && (forall k :: k in d ==> r.body[k] == DataField(d[k]))
      && ("poll_id" !in d ==> r.body["poll_id"] == PollIdField(id))
  {
  }

  datatype DistributionBody<S> = DistributionBody(pollId: int, distribution: S)

  function DistributionReply<S>(pollIdText: string, distribution: int -> S): Reply<DistributionBody<S>> {
    match PyInt(pollIdText)
    case None => Refused(400, InvalidPollId)
    case Some(id) => Answer(200, DistributionBody(id, distribution(id)))
  }

  /** Every endpoint checks the poll id first: an id int() rejects gets 400
      whatever the other parameters are. */
  lemma PollIdCheckedFirst<D, S, T>(pollIdText: string, fetch: int -> map<string, D>, interval: Option<string>,
                                    series: (int, string) -> S, date: Option<string>, fromIso: string -> Option<T>,
                                    byHour: (int, Option<T>) -> S, days: Option<string>, byDay: (int, int) -> S,
                                    distribution: int -> S)
    requires PyInt(pollIdText).None?
    ensures DictReply(pollIdText, fetch) == Refused(400, InvalidPollId)
    ensures TimeSeriesReply(pollIdText, interval, series) == Refused(400, InvalidPollId)
    ensures HourlyReply(pollIdText, date, fromIso, byHour) == Refused(400, InvalidPollId)
    ensures DailyReply(pollIdText, days, byDay) == Refused(400, InvalidPollId)
    ensures DemographicsReply(pollIdText, fetch) == Refused(400, InvalidPollId)
    ensures DistributionReply(pollIdText, distribution) == Refused(400, InvalidPollId)
  {
  }

  /** A valid id with a valid or absent days value is answered with a
      day count in 1..365; only an unparsable days value escapes. */
  lemma DailyCases<S>(pollIdText: string, days: Option<string>, byDay: (int, int) -> S)
    requires PyInt(pollIdText).Some?
    ensures var r := DailyReply(pollIdText, days, byDay);
      (r.Uncaught? <==> days.Some? && PyInt(days.value).None?) &&
      (r.Answer? ==> r.status == 200 && 1 <= r.body.days <= 365 && r.body.data == byDay(r.body.pollId, r.body.days))
  {
    DaysNormalised(days);
  }
}
