/**
 * `GetRealtimeReportTool.execute`: translate the metric keys through a fixed
 * allow-list, take the 30 minutes up to now (UTC) as the window, and POST a body
 * with the minute dimension pinned at column 0.
 */
module Realtime {
  import opened Wrappers
  import opened Errors
  import opened Json
  import opened Decimal
  import opened Calendar
  import opened DateRange
  import opened Columns
  import opened Http
  import opened Params
  import opened Auth

  /** `REALTIME_METRICS`: the six metric keys the realtime endpoint accepts, each mapped to
      its id under the "metrics/" prefix. */
  const RealtimeMetrics: map<string, string> :=
    map k | k in {"occurrences", "visitors", "instances", "bounces", "entries", "exits"} :: "metrics/" + k

  /** Every allowed key maps to itself under the "metrics/" prefix. */
  lemma AllowList()
    ensures RealtimeMetrics.Keys == {"occurrences", "visitors", "instances", "bounces", "entries", "exits"}
    ensures forall k :: k in RealtimeMetrics ==> RealtimeMetrics[k] == "metrics/" + k
  {
  }

  /** `[REALTIME_METRICS[m] for m in metrics]`: fails with the first key not in the allow-list. */
  function Translate(keys: seq<string>): (r: Result<seq<string>, Error>)
    ensures r.Success? <==> forall i :: 0 <= i < |keys| ==> keys[i] in RealtimeMetrics
    ensures r.Success? ==> |r.value| == |keys| && forall i :: 0 <= i < |keys| ==> r.value[i] == RealtimeMetrics[keys[i]]
    ensures r.Failure? ==>
      exists j :: && 0 <= j < |keys| && keys[j] !in RealtimeMetrics
                  && (forall i :: 0 <= i < j ==> keys[i] in RealtimeMetrics)
                  && r.error == UnsupportedMetric(keys[j])
  {
    if keys == [] then Success([])
    else if keys[0] !in RealtimeMetrics then Failure(UnsupportedMetric(keys[0]))
    else match Translate(keys[1..])
      case Failure(e) => Failure(e)
      case Success(rest) => Success([RealtimeMetrics[keys[0]]] + rest)
  }

  // ---------------------------------------------------------------- the window

  const WindowMinutes := 30

  /** `strftime('%Y-%m-%dT%H:%M:%S')`: no fractional seconds, no offset. */
  function Stamp(t: DateTime): (s: string)
    requires ValidDateTime(t)
    ensures |s| == 19 && '/' !in s
  {
    IsoDate(t.date) + "T" + Pad2(t.hour) + ":" + Pad2(t.minute) + ":" + Pad2(t.second)
  }

  /** The 30 minutes ending at now, as "start/end"; OverflowError before 0001-01-01 00:30. */
  function Window(now: DateTime): Result<string, Error>
    requires ValidDateTime(now)
  {
    match SubMinutes(now, WindowMinutes)
    case None => Failure(DateOutOfRange)
    case Some(start) => Success(Stamp(start) + "/" + Stamp(now))
  }

  /** A stamp reads back as the date, hour, minute and second it was written from. */
  lemma StampFields(t: DateTime)
    requires ValidDateTime(t)
    ensures var s := Stamp(t);
      && ParseYmd(s[..10]) == Some(t.date) && s[10] == 'T'
      && Decimal.Value(s[11..13]) == t.hour && s[13] == ':'
      && Decimal.Value(s[14..16]) == t.minute && s[16] == ':'
      && Decimal.Value(s[17..]) == t.second
  {
    var s := Stamp(t);
    assert s[..10] == IsoDate(t.date);
    assert s[11..13] == Pad2(t.hour);
    assert s[14..16] == Pad2(t.minute);
    assert s[17..] == Pad2(t.second);
    ParseIsoDate(t.date);
    Pad2Value(t.hour);
    Pad2Value(t.minute);
    Pad2Value(t.second);
  }

  /** The window ends at now and starts exactly 30 minutes earlier, on the same second;
      it is two 19-character stamps joined by one "/". */
  lemma WindowBounds(now: DateTime)
    requires ValidDateTime(now)
    ensures Window(now).Failure? <==> MinuteIndex(now) < WindowMinutes
    ensures Window(now).Failure? ==> Window(now).error == DateOutOfRange
    ensures Window(now).Success? ==>
      var w, start := Window(now).value, SubMinutes(now, WindowMinutes).value;
      && |w| == 39
      && Split(w, '/') == [Stamp(start), Stamp(now)]
      && MinuteIndex(start) == MinuteIndex(now) - WindowMinutes
      && start.second == now.second
  {
    SubMinutesIndex(now, WindowMinutes);
    if Window(now).Success? {
      var start := SubMinutes(now, WindowMinutes).value;
      SplitJoin(Stamp(start), Stamp(now), '/');
    }
  }

  // ---------------------------------------------------------------- the body

  datatype DimensionColumn = DimensionColumn(id: string, dimensionColumnId: string)

  const MinuteDimension := "variables/daterangeminute"

  /** The minute dimension at column "0", then the caller's elements (when non-empty) at "1".."k". */
  function DimensionColumns(elements: Option<seq<string>>): seq<DimensionColumn>
  {
    var extra := if elements.Some? && elements.value != [] then elements.value else [];
    [DimensionColumn(MinuteDimension, "0")]
      + seq(|extra|, i requires 0 <= i < |extra| => DimensionColumn(extra[i], NatToString(i + 1)))
  }

  /** Column i of the dimensions is the minute dimension at i = 0 and element i - 1 after
      it, with the decimal rendering of i as its column id. */
  lemma ColumnIds(elements: Option<seq<string>>)
    ensures var cols := DimensionColumns(elements);
      var k := if elements.Some? then |elements.value| else 0;
      && |cols| == 1 + k
      && cols[0] == DimensionColumn(MinuteDimension, "0")
      && (forall i :: 1 <= i < |cols| ==> cols[i].id == elements.value[i - 1])
      && (forall i :: 0 <= i < |cols| ==> cols[i].dimensionColumnId == NatToString(i))
  {
    assert "0" == NatToString(0);
  }

  /** Column i of the dimensions reads back as i, the first is always the minute dimension,
      and the elements follow in their order; absent or empty elements leave only the minute. */
  lemma DimensionColumnsPositional(elements: Option<seq<string>>)
    ensures var cols := DimensionColumns(elements);
      var k := if elements.Some? then |elements.value| else 0;
      && |cols| == 1 + k
      && cols[0] == DimensionColumn(MinuteDimension, "0")
      && (forall i :: 1 <= i < |cols| ==> cols[i].id == elements.value[i - 1])
      && (forall i :: 0 <= i < |cols| ==>
            Canonical(cols[i].dimensionColumnId) && Decimal.Value(cols[i].dimensionColumnId) == i)
      && (forall i, j :: 0 <= i < j < |cols| ==> cols[i].dimensionColumnId != cols[j].dimensionColumnId)
  {
    var cols := DimensionColumns(elements);
    ColumnIds(elements);
    forall i | 0 <= i < |cols|
      ensures Canonical(cols[i].dimensionColumnId) && Decimal.Value(cols[i].dimensionColumnId) == i
    {
      NatToStringRoundTrip(i);
    }
  }

  datatype RealtimeSettings = RealtimeSettings(realTimeMinuteGranularity: int, dateGranularity: Option<string>)

  const MinuteGranularity := 10

  datatype RealtimeBody = RealtimeBody(
    rsid: string, globalFilters: seq<GlobalFilter>, metrics: seq<MetricColumn>,
    dimensions: seq<DimensionColumn>, settings: RealtimeSettings)

  /** `GetRealtimeReportParams`. */
  datatype RealtimeParams = RealtimeParams(
    rsid: string, metrics: seq<string>, elements: Option<seq<string>>, dateGranularity: Option<string>)

  const DefaultGranularity := "minute"

  /** `GetRealtimeReportParams(**params)`: rsid and metrics required, no fallback for rsid. */
  function Validate(m: Dict): (r: Result<RealtimeParams, Error>)
    ensures r.Success? <==>
      StrGiven(m, "rsid") && StrsGiven(m, "metrics") && OptStrsOk(m, "elements") && OptStrOk(m, "date_granularity")
    ensures r.Success? ==>
      && m["rsid"] == Str(r.value.rsid)
      && Strings(m["metrics"].items) == Some(r.value.metrics)
      && TakesStrs(m, "elements", r.value.elements)
      && TakesStr(m, "date_granularity", Some(DefaultGranularity), r.value.dateGranularity)
    ensures r.Failure? ==> r.error.Validation?
    ensures "rsid" !in m ==> r == Failure(Validation("rsid"))
  {
    var rsid :- RequiredString(m, "rsid");
    var metrics :- RequiredStrings(m, "metrics");
    var elements :- OptionalStrings(m, "elements");
    var granularity :- OptionalString(m, "date_granularity", Some(DefaultGranularity));
    Success(RealtimeParams(rsid, metrics, elements, granularity))
  }

  /** The request body for validated parameters at UTC time `now`: the metric names are
      translated first, then the last-30-minutes window is computed, then the body is built. */
  function Plan(p: RealtimeParams, now: DateTime): Result<RealtimeBody, Error>
    requires ValidDateTime(now)
  {
    var ids :- Translate(p.metrics);
    var window :- Window(now);
    Success(RealtimeBody(p.rsid, [DateRangeFilter(window)], MetricColumns(ids),
                         DimensionColumns(p.elements), RealtimeSettings(MinuteGranularity, p.dateGranularity)))
  }

  function Prepare(m: Dict, now: DateTime): Result<RealtimeBody, Error>
    requires ValidDateTime(now)
  {
    var p :- Validate(m);
    Plan(p, now)
  }

  /** The body carries the given rsid as is, one window filter, metric i as "metrics/" + key i
      at column "i", the dimension columns, granularity 10 and the given date granularity.
      An unknown key fails before the window is computed; with known keys the plan fails
      exactly when the window's start falls before the first representable day. */
  lemma PlanBody(p: RealtimeParams, now: DateTime)
    requires ValidDateTime(now)
    ensures Translate(p.metrics).Failure? ==> Plan(p, now) == Failure(Translate(p.metrics).error)
    ensures Translate(p.metrics).Success? ==> (Plan(p, now).Success? <==> Window(now).Success?)
    ensures Translate(p.metrics).Success? && Window(now).Failure? ==> Plan(p, now) == Failure(DateOutOfRange)
    ensures Plan(p, now).Success? ==>
      var b := Plan(p, now).value;
      && b.rsid == p.rsid
      && b.globalFilters == [GlobalFilter("dateRange", Window(now).value)]
      && |b.metrics| == |p.metrics|
      && (forall i :: 0 <= i < |p.metrics| ==>
            b.metrics[i].id == "metrics/" + p.metrics[i] && Decimal.Value(b.metrics[i].columnId) == i)
      && b.dimensions == DimensionColumns(p.elements)
      && b.settings == RealtimeSettings(10, p.dateGranularity)
  {
    if Plan(p, now).Success? {
      var ids := Translate(p.metrics).value;
      AllowList();
      MetricColumnsPositional(ids);
    }
  }

  function RealtimeUrl(companyId: string): Url { Url(companyId, RealtimePath) }

  class GetRealtimeReportTool {
    const auth: AdobeAuth

    constructor (auth: AdobeAuth)
      ensures this.auth == auth
    {
      this.auth := auth;
    }

    /** `execute(params)` at UTC time `now`. No token is requested when validation,
        translation or the window fails. */
    method Execute(params: Dict, now: DateTime, call: TokenCall, reply: Reply)
      returns (r: Result<Value, Error>, post: Option<Request<RealtimeBody>>, exchange: Option<TokenRequest>)
      requires ValidDateTime(now)
      requires auth.Valid()
      modifies auth
      ensures var plan := Prepare(params, now);
        && (plan.Failure? ==>
              && r == Failure(plan.error) && post.None? && exchange.None?
              && auth.CacheState() == old(auth.CacheState()))
        && (plan.Success? ==>
              var st := Acquire(auth.Creds(), old(auth.CacheState()), call);
              && auth.CacheState() == st.cache && exchange == st.sent
              && (st.result.Failure? ==> r == Failure(st.result.error) && post.None?)
              && (st.result.Success? ==>
                    && post == Some(Request(RealtimeUrl(auth.companyId),
                                            Headers(st.result.value, auth.clientId, auth.companyId, true), plan.value))
                    && r == (if reply.status == 200 then Success(reply.json) else Failure(RequestFailed(reply.text)))))
    {
      var plan := Prepare(params, now);
      if plan.Failure? {
        return Failure(plan.error), None, None;
      }
      var token;
      token, exchange := auth.GetAccessToken(call);
      if token.Failure? {
        return Failure(token.error), None, exchange;
      }
      post := Some(Request(RealtimeUrl(auth.companyId),
                           Headers(token.value, auth.clientId, auth.companyId, true), plan.value));
      if reply.status == 200 {
        r := Success(reply.json);
      } else {
        r := Failure(RequestFailed(reply.text));
      }
    }
  }
}
