/**
 * `GetReportTool.execute`: validate the parameters, fall back to the configured
 * report suite, resolve the date range, build the report body, then fetch a token
 * and POST the body to the reports endpoint.
 */
module Report {
  import opened Wrappers
  import opened Errors
  import opened Json
  import opened Decimal
  import opened Calendar
  import opened DateRange
  import opened Columns
  import opened Http
  import opened Params
  import opened Auth

  /** `GetReportParams`. */
  datatype ReportParams = ReportParams(
    dateRange: string, metrics: seq<string>, dimension: Option<string>,
    rsid: Option<string>, limit: Option<int>, page: Option<int>)

  const DefaultDimension := "daterangeday"
  const DefaultLimit := 10
  const DefaultPage := 0

  /** `GetReportParams(**params)`: two required fields, four with defaults. */
  function Validate(m: Dict): (r: Result<ReportParams, Error>)
    ensures r.Success? <==>
      && StrGiven(m, "date_range") && StrsGiven(m, "metrics")
      && OptStrOk(m, "dimension") && OptStrOk(m, "rsid") && OptIntOk(m, "limit") && OptIntOk(m, "page")
    ensures r.Success? ==>
      && m["date_range"] == Str(r.value.dateRange)
      && Strings(m["metrics"].items) == Some(r.value.metrics)
      && TakesStr(m, "dimension", Some(DefaultDimension), r.value.dimension)
      && TakesStr(m, "rsid", None, r.value.rsid)
      && TakesInt(m, "limit", Some(DefaultLimit), r.value.limit)
      && TakesInt(m, "page", Some(DefaultPage), r.value.page)
    ensures r.Failure? ==> r.error.Validation?
    ensures "date_range" !in m ==> r == Failure(Validation("date_range"))
  {
    var dateRange :- RequiredString(m, "date_range");
    var metrics :- RequiredStrings(m, "metrics");
    var dimension :- OptionalString(m, "dimension", Some(DefaultDimension));
    var rsid :- OptionalString(m, "rsid", None);
    var limit :- OptionalInt(m, "limit", Some(DefaultLimit));
    var page :- OptionalInt(m, "page", Some(DefaultPage));
    Success(ReportParams(dateRange, metrics, dimension, rsid, limit, page))
  }

  /** `validated.rsid or auth.report_suite_id`, rejected when that is empty. */
  function ResolveRsid(given: Option<string>, fallback: string): (r: Result<string, Error>)
    ensures TruthyString(given) ==> r == Success(given.value)
    ensures !TruthyString(given) && fallback != "" ==> r == Success(fallback)
    ensures r.Failure? <==> !TruthyString(given) && fallback == ""
    ensures r.Failure? ==> r.error == MissingReportSuite
  {
    var rsid := if TruthyString(given) then given.value else fallback;
    if rsid == "" then Failure(MissingReportSuite) else Success(rsid)
  }

  const MetricPrefix := "metrics/"
  const VariablePrefix := "variables/"

  /** `f"variables/{dimension}"`: a None dimension is formatted as the text "None". */
  function DimensionId(d: Option<string>): string
  {
    VariablePrefix + (match d case Some(s) => s case None => "None")
  }

  function MetricIds(names: seq<string>): seq<string>
  {
    seq(|names|, i requires 0 <= i < |names| => MetricPrefix + names[i])
  }

  datatype Settings = Settings(limit: Option<int>, page: Option<int>)

  datatype ReportBody = ReportBody(
    rsid: string, globalFilters: seq<GlobalFilter>, metrics: seq<MetricColumn>,
    dimension: string, settings: Settings)

  /** The request body for validated parameters at local time `now`: the report suite is
      resolved first, then the date range is parsed, then the body is built. */
  function Plan(p: ReportParams, fallback: string, now: DateTime): Result<ReportBody, Error>
    requires ValidDateTime(now)
  {
    var rsid :- ResolveRsid(p.rsid, fallback);
    var range :- ParseDateRange(p.dateRange, now);
    Success(ReportBody(rsid, [DateRangeFilter(range)], MetricColumns(MetricIds(p.metrics)),
                       DimensionId(p.dimension), Settings(p.limit, p.page)))
  }

  /** Everything the tool decides before it asks for a token. */
  function Prepare(m: Dict, fallback: string, now: DateTime): Result<ReportBody, Error>
    requires ValidDateTime(now)
  {
    var p :- Validate(m);
    Plan(p, fallback, now)
  }

  function ReportsUrl(companyId: string): Url { Url(companyId, ReportsPath) }

  // ---------------------------------------------------------------- properties

  /** The body: the resolved suite, exactly one date-range filter holding the resolved range,
      metric i at column "i" with id "metrics/" + name i, the prefixed dimension and the
      given limit and page. The suite is checked before the date range. */
  lemma PlanBody(p: ReportParams, fallback: string, now: DateTime)
    requires ValidDateTime(now)
    ensures ResolveRsid(p.rsid, fallback).Failure? ==> Plan(p, fallback, now) == Failure(MissingReportSuite)
    ensures ResolveRsid(p.rsid, fallback).Success? ==>
      (Plan(p, fallback, now).Failure? <==> ParseDateRange(p.dateRange, now).Failure?)
    ensures Plan(p, fallback, now).Success? ==>
      var b := Plan(p, fallback, now).value;
      && b.rsid == ResolveRsid(p.rsid, fallback).value
      && b.globalFilters == [GlobalFilter("dateRange", ParseDateRange(p.dateRange, now).value)]
      && |b.metrics| == |p.metrics|
      && (forall i :: 0 <= i < |p.metrics| ==>
            && Decimal.Value(b.metrics[i].columnId) == i && Canonical(b.metrics[i].columnId)
            && b.metrics[i].id[..|MetricPrefix|] == MetricPrefix
            && b.metrics[i].id[|MetricPrefix|..] == p.metrics[i])
      && (forall i, j :: 0 <= i < j < |b.metrics| ==> b.metrics[i].columnId != b.metrics[j].columnId)
      && b.dimension[..|VariablePrefix|] == VariablePrefix
      && (p.dimension.Some? ==> b.dimension[|VariablePrefix|..] == p.dimension.value)
      && (p.dimension.None? ==> b.dimension == "variables/None")
      && b.settings == Settings(p.limit, p.page)
  {
    PlanOutcome(p, fallback, now);
    if Plan(p, fallback, now).Success? {
      MetricColumnsNamed(p.metrics);
      assert Plan(p, fallback, now).value.dimension == DimensionId(p.dimension);
      DimensionIdText(p.dimension);
    }
  }

  /** The dimension id is "variables/" followed by the name, or by "None" when there is none. */
  lemma DimensionIdText(d: Option<string>)
    ensures DimensionId(d)[..|VariablePrefix|] == VariablePrefix
    ensures d.Some? ==> DimensionId(d)[|VariablePrefix|..] == d.value
    ensures d.None? ==> DimensionId(d) == "variables/None"
  {
  }

  lemma PlanOutcome(p: ReportParams, fallback: string, now: DateTime)
    requires ValidDateTime(now)
    ensures ResolveRsid(p.rsid, fallback).Failure? ==> Plan(p, fallback, now) == Failure(MissingReportSuite)
    ensures ResolveRsid(p.rsid, fallback).Success? ==>
      (Plan(p, fallback, now).Failure? <==> ParseDateRange(p.dateRange, now).Failure?)
  {
  }

  /** The metric columns of the prefixed names: column i is "i", its id is "metrics/" + name i. */
  lemma MetricColumnsNamed(names: seq<string>)
    ensures var cols := MetricColumns(MetricIds(names));
      && |cols| == |names|
      && (forall i :: 0 <= i < |names| ==>
            && Decimal.Value(cols[i].columnId) == i && Canonical(cols[i].columnId)
            && cols[i].id[..|MetricPrefix|] == MetricPrefix
            && cols[i].id[|MetricPrefix|..] == names[i])
      && (forall i, j :: 0 <= i < j < |cols| ==> cols[i].columnId != cols[j].columnId)
  {
    var cols := MetricColumns(MetricIds(names));
    MetricColumnsPositional(MetricIds(names));
    forall i | 0 <= i < |names|
      ensures cols[i].id[..|MetricPrefix|] == MetricPrefix
      ensures cols[i].id[|MetricPrefix|..] == names[i]
    {
      assert cols[i].id == MetricPrefix + names[i];
    }
  }

  /** Parameters left out of the dictionary give the daterangeday dimension, limit 10 and page 0,
      and the suite then comes from the fallback. */
  lemma Defaults(m: Dict, fallback: string, now: DateTime)
    requires ValidDateTime(now)
    requires "dimension" !in m && "rsid" !in m && "limit" !in m && "page" !in m
    requires fallback != ""
    ensures Prepare(m, fallback, now).Success? ==>
      var b := Prepare(m, fallback, now).value;
      b.rsid == fallback && b.dimension == VariablePrefix + DefaultDimension && b.settings == Settings(Some(10), Some(0))
  {
    var v := Validate(m);
    if v.Success? {
      var p := v.value;
      assert p.dimension == Some(DefaultDimension) && p.rsid == None;
      assert p.limit == Some(DefaultLimit) && p.page == Some(DefaultPage);
      assert ResolveRsid(p.rsid, fallback) == Success(fallback);
    }
  }

  // ---------------------------------------------------------------- the tool

  class GetReportTool {
    const auth: AdobeAuth

    constructor (auth: AdobeAuth)
      ensures this.auth == auth
    {
      this.auth := auth;
    }

    /** `execute(params)` at local time `now`, with the token call and the API's reply given.
        Nothing is sent when the parameters, the suite or the date range are rejected; a
        token failure stops before the POST; a status other than 200 fails with the body. */
    method Execute(params: Dict, now: DateTime, call: TokenCall, reply: Reply)
      returns (r: Result<Value, Error>, post: Option<Request<ReportBody>>, exchange: Option<TokenRequest>)
      requires ValidDateTime(now)
      requires auth.Valid()
      modifies auth
      ensures var plan := Prepare(params, auth.reportSuiteId, now);
        && (plan.Failure? ==>
              && r == Failure(plan.error) && post.None? && exchange.None?
              && auth.CacheState() == old(auth.CacheState()))
        && (plan.Success? ==>
              var st := Acquire(auth.Creds(), old(auth.CacheState()), call);
              && auth.CacheState() == st.cache && exchange == st.sent
              && (st.result.Failure? ==> r == Failure(st.result.error) && post.None?)
              && (st.result.Success? ==>
                    && post == Some(Request(ReportsUrl(auth.companyId),
                                            Headers(st.result.value, auth.clientId, auth.companyId, true), plan.value))
                    && r == (if reply.status != 200 then Failure(RequestFailed(reply.text)) else Success(reply.json))))
    {
      var plan := Prepare(params, auth.reportSuiteId, now);
      if plan.Failure? {
        return Failure(plan.error), None, None;
      }
      var token;
      token, exchange := auth.GetAccessToken(call);
      if token.Failure? {
        return Failure(token.error), None, exchange;
      }
      post := Some(Request(ReportsUrl(auth.companyId),
                           Headers(token.value, auth.clientId, auth.companyId, true), plan.value));
      if reply.status != 200 {
        r := Failure(RequestFailed(reply.text));
      } else {
        r := Success(reply.json);
      }
    }
  }
}
