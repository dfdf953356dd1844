/**
 * `GetReportSuitesTool.execute`: GET the company's report suites with limit and
 * page always in the query and expansion only when given, and return the reply
 * body unchanged.
 */
module ReportSuites {
  import opened Wrappers
  import opened Errors
  import opened Json
  import opened Http
  import opened Params
  import opened Auth

  /** `GetReportSuitesParams`. */
  datatype ReportSuitesParams = ReportSuitesParams(limit: Option<int>, page: Option<int>, expansion: Option<string>)

  const DefaultLimit := 50
  const DefaultPage := 0

  /** `GetReportSuitesParams(**params)`: nothing is required. */
  function Validate(m: Dict): (r: Result<ReportSuitesParams, Error>)
    ensures r.Success? <==> OptIntOk(m, "limit") && OptIntOk(m, "page") && OptStrOk(m, "expansion")
    ensures r.Success? ==>
      && TakesInt(m, "limit", Some(DefaultLimit), r.value.limit)
      && TakesInt(m, "page", Some(DefaultPage), r.value.page)
      && TakesStr(m, "expansion", None, r.value.expansion)
    ensures r.Failure? ==> r.error.Validation?
  {
    var limit :- OptionalInt(m, "limit", Some(DefaultLimit));
    var page :- OptionalInt(m, "page", Some(DefaultPage));
    var expansion :- OptionalString(m, "expansion", None);
    Success(ReportSuitesParams(limit, page, expansion))
  }

  /** An optional integer as a query value. */
  function IntValue(v: Option<int>): Value
  {
    match v case Some(n) => Int(n) case None => Null
  }

  /** The `params` of p: limit and page always (so page 0 and a None are sent), then
      expansion only when it is a non-empty string. */
  predicate QueryFor(p: ReportSuitesParams, q: Query)
  {
    && |q| == (if TruthyString(p.expansion) then 3 else 2)
    && q[0] == ("limit", IntValue(p.limit)) && q[1] == ("page", IntValue(p.page))
    && (TruthyString(p.expansion) ==> q[2] == ("expansion", Str(p.expansion.value)))
  }

  /** `params`, built key by key: the query of p, in which the keys are distinct, expansion
      appears exactly when it is a non-empty string, and there is never an rsid. */
  method BuildQuery(p: ReportSuitesParams) returns (q: Query)
    ensures QueryFor(p, q)
    ensures forall i, j :: 0 <= i < j < |q| ==> q[i].0 != q[j].0
    ensures "expansion" in QueryKeys(q) <==> TruthyString(p.expansion)
    ensures "rsid" !in QueryKeys(q)
  {
    q := [("limit", IntValue(p.limit)), ("page", IntValue(p.page))];
    if TruthyString(p.expansion) {
      q := q + [("expansion", Str(p.expansion.value))];
    }
    assert QueryKeys(q) == ["limit", "page"] + (if TruthyString(p.expansion) then ["expansion"] else []);
  }

  function ReportSuitesUrl(companyId: string): Url
  {
    Url(companyId, SuitesPath)
  }

  class GetReportSuitesTool {
    const auth: AdobeAuth

    constructor (auth: AdobeAuth)
      ensures this.auth == auth
    {
      this.auth := auth;
    }

    /** `execute(params)`: the reply body of a 200 is returned as it came; any other status
        fails with the body. */
    method Execute(params: Dict, call: TokenCall, reply: Reply)
      returns (r: Result<Value, Error>, get: Option<Request<Query>>, exchange: Option<TokenRequest>)
      requires auth.Valid()
      modifies auth
      ensures var p := Validate(params);
        && (p.Failure? ==>
              && r == Failure(p.error) && get.None? && exchange.None?
              && auth.CacheState() == old(auth.CacheState()))
        && (p.Success? ==>
              var st := Acquire(auth.Creds(), old(auth.CacheState()), call);
              && auth.CacheState() == st.cache && exchange == st.sent
              && (st.result.Failure? ==> r == Failure(st.result.error) && get.None?)
              && (st.result.Success? ==>
                    && get.Some? && get.value.url == ReportSuitesUrl(auth.companyId)
                    && get.value.headers == Headers(st.result.value, auth.clientId, auth.companyId, true)
                    && QueryFor(p.value, get.value.payload)
                    && "rsid" !in QueryKeys(get.value.payload)
                    && ("expansion" in QueryKeys(get.value.payload) <==> TruthyString(p.value.expansion))
                    && r == (if reply.status == 200 then Success(reply.json) else Failure(RequestFailed(reply.text)))))
    {
      var p := Validate(params);
      if p.Failure? {
        return Failure(p.error), None, None;
      }
      var token;
      token, exchange := auth.GetAccessToken(call);
      if token.Failure? {
        return Failure(token.error), None, exchange;
      }
      var query := BuildQuery(p.value);
      get := Some(Request(ReportSuitesUrl(auth.companyId),
                          Headers(token.value, auth.clientId, auth.companyId, true), query));
      if reply.status == 200 {
        r := Success(reply.json);
      } else {
        r := Failure(RequestFailed(reply.text));
      }
    }
  }
}
