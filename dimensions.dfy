/**
 * `GetDimensionsTool.execute`: GET the dimensions of a report suite, sending limit
 * and page only when they are truthy, and wrap whatever list comes back as
 * `{"content": ...}`.
 */
module Dimensions {
  import opened Wrappers
  import opened Errors
  import opened Json
  import opened Http
  import opened Params
  import opened Auth

  /** `GetDimensionsParams`. */
  datatype DimensionsParams = DimensionsParams(rsid: string, limit: Option<int>, page: Option<int>)

  const DefaultLimit := 50
  const DefaultPage := 0

  /** `GetDimensionsParams(**params)`. */
  function Validate(m: Dict): (r: Result<DimensionsParams, Error>)
    ensures r.Success? <==> StrGiven(m, "rsid") && OptIntOk(m, "limit") && OptIntOk(m, "page")
    ensures r.Success? ==>
      && m["rsid"] == Str(r.value.rsid)
      && TakesInt(m, "limit", Some(DefaultLimit), r.value.limit)
      && TakesInt(m, "page", Some(DefaultPage), r.value.page)
    ensures r.Failure? ==> r.error.Validation?
    ensures "rsid" !in m ==> r == Failure(Validation("rsid"))
  {
    var rsid :- RequiredString(m, "rsid");
    var limit :- OptionalInt(m, "limit", Some(DefaultLimit));
    var page :- OptionalInt(m, "page", Some(DefaultPage));
    Success(DimensionsParams(rsid, limit, page))
  }

  /** The `request_params` of p: rsid first, then limit and page each only when truthy and
      with its given value, so that the default page 0, a limit of 0 and a None are never
      sent; limit comes before page, no other key is sent and no key twice. */
  predicate QueryFor(p: DimensionsParams, q: Query)
  {
    && |q| >= 1 && q[0] == ("rsid", Str(p.rsid))
    && ("limit" in QueryKeys(q) <==> TruthyInt(p.limit))
    && ("page" in QueryKeys(q) <==> TruthyInt(p.page))
    && (forall i :: 0 <= i < |q| && q[i].0 == "limit" ==> TruthyInt(p.limit) && q[i].1 == Int(p.limit.value))
    && (forall i :: 0 <= i < |q| && q[i].0 == "page" ==> TruthyInt(p.page) && q[i].1 == Int(p.page.value))
    && (forall i :: 0 <= i < |q| ==> q[i].0 == "rsid" || q[i].0 == "limit" || q[i].0 == "page")
    && (forall i, j :: 0 <= i < j < |q| ==> q[i].0 != q[j].0)
    && (forall i, j :: 0 <= i < |q| && 0 <= j < |q| && q[i].0 == "page" && q[j].0 == "limit" ==> j < i)
  }

  /** `request_params`, built key by key. */
  method BuildQuery(p: DimensionsParams) returns (q: Query)
    ensures QueryFor(p, q)
  {
    q := [("rsid", Str(p.rsid))];
    if TruthyInt(p.limit) {
      q := q + [("limit", Int(p.limit.value))];
    }
    if TruthyInt(p.page) {
      q := q + [("page", Int(p.page.value))];
    }
    if TruthyInt(p.limit) && TruthyInt(p.page) {
      assert q == [("rsid", Str(p.rsid)), ("limit", Int(p.limit.value)), ("page", Int(p.page.value))];
      QueryWithBoth(p);
    } else if TruthyInt(p.limit) {
      assert q == [("rsid", Str(p.rsid)), ("limit", Int(p.limit.value))];
      QueryWithLimit(p);
    } else if TruthyInt(p.page) {
      assert q == [("rsid", Str(p.rsid)), ("page", Int(p.page.value))];
      QueryWithPage(p);
    } else {
      QueryRsidOnly(p);
    }
  }

  lemma QueryRsidOnly(p: DimensionsParams)
    requires !TruthyInt(p.limit) && !TruthyInt(p.page)
    ensures QueryFor(p, [("rsid", Str(p.rsid))])
  {
    assert QueryKeys([("rsid", Str(p.rsid))]) == ["rsid"];
  }

  lemma QueryWithLimit(p: DimensionsParams)
    requires TruthyInt(p.limit) && !TruthyInt(p.page)
    ensures QueryFor(p, [("rsid", Str(p.rsid)), ("limit", Int(p.limit.value))])
  {
    assert QueryKeys([("rsid", Str(p.rsid)), ("limit", Int(p.limit.value))]) == ["rsid", "limit"];
  }

  lemma QueryWithPage(p: DimensionsParams)
    requires !TruthyInt(p.limit) && TruthyInt(p.page)
    ensures QueryFor(p, [("rsid", Str(p.rsid)), ("page", Int(p.page.value))])
  {
    assert QueryKeys([("rsid", Str(p.rsid)), ("page", Int(p.page.value))]) == ["rsid", "page"];
  }

  lemma QueryWithBoth(p: DimensionsParams)
    requires TruthyInt(p.limit) && TruthyInt(p.page)
    ensures QueryFor(p, [("rsid", Str(p.rsid)), ("limit", Int(p.limit.value)), ("page", Int(p.page.value))])
  {
    var q := [("rsid", Str(p.rsid)), ("limit", Int(p.limit.value)), ("page", Int(p.page.value))];
    assert QueryKeys(q) == ["rsid", "limit", "page"];
  }

  /** `len(x)` is defined: a string, a list or an object. */
  predicate Sized(v: Value) { v.Str? || v.Array? || v.Object? }

  /** A reply object gives its "content" (an empty list when missing), anything else is the
      content itself; `len(content)` fails with a TypeError on anything that has no length. */
  function Normalize(data: Value): (r: Result<Value, Error>)
    ensures r.Success? ==> r.value.Object? && r.value.fields.Keys == {"content"}
    ensures !data.Object? && Sized(data) ==> r == Success(Object(map["content" := data]))
    ensures data.Object? && "content" !in data.fields ==> r == Success(Object(map["content" := Array([])]))
    ensures data.Object? && "content" in data.fields ==>
      && (r.Success? <==> Sized(data.fields["content"]))
      && (r.Success? ==> r.value.fields["content"] == data.fields["content"])
    ensures !data.Object? ==> (r.Success? <==> Sized(data))
    ensures r.Failure? ==> r.error == TypeMismatch
  {
    var content := if data.Object? then GetOr(data.fields, "content", Array([])) else data;
    if Sized(content) then Success(Object(map["content" := content])) else Failure(TypeMismatch)
  }

  /** Normalising a normalised reply changes nothing: its content passes through unchanged. */
  lemma NormalizeIdempotent(data: Value)
    requires Normalize(data).Success?
    ensures Normalize(Normalize(data).value) == Normalize(data)
  {
    var content := if data.Object? then GetOr(data.fields, "content", Array([])) else data;
    assert Normalize(data).value == Object(map["content" := content]);
    assert GetOr(map["content" := content], "content", Array([])) == content;
  }

  function DimensionsUrl(companyId: string): Url { Url(companyId, DimensionsPath) }

  class GetDimensionsTool {
    const auth: AdobeAuth

    constructor (auth: AdobeAuth)
      ensures this.auth == auth
    {
      this.auth := auth;
    }

    /** `execute(params)`: validation, the token, one GET without an Accept header, and the
        normalised reply; a status other than 200 fails with the body. */
    method Execute(params: Dict, call: TokenCall, reply: Reply)
      returns (r: Result<Value, Error>, get: Option<Request<Query>>, exchange: Option<TokenRequest>)
      requires auth.Valid()
      modifies auth
      ensures var p := Validate(params);
        && (p.Failure? ==>
              && r == Failure(p.error) && get.None? && exchange.None?
              && auth.CacheState() == old(auth.CacheState()))
        && (p.Success? ==>
              var st := Acquire(auth.Creds(), old(auth.CacheState()), call);
              && auth.CacheState() == st.cache && exchange == st.sent
              && (st.result.Failure? ==> r == Failure(st.result.error) && get.None?)
              && (st.result.Success? ==>
                    && get.Some? && get.value.url == DimensionsUrl(auth.companyId)
                    && get.value.headers == Headers(st.result.value, auth.clientId, auth.companyId, false)
                    && QueryFor(p.value, get.value.payload)
                    && r == (if reply.status != 200 then Failure(RequestFailed(reply.text)) else Normalize(reply.json))))
    {
      var p := Validate(params);
      if p.Failure? {
        return Failure(p.error), None, None;
      }
      var token;
      token, exchange := auth.GetAccessToken(call);
      if token.Failure? {
        return Failure(token.error), None, exchange;
      }
      var query := BuildQuery(p.value);
      get := Some(Request(DimensionsUrl(auth.companyId),
                          Headers(token.value, auth.clientId, auth.companyId, false), query));
      if reply.status != 200 {
        r := Failure(RequestFailed(reply.text));
      } else {
        r := Normalize(reply.json);
      }
    }
  }
}
