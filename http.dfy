/**
 * What the tools send to and receive from the Adobe Analytics API, with the
 * network itself abstracted: a reply is a status, its text and its decoded JSON.
 */
module Http {
  import opened Json

  /** One HTTP reply of a data endpoint. */
  datatype Reply = Reply(status: int, text: string, json: Value)

  /** A header value: plain text, or a credential of the Bearer scheme (section 2.1 of
      RFC 6750) whose text on the wire is `Wire`. */
  datatype HeaderValue = Plain(text: string) | Bearer(token: string)

  type Header = (string, HeaderValue)

  /** The API paths the tools use. */
  datatype Endpoint = ReportsPath | RealtimePath | DimensionsPath | MetricsPath | SuitesPath

  function Path(e: Endpoint): string
  {
    match e
    case ReportsPath => "/reports"
    case RealtimePath => "/reports/realtime"
    case DimensionsPath => "/dimensions"
    case MetricsPath => "/metrics"
    case SuitesPath => "/reportsuites/collections/suites"
  }

  /** An address of the API: an endpoint under the company's base URL; its text is `UrlText`. */
  datatype Url = Url(companyId: string, endpoint: Endpoint)

  /** A request a tool sends: its URL, headers, and the query or body it carries. */
  datatype Request<P> = Request(url: Url, headers: Headers, payload: P)

  /** Query parameters in insertion order, as the tools build their `params` dictionaries. */
  type Query = seq<(string, Value)>

  function QueryKeys(q: Query): seq<string>
  {
    seq(|q|, i requires 0 <= i < |q| => q[i].0)
  }

  const ApiBase := "https://analytics.adobe.io/api/"

  /** The URL as sent: the API base, the company id, then the path. */
  function UrlText(u: Url): string
  {
    ApiBase + u.companyId + Path(u.endpoint)
  }

  const BearerPrefix := "Bearer "

  /** The text a header value is sent as. */
  function Wire(v: HeaderValue): string
  {
    match v
    case Plain(text) => text
    case Bearer(token) => BearerPrefix + token
  }

  /** The headers every data request carries: the bearer credential, the API key, the
      company id, the JSON content type, and for some tools an Accept header. Their list
      as sent is `HeaderList`. */
  datatype Headers = Headers(token: string, clientId: string, companyId: string, accept: bool)

  function HeaderList(h: Headers): seq<Header>
  {
    [("Authorization", Bearer(h.token)), ("x-api-key", Plain(h.clientId)), ("x-proxy-company-id", Plain(h.companyId)),
     ("Content-Type", Plain("application/json"))]
    + (if h.accept then [("Accept", Plain("application/json"))] else [])
  }

  /** The header names are distinct, the credential is sent as "Bearer " followed by the
      token, and the key and company headers carry the configured ids. */
  lemma HeadersCarryCredentials(token: string, clientId: string, companyId: string, accept: bool)
    ensures var hs := HeaderList(Headers(token, clientId, companyId, accept));
      && |hs| == (if accept then 5 else 4)
      && (forall i, j :: 0 <= i < j < |hs| ==> hs[i].0 != hs[j].0)
      && hs[0].0 == "Authorization"
      && Wire(hs[0].1)[..|BearerPrefix|] == BearerPrefix && Wire(hs[0].1)[|BearerPrefix|..] == token
      && hs[1] == ("x-api-key", Plain(clientId))
      && hs[2] == ("x-proxy-company-id", Plain(companyId))
      && (accept <==> exists i :: 0 <= i < |hs| && hs[i].0 == "Accept")
  {
    var hs := HeaderList(Headers(token, clientId, companyId, accept));
    if accept {
      assert hs[4].0 == "Accept";
    }
  }
}
