/**
 * `AdobeAuth`: the six credentials and the cached bearer token of the OAuth 2.0
 * client-credentials grant (section 4.4 of RFC 6749). The token endpoint's reply
 * and the wall clock are parameters: a call reads the clock once to test the cache
 * and once more, after the reply, to compute the expiry.
 */
module Auth {
  import opened Wrappers
  import opened Errors

  /** Wall-clock time in microseconds, the resolution of Python's `datetime`. */
  type Instant = int

  const MicrosPerSecond := 1000000

  /** The six environment values the constructor reads; None where a variable is unset. */
  datatype Env = Env(
    clientId: Option<string>, clientSecret: Option<string>, companyId: Option<string>,
    reportSuiteId: Option<string>, tokenEndpoint: Option<string>, scopes: Option<string>)

  predicate IsSet(v: Option<string>) { v.Some? && v.value != "" }

  /** `all([...])` over the six values: each is set and non-empty. */
  predicate Complete(env: Env)
  {
    IsSet(env.clientId) && IsSet(env.clientSecret) && IsSet(env.companyId)
    && IsSet(env.reportSuiteId) && IsSet(env.tokenEndpoint) && IsSet(env.scopes)
  }

  datatype Credentials = Credentials(
    clientId: string, clientSecret: string, companyId: string,
    reportSuiteId: string, tokenEndpoint: string, scopes: string)

  /** The reply of the token endpoint (section 5.1 of RFC 6749): status, text, and the two
      fields the code reads from its JSON, None where the field is absent. */
  datatype TokenReply = TokenReply(status: int, text: string, accessToken: Option<string>, expiresIn: Option<int>)

  /** What one call of `get_access_token` is given by the outside world: the clock when it
      tests the cache, the endpoint's reply should it ask, and the clock after that reply. */
  datatype TokenCall = TokenCall(now: Instant, reply: TokenReply, receivedAt: Instant)

  /** The form-encoded token request. */
  datatype TokenRequest = TokenRequest(endpoint: string, contentType: string, form: seq<(string, string)>)

  /** The two cache fields, `access_token` and `token_expires_at`. */
  datatype Cache = Cache(token: Option<string>, expiresAt: Option<Instant>)

  const Empty := Cache(None, None)

  /** The cache answers without an exchange: a non-empty token whose expiry is strictly after now. */
  predicate Serves(c: Cache, now: Instant)
  {
    c.token.Some? && c.token.value != "" && c.expiresAt.Some? && c.expiresAt.value > now
  }

  function ExchangeRequest(cr: Credentials): TokenRequest
  {
    TokenRequest(cr.tokenEndpoint, "application/x-www-form-urlencoded",
      [("client_id", cr.clientId), ("client_secret", cr.clientSecret),
       ("grant_type", "client_credentials"), ("scope", cr.scopes)])
  }

  /** The outcome of one call: what it returns, the cache after it, and the exchange it sent. */
  datatype Step = Step(result: Result<string, Error>, cache: Cache, sent: Option<TokenRequest>)

  /** One call of `get_access_token` on cache c. */
  function Acquire(cr: Credentials, c: Cache, call: TokenCall): Step
  {
    if Serves(c, call.now) then Step(Success(c.token.value), c, None)
    else
      var req := Some(ExchangeRequest(cr));
      var reply := call.reply;
      if reply.status != 200 then Step(Failure(TokenRequestFailed(reply.text)), c, req)
      else match reply.accessToken
        case None => Step(Failure(MissingField("access_token")), c, req)
        case Some(t) =>
          match reply.expiresIn
          case None => Step(Failure(MissingField("expires_in")), c.(token := Some(t)), req)
          case Some(e) => Step(Success(t), Cache(Some(t), Some(call.receivedAt + e * MicrosPerSecond)), req)
  }

  // ---------------------------------------------------------------- properties

  /** The cached token is returned with no exchange iff the cache serves at now;
      a token that is served has an expiry strictly after now. */
  lemma CacheHitIff(cr: Credentials, c: Cache, call: TokenCall)
    ensures Acquire(cr, c, call).sent.None? <==> Serves(c, call.now)
    ensures Acquire(cr, c, call).sent.None? ==>
      Acquire(cr, c, call) == Step(Success(c.token.value), c, None) && c.expiresAt.value > call.now
  {
  }

  /** Otherwise exactly one exchange is sent, carrying the four form fields of the grant. */
  lemma ExchangeForm(cr: Credentials, c: Cache, call: TokenCall)
    requires !Serves(c, call.now)
    ensures Acquire(cr, c, call).sent == Some(ExchangeRequest(cr))
    ensures var f := ExchangeRequest(cr).form;
      && |f| == 4
      && f[0] == ("client_id", cr.clientId) && f[1] == ("client_secret", cr.clientSecret)
      && f[2] == ("grant_type", "client_credentials") && f[3] == ("scope", cr.scopes)
  {
  }

  /** A 200 reply with both fields stores the token and now + expires_in, and returns the token. */
  lemma ExchangeStores(cr: Credentials, c: Cache, call: TokenCall)
    requires !Serves(c, call.now) && call.reply.status == 200
    requires call.reply.accessToken.Some? && call.reply.expiresIn.Some?
    ensures Acquire(cr, c, call).result == Success(call.reply.accessToken.value)
    ensures Acquire(cr, c, call).cache
         == Cache(call.reply.accessToken, Some(call.receivedAt + call.reply.expiresIn.value * MicrosPerSecond))
  {
  }

  /** A reply other than 200 fails with its body and leaves both fields as they were. */
  lemma ExchangeRejected(cr: Credentials, c: Cache, call: TokenCall)
    requires !Serves(c, call.now) && call.reply.status != 200
    ensures Acquire(cr, c, call) == Step(Failure(TokenRequestFailed(call.reply.text)), c, Some(ExchangeRequest(cr)))
  {
  }

  /** A 200 reply without `expires_in` fails after storing the new token beside the old expiry,
      so the new token is served at a later time exactly when it is non-empty and that old
      expiry is still ahead: never when the old expiry was absent or had passed. */
  lemma MissingExpiry(cr: Credentials, c: Cache, call: TokenCall, later: Instant)
    requires !Serves(c, call.now) && call.reply.status == 200
    requires call.reply.accessToken.Some? && call.reply.expiresIn.None?
    ensures Acquire(cr, c, call).result.Failure?
    ensures Acquire(cr, c, call).cache == Cache(call.reply.accessToken, c.expiresAt)
    ensures Serves(Acquire(cr, c, call).cache, later) <==>
      call.reply.accessToken.value != "" && c.expiresAt.Some? && c.expiresAt.value > later
    ensures (c.expiresAt.None? || c.expiresAt.value <= call.now) && later >= call.now ==>
      !Serves(Acquire(cr, c, call).cache, later)
  {
  }

  /** After a successful exchange of a non-empty token, a second call before the expiry returns
      the same token with no exchange, and a call at or after the expiry exchanges again. */
  lemma SecondCall(cr: Credentials, c: Cache, first: TokenCall, second: TokenCall)
    requires Acquire(cr, c, first).sent.Some? && Acquire(cr, c, first).result.Success?
    requires Acquire(cr, c, first).result.value != ""
    ensures var s1 := Acquire(cr, c, first);
      var expiry := first.receivedAt + first.reply.expiresIn.value * MicrosPerSecond;
      && first.reply.expiresIn.Some?
      && s1.cache == Cache(Some(s1.result.value), Some(expiry))
      && (second.now < expiry ==> Acquire(cr, s1.cache, second) == Step(s1.result, s1.cache, None))
      && (second.now >= expiry ==> Acquire(cr, s1.cache, second).sent == Some(ExchangeRequest(cr)))
  {
  }

  /** A token reply that an exchange turns into a token: status 200 with both fields. */
  predicate Grants(reply: TokenReply)
  {
    reply.status == 200 && reply.accessToken.Some? && reply.expiresIn.Some?
  }

  /** When the endpoint would grant a token, a call succeeds, from the cache or by the exchange. */
  lemma AcquireSucceeds(cr: Credentials, c: Cache, call: TokenCall)
    requires Grants(call.reply)
    ensures Acquire(cr, c, call).result.Success?
    ensures Acquire(cr, c, call).result.value
         == if Serves(c, call.now) then c.token.value else call.reply.accessToken.value
  {
  }

  // ---------------------------------------------------------------- the object

  class AdobeAuth {
    const clientId: string
    const clientSecret: string
    const companyId: string
    const reportSuiteId: string
    const tokenEndpoint: string
    const scopes: string

    var accessToken: Option<string>
    var tokenExpiresAt: Option<Instant>

    /** Every credential is non-empty, as the constructor checked. */
    predicate Valid()
    {
      clientId != "" && clientSecret != "" && companyId != "" && reportSuiteId != ""
      && tokenEndpoint != "" && scopes != ""
    }

    function Creds(): Credentials
    {
      Credentials(clientId, clientSecret, companyId, reportSuiteId, tokenEndpoint, scopes)
    }

    function CacheState(): Cache
      reads this
    {
      Cache(accessToken, tokenExpiresAt)
    }

    /** `AdobeAuth()` once the environment is known to be complete. */
    constructor (env: Env)
      requires Complete(env)
      ensures Valid() && CacheState() == Empty
      ensures Creds() == Credentials(env.clientId.value, env.clientSecret.value,
        env.companyId.value, env.reportSuiteId.value, env.tokenEndpoint.value, env.scopes.value)
    {
      clientId := env.clientId.value;
      clientSecret := env.clientSecret.value;
      companyId := env.companyId.value;
      reportSuiteId := env.reportSuiteId.value;
      tokenEndpoint := env.tokenEndpoint.value;
      scopes := env.scopes.value;
      accessToken := None;
      tokenExpiresAt := None;
    }

    /** `AdobeAuth()` from the environment: fails when any credential is unset or empty,
        and otherwise starts with neither token nor expiry. */
    static method Create(env: Env) returns (r: Result<AdobeAuth, Error>)
      ensures r.Failure? <==> !Complete(env)
      ensures r.Failure? ==> r.error == MissingCredentials
      ensures r.Success? ==> fresh(r.value) && r.value.Valid() && r.value.CacheState() == Empty
    {
      if Complete(env) {
        var a := new AdobeAuth(env);
        r := Success(a);
      } else {
        r := Failure(MissingCredentials);
      }
    }

    /** `get_access_token`: serve the cache or exchange the credentials for a new token. */
    method GetAccessToken(call: TokenCall) returns (r: Result<string, Error>, sent: Option<TokenRequest>)
      modifies this
      ensures Step(r, CacheState(), sent) == Acquire(Creds(), old(CacheState()), call)
      ensures Serves(old(CacheState()), call.now) ==> sent.None? && r == Success(old(accessToken).value)
      ensures call.reply.status != 200 ==> CacheState() == old(CacheState())
    {
      if accessToken.Some? && accessToken.value != "" && tokenExpiresAt.Some? && tokenExpiresAt.value > call.now {
        return Success(accessToken.value), None;
      }
      sent := Some(ExchangeRequest(Creds()));
      var reply := call.reply;
      if reply.status == 200 {
        if reply.accessToken.None? {
          return Failure(MissingField("access_token")), sent;
        }
        accessToken := reply.accessToken;
        if reply.expiresIn.None? {
          return Failure(MissingField("expires_in")), sent;
        }
        tokenExpiresAt := Some(call.receivedAt + reply.expiresIn.value * MicrosPerSecond);
        r := Success(accessToken.value);
      } else {
        r := Failure(TokenRequestFailed(reply.text));
      }
    }
  }
}
