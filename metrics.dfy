/**
 * `GetMetricsTool.execute`: request the metrics list page after page, each with a
 * token of its own, project every item to its id, title and category, and stop at
 * the cap or after a short page; the result is the accumulation cut to the cap.
 */
module Metrics {
  import opened Wrappers
  import opened Errors
  import opened Json
  import opened Http
  import opened Params
  import opened Auth

  /** `GetMetricsParams`. */
  datatype MetricsParams = MetricsParams(rsid: string, limit: Option<int>, page: Option<int>, maxResults: Option<int>)

  const DefaultLimit := 50
  const DefaultPage := 0
  const DefaultMaxResults := 1000

  /** `GetMetricsParams(**params)`. */
  function Validate(m: Dict): (r: Result<MetricsParams, Error>)
    ensures r.Success? <==>
      StrGiven(m, "rsid") && OptIntOk(m, "limit") && OptIntOk(m, "page") && OptIntOk(m, "max_results")
    ensures r.Success? ==>
      && m["rsid"] == Str(r.value.rsid)
      && TakesInt(m, "limit", Some(DefaultLimit), r.value.limit)
      && TakesInt(m, "page", Some(DefaultPage), r.value.page)
      && TakesInt(m, "max_results", Some(DefaultMaxResults), r.value.maxResults)
    ensures r.Failure? ==> r.error.Validation?
    ensures "rsid" !in m ==> r == Failure(Validation("rsid"))
  {
    var rsid :- RequiredString(m, "rsid");
    var limit :- OptionalInt(m, "limit", Some(DefaultLimit));
    var page :- OptionalInt(m, "page", Some(DefaultPage));
    var maxResults :- OptionalInt(m, "max_results", Some(DefaultMaxResults));
    Success(MetricsParams(rsid, limit, page, maxResults))
  }

  /** The numbers the loop runs on. */
  datatype Paging = Paging(rsid: string, limit: int, page: int, maxResults: int)

  /** A None limit, page or cap cannot be sent or compared (a TypeError in the loop). */
  function ToPaging(p: MetricsParams): (r: Result<Paging, Error>)
    ensures r.Success? <==> p.limit.Some? && p.page.Some? && p.maxResults.Some?
    ensures r.Success? ==> r.value == Paging(p.rsid, p.limit.value, p.page.value, p.maxResults.value)
    ensures r.Failure? ==> r.error == TypeMismatch
  {
    if p.limit.Some? && p.page.Some? && p.maxResults.Some? then
      Success(Paging(p.rsid, p.limit.value, p.page.value, p.maxResults.value))
    else Failure(TypeMismatch)
  }

  function Prepare(m: Dict): Result<Paging, Error>
  {
    var p :- Validate(m);
    ToPaging(p)
  }

  // ---------------------------------------------------------------- one page

  /** `{"id": item["id"], "title": item["title"], "category": item["category"]}` */
  datatype Summary = Summary(id: Value, title: Value, category: Value)

  /** Projects one item: a KeyError names the first missing key, and subscripting
      anything but an object is a TypeError. */
  function Project(item: Value): (r: Result<Summary, Error>)
    ensures r.Success? <==> item.Object? && "id" in item.fields && "title" in item.fields && "category" in item.fields
    ensures r.Success? ==> r.value == Summary(item.fields["id"], item.fields["title"], item.fields["category"])
  {
    match item
    case Object(f) =>
      if "id" !in f then Failure(MissingField("id"))
      else if "title" !in f then Failure(MissingField("title"))
      else if "category" !in f then Failure(MissingField("category"))
      else Success(Summary(f["id"], f["title"], f["category"]))
    case _ => Failure(TypeMismatch)
  }

  /** Projects a list of items in order, failing with the first item's error. */
  function ProjectAll(items: seq<Value>): (r: Result<seq<Summary>, Error>)
    ensures r.Success? <==> forall i :: 0 <= i < |items| ==> Project(items[i]).Success?
    ensures r.Success? ==> |r.value| == |items| && forall i :: 0 <= i < |items| ==> r.value[i] == Project(items[i]).value
  {
    if items == [] then Success([])
    else match (Project(items[0]), ProjectAll(items[1..]))
      case (Failure(e), _) => Failure(e)
      case (_, Failure(e)) => Failure(e)
      case (Success(s), Success(rest)) => Success([s] + rest)
  }

  /** `[... for item in data]`: a list projects item by item; iterating an empty object or
      string yields nothing, iterating a non-empty one yields strings that cannot be
      subscripted by a key, and null, booleans and numbers are not iterable. */
  function ProjectPage(data: Value): (r: Result<seq<Summary>, Error>)
    ensures data.Array? ==> r == ProjectAll(data.items)
    ensures !data.Array? ==> (r.Success? <==> (data.Object? && |data.fields| == 0) || (data.Str? && |data.s| == 0))
    ensures !data.Array? && r.Success? ==> r.value == []
  {
    match data
    case Array(items) => ProjectAll(items)
    case Object(f) => if |f| == 0 then Success([]) else Failure(TypeMismatch)
    case Str(s) => if |s| == 0 then Success([]) else Failure(TypeMismatch)
    case _ => Failure(TypeMismatch)
  }

  // ---------------------------------------------------------------- the loop

  datatype MetricsQuery = MetricsQuery(rsid: string, limit: int, page: int)

  /** `{"content": ..., "total_count": ..., "returned_count": ...}` */
  datatype MetricsResult = MetricsResult(content: seq<Summary>, totalCount: int, returnedCount: int)

  /** Python's `s[:n]`: a negative n counts from the end. */
  function PyTake<T>(s: seq<T>, n: int): (r: seq<T>)
  {
    if n >= 0 then (if n <= |s| then s[..n] else s)
    else if |s| + n >= 0 then s[..|s| + n] else []
  }

  /** A prefix of s; for a non-negative n its length is min(|s|, n), for a negative n it drops
      the last -n elements. */
  lemma PyTakePrefix<T>(s: seq<T>, n: int)
    ensures PyTake(s, n) <= s
    ensures n >= 0 ==> |PyTake(s, n)| == if n < |s| then n else |s|
    ensures n < 0 ==> |PyTake(s, n)| == if |s| + n > 0 then |s| + n else 0
  {
  }

  /** The reply to the k-th request; beyond the given pages the list is empty. */
  function PageReply(pages: seq<Reply>, k: nat): Reply
  {
    if k < |pages| then pages[k] else Reply(200, "[]", Array([]))
  }

  /** What the k-th `get_access_token` sees; beyond the given calls the token endpoint is
      unavailable. */
  function TokenAt(calls: seq<TokenCall>, k: nat): TokenCall
  {
    if k < |calls| then calls[k] else TokenCall(0, TokenReply(503, "", None, None), 0)
  }

  function MetricsUrl(companyId: string): Url { Url(companyId, MetricsPath) }

  /** What the loop leaves behind: the outcome, the token cache, and the requests sent. */
  datatype Fetch = Fetch(outcome: Result<MetricsResult, Error>, cache: Cache, sent: seq<Request<MetricsQuery>>)

  /** How far the accumulation is from the cap; it shrinks on every page that does not stop. */
  function Room(g: Paging, acc: seq<Summary>): nat
  {
    if |acc| < g.maxResults then g.maxResults - |acc| else 0
  }

  function Finish(all: seq<Summary>, g: Paging, last: nat): MetricsResult
  {
    var content := PyTake(all, g.maxResults);
    MetricsResult(content, last, |content|)
  }

  /** One pass of the loop body: either the loop ends here with its result, or it goes on
      with the request just sent, the cache and the items gathered so far. */
  datatype Pass = Stop(fetch: Fetch) | Continue(req: Request<MetricsQuery>, cache: Cache, all: seq<Summary>)

  /** The k-th pass, with `acc` gathered so far and `TokenAt(calls, k)` the outside world seen by the
      k-th `get_access_token`. A pass that goes on has gathered more, still below the cap. */
  function OnePass(cr: Credentials, g: Paging, pages: seq<Reply>, calls: seq<TokenCall>,
                k: nat, cache: Cache, acc: seq<Summary>): (s: Pass)
    ensures s.Continue? ==> |acc| < |s.all| < g.maxResults
  {
    var st := Acquire(cr, cache, TokenAt(calls, k));
    if st.result.Failure? then Stop(Fetch(Failure(st.result.error), st.cache, []))
    else
      var req := Request(MetricsUrl(cr.companyId), Headers(st.result.value, cr.clientId, cr.companyId, false),
                         MetricsQuery(g.rsid, g.limit, g.page + k));
      var reply := PageReply(pages, k);
      if reply.status != 200 then Stop(Fetch(Failure(RequestFailed(reply.text)), st.cache, [req]))
      else match ProjectPage(reply.json)
        case Failure(e) => Stop(Fetch(Failure(e), st.cache, [req]))
        case Success(content) =>
          var all := acc + content;
          if |all| >= g.maxResults || content == [] || |content| < g.limit then
            Stop(Fetch(Success(Finish(all, g, |content|)), st.cache, [req]))
          else Continue(req, st.cache, all)
  }

  /** The loop from its k-th pass on. */
  function Run(cr: Credentials, g: Paging, pages: seq<Reply>, calls: seq<TokenCall>,
               k: nat, cache: Cache, acc: seq<Summary>): Fetch
    decreases Room(g, acc)
  {
    match OnePass(cr, g, pages, calls, k, cache, acc)
    case Stop(f) => f
    case Continue(req, next, all) =>
      var rest := Run(cr, g, pages, calls, k + 1, next, all);
      Fetch(rest.outcome, rest.cache, [req] + rest.sent)
  }

  // ---------------------------------------------------------------- properties

  /** Run is one pass followed, when the pass goes on, by the rest of the loop. */
  lemma RunStep(cr: Credentials, g: Paging, pages: seq<Reply>, calls: seq<TokenCall>,
                k: nat, cache: Cache, acc: seq<Summary>)
    ensures var s := OnePass(cr, g, pages, calls, k, cache, acc);
      Run(cr, g, pages, calls, k, cache, acc)
        == if s.Stop? then s.fetch
           else
             var rest := Run(cr, g, pages, calls, k + 1, s.cache, s.all);
             Fetch(rest.outcome, rest.cache, [s.req] + rest.sent)
  {
  }

  /** The page sent as the i-th request is the start page plus i, with the same rsid and limit. */
  lemma {:induction false} RunQueries(cr: Credentials, g: Paging, pages: seq<Reply>, calls: seq<TokenCall>,
                                      k: nat, cache: Cache, acc: seq<Summary>)
    ensures forall i :: 0 <= i < |Run(cr, g, pages, calls, k, cache, acc).sent| ==>
      && Run(cr, g, pages, calls, k, cache, acc).sent[i].url == MetricsUrl(cr.companyId)
      && Run(cr, g, pages, calls, k, cache, acc).sent[i].payload == MetricsQuery(g.rsid, g.limit, g.page + k + i)
    decreases Room(g, acc)
  {
    var f := Run(cr, g, pages, calls, k, cache, acc);
    var s := OnePass(cr, g, pages, calls, k, cache, acc);
    PassShape(cr, g, pages, calls, k, cache, acc);
    if s.Continue? {
      var rest := Run(cr, g, pages, calls, k + 1, s.cache, s.all);
      RunQueries(cr, g, pages, calls, k + 1, s.cache, s.all);
      assert f.sent == [s.req] + rest.sent;
      SentCons(s.req, rest.sent, MetricsUrl(cr.companyId), g, k);
    }
  }

  /** Prepending the query for page start + k to the queries for k + 1 onwards. */
  lemma SentCons(req: Request<MetricsQuery>, rest: seq<Request<MetricsQuery>>, u: Url, g: Paging, k: nat)
    requires req.url == u && req.payload == MetricsQuery(g.rsid, g.limit, g.page + k)
    requires forall i :: 0 <= i < |rest| ==>
      rest[i].url == u && rest[i].payload == MetricsQuery(g.rsid, g.limit, g.page + (k + 1) + i)
    ensures forall i :: 0 <= i < |[req] + rest| ==>
      ([req] + rest)[i].url == u && ([req] + rest)[i].payload == MetricsQuery(g.rsid, g.limit, g.page + k + i)
  {
    forall i | 1 <= i < |[req] + rest|
      ensures ([req] + rest)[i].url == u
      ensures ([req] + rest)[i].payload == MetricsQuery(g.rsid, g.limit, g.page + k + i)
    {
      assert ([req] + rest)[i] == rest[i - 1];
    }
  }

  /** The projected items of page i, empty when it does not project. */
  function Items(pages: seq<Reply>, i: nat): seq<Summary>
  {
    var r := ProjectPage(PageReply(pages, i).json);
    if r.Success? then r.value else []
  }

  /** Page i came back with status 200 and projects. */
  predicate PageOk(pages: seq<Reply>, i: nat)
  {
    PageReply(pages, i).status == 200 && ProjectPage(PageReply(pages, i).json).Success?
  }

  /** The in-order concatenation of the first n projected pages. */
  function Gathered(pages: seq<Reply>, n: nat): seq<Summary>
  {
    if n == 0 then [] else Gathered(pages, n - 1) + Items(pages, n - 1)
  }

  /** The loop stops after page i: the cap is reached, or the page is empty or short. */
  predicate Stops(g: Paging, pages: seq<Reply>, i: nat)
  {
    |Gathered(pages, i + 1)| >= g.maxResults || Items(pages, i) == [] || |Items(pages, i)| < g.limit
  }

  /** Every given token call would be granted by its endpoint. */
  predicate TokensGranted(calls: seq<TokenCall>)
  {
    forall j :: 0 <= j < |calls| ==> Grants(calls[j].reply)
  }

  /** What one pass does: it goes on exactly when the token is granted and page k is a good page
      the loop does not stop on, and then it has sent the query for page start + k and gathered
      page k; otherwise it ends with the request (if any) it sent and the outcome of page k. */
  lemma PassShape(cr: Credentials, g: Paging, pages: seq<Reply>, calls: seq<TokenCall>,
                  k: nat, cache: Cache, acc: seq<Summary>)
    ensures var s, st := OnePass(cr, g, pages, calls, k, cache, acc), Acquire(cr, cache, TokenAt(calls, k));
      var all := acc + Items(pages, k);
      var stops := |all| >= g.maxResults || Items(pages, k) == [] || |Items(pages, k)| < g.limit;
      && (s.Continue? <==> st.result.Success? && PageOk(pages, k) && !stops)
      && (s.Continue? ==>
            && s.req.url == MetricsUrl(cr.companyId) && s.req.payload == MetricsQuery(g.rsid, g.limit, g.page + k)
            && s.all == all && s.cache == st.cache)
      && (s.Stop? ==>
            && |s.fetch.sent| <= 1
            && (s.fetch.sent == [] <==> st.result.Failure?)
            && (s.fetch.sent != [] ==>
                  s.fetch.sent[0].url == MetricsUrl(cr.companyId)
                  && s.fetch.sent[0].payload == MetricsQuery(g.rsid, g.limit, g.page + k))
            && (s.fetch.outcome.Success? ==>
                  s.fetch.sent != [] && PageOk(pages, k) && stops
                  && s.fetch.outcome.value == Finish(all, g, |Items(pages, k)|))
            && (s.fetch.sent != [] && PageReply(pages, k).status != 200 ==>
                  s.fetch.outcome == Failure(RequestFailed(PageReply(pages, k).text))))
  {
  }

  /** A pass that goes on gathered page k, which was good and met no stop condition. */
  lemma PassGoesOn(cr: Credentials, g: Paging, pages: seq<Reply>, calls: seq<TokenCall>,
                   k: nat, cache: Cache, acc: seq<Summary>)
    requires OnePass(cr, g, pages, calls, k, cache, acc).Continue?
    ensures OnePass(cr, g, pages, calls, k, cache, acc).all == acc + Items(pages, k)
    ensures PageOk(pages, k)
    ensures !(|acc + Items(pages, k)| >= g.maxResults || Items(pages, k) == [] || |Items(pages, k)| < g.limit)
    ensures acc == Gathered(pages, k) ==>
      OnePass(cr, g, pages, calls, k, cache, acc).all == Gathered(pages, k + 1) && !Stops(g, pages, k)
  {
    if acc == Gathered(pages, k) {
      assert Gathered(pages, k + 1) == acc + Items(pages, k);
    }
  }

  /** A pass that ends in success sent page k, which was good and met a stop condition, and
      finishes with everything gathered up to it. */
  lemma PassSucceeds(cr: Credentials, g: Paging, pages: seq<Reply>, calls: seq<TokenCall>,
                     k: nat, cache: Cache, acc: seq<Summary>)
    requires acc == Gathered(pages, k)
    requires OnePass(cr, g, pages, calls, k, cache, acc).Stop?
    requires OnePass(cr, g, pages, calls, k, cache, acc).fetch.outcome.Success?
    ensures var f := OnePass(cr, g, pages, calls, k, cache, acc).fetch;
      && |f.sent| == 1 && PageOk(pages, k) && Stops(g, pages, k)
      && f.outcome.value == Finish(Gathered(pages, k + 1), g, |Items(pages, k)|)
  {
    PassShape(cr, g, pages, calls, k, cache, acc);
    assert Gathered(pages, k + 1) == acc + Items(pages, k);
  }

  /** A success stopped on the last page sent, and finishes with everything gathered up to it. */
  lemma {:induction false} RunSuccess(cr: Credentials, g: Paging, pages: seq<Reply>, calls: seq<TokenCall>,
                                      k: nat, cache: Cache, acc: seq<Summary>, f: Fetch, n: nat)
    requires acc == Gathered(pages, k)
    requires f == Run(cr, g, pages, calls, k, cache, acc) && n == k + |f.sent|
    ensures f.outcome.Success? ==>
      && n > k && PageOk(pages, n - 1) && Stops(g, pages, n - 1)
      && f.outcome.value == Finish(Gathered(pages, n), g, |Items(pages, n - 1)|)
    decreases Room(g, acc)
  {
    var s := OnePass(cr, g, pages, calls, k, cache, acc);
    if s.Continue? {
      PassGoesOn(cr, g, pages, calls, k, cache, acc);
      var rest := Run(cr, g, pages, calls, k + 1, s.cache, s.all);
      assert f == Fetch(rest.outcome, rest.cache, [s.req] + rest.sent);
      RunSuccess(cr, g, pages, calls, k + 1, s.cache, s.all, rest, n);
    } else if s.fetch.outcome.Success? {
      PassSucceeds(cr, g, pages, calls, k, cache, acc);
    }
  }

  /** A pass that ends after sending its request sent exactly one. */
  lemma PassStopSent(cr: Credentials, g: Paging, pages: seq<Reply>, calls: seq<TokenCall>,
                     k: nat, cache: Cache, acc: seq<Summary>)
    requires OnePass(cr, g, pages, calls, k, cache, acc).Stop?
    ensures var f := OnePass(cr, g, pages, calls, k, cache, acc).fetch;
      && |f.sent| <= 1
      && (f.sent == [] <==> Acquire(cr, cache, TokenAt(calls, k)).result.Failure?)
      && (f.sent != [] && PageReply(pages, k).status != 200 ==>
            f.outcome == Failure(RequestFailed(PageReply(pages, k).text)))
      && (f.sent != [] && PageOk(pages, k) ==> f.outcome.Success?)
  {
  }

  /** Pages beyond the given replies are empty lists. */
  lemma PageBeyond(pages: seq<Reply>, k: nat)
    requires k >= |pages|
    ensures PageOk(pages, k) && Items(pages, k) == []
  {
    assert PageReply(pages, k) == Reply(200, "[]", Array([]));
  }

  /** Every page before the last one sent was a good page the loop did not stop on. */
  lemma {:induction false} RunPagesOk(cr: Credentials, g: Paging, pages: seq<Reply>, calls: seq<TokenCall>,
                                      k: nat, cache: Cache, acc: seq<Summary>, f: Fetch, n: nat)
    requires acc == Gathered(pages, k)
    requires f == Run(cr, g, pages, calls, k, cache, acc) && n == k + |f.sent|
    ensures forall i :: k <= i < n - 1 ==> PageOk(pages, i) && !Stops(g, pages, i)
    decreases Room(g, acc), 1
  {
    if OnePass(cr, g, pages, calls, k, cache, acc).Continue? {
      RunPagesOkOn(cr, g, pages, calls, k, cache, acc, f, n);
    } else {
      PassStopSent(cr, g, pages, calls, k, cache, acc);
      assert f == OnePass(cr, g, pages, calls, k, cache, acc).fetch;
    }
  }

  lemma {:induction false} RunPagesOkOn(cr: Credentials, g: Paging, pages: seq<Reply>, calls: seq<TokenCall>,
                                        k: nat, cache: Cache, acc: seq<Summary>, f: Fetch, n: nat)
    requires acc == Gathered(pages, k)
    requires f == Run(cr, g, pages, calls, k, cache, acc) && n == k + |f.sent|
    requires OnePass(cr, g, pages, calls, k, cache, acc).Continue?
    ensures forall i :: k <= i < n - 1 ==> PageOk(pages, i) && !Stops(g, pages, i)
    decreases Room(g, acc), 0
  {
    var s := OnePass(cr, g, pages, calls, k, cache, acc);
    PassGoesOn(cr, g, pages, calls, k, cache, acc);
    var rest := Run(cr, g, pages, calls, k + 1, s.cache, s.all);
    assert f == Fetch(rest.outcome, rest.cache, [s.req] + rest.sent);
    assert n == k + 1 + |rest.sent|;
    RunPagesOk(cr, g, pages, calls, k + 1, s.cache, s.all, rest, n);
    GoodPagesExtend(g, pages, k, n);
  }

  lemma GoodPagesExtend(g: Paging, pages: seq<Reply>, k: nat, n: nat)
    requires PageOk(pages, k) && !Stops(g, pages, k)
    requires forall i :: k + 1 <= i < n - 1 ==> PageOk(pages, i) && !Stops(g, pages, i)
    ensures forall i :: k <= i < n - 1 ==> PageOk(pages, i) && !Stops(g, pages, i)
  {
    forall i | k <= i < n - 1
      ensures PageOk(pages, i) && !Stops(g, pages, i)
    {
      if i > k {
        assert k + 1 <= i < n - 1;
      }
    }
  }

  /** A page with a status other than 200 aborts the loop with its body. */
  lemma {:induction false} RunAbort(cr: Credentials, g: Paging, pages: seq<Reply>, calls: seq<TokenCall>,
                                    k: nat, cache: Cache, acc: seq<Summary>, f: Fetch, n: nat)
    requires f == Run(cr, g, pages, calls, k, cache, acc) && n == k + |f.sent|
    ensures n > k && PageReply(pages, n - 1).status != 200 ==>
      f.outcome == Failure(RequestFailed(PageReply(pages, n - 1).text))
    decreases Room(g, acc)
  {
    var s := OnePass(cr, g, pages, calls, k, cache, acc);
    if s.Continue? {
      var rest := Run(cr, g, pages, calls, k + 1, s.cache, s.all);
      assert f == Fetch(rest.outcome, rest.cache, [s.req] + rest.sent);
      RunAbort(cr, g, pages, calls, k + 1, s.cache, s.all, rest, n);
    } else {
      PassStopSent(cr, g, pages, calls, k, cache, acc);
      assert f == s.fetch;
    }
  }

  /** When every token call is granted and there is one for every page and one more, a failure
      can only come from the last page sent. */
  lemma {:induction false} RunFailsOnLast(cr: Credentials, g: Paging, pages: seq<Reply>, calls: seq<TokenCall>,
                                          k: nat, cache: Cache, acc: seq<Summary>, f: Fetch, n: nat)
    requires f == Run(cr, g, pages, calls, k, cache, acc) && n == k + |f.sent|
    ensures TokensGranted(calls) && k <= |pages| < |calls| && f.outcome.Failure? ==> n > k && !PageOk(pages, n - 1)
    decreases Room(g, acc)
  {
    if TokensGranted(calls) && k <= |pages| < |calls| {
      var s := OnePass(cr, g, pages, calls, k, cache, acc);
      if s.Continue? {
        PassGoesOn(cr, g, pages, calls, k, cache, acc);
        if k >= |pages| {
          PageBeyond(pages, k);
        }
        var rest := Run(cr, g, pages, calls, k + 1, s.cache, s.all);
        assert f == Fetch(rest.outcome, rest.cache, [s.req] + rest.sent);
        RunFailsOnLast(cr, g, pages, calls, k + 1, s.cache, s.all, rest, n);
      } else {
        AcquireSucceeds(cr, cache, calls[k]);
        PassStopSent(cr, g, pages, calls, k, cache, acc);
        assert f == s.fetch;
      }
    }
  }

  /** Of the n requests sent (pages k..n-1): every page but the last was a good page the loop
      did not stop on; a success stopped on the last page and returns the concatenation of all
      pages cut to the cap, the last page's size as total_count and the content's length as
      returned_count; a page with a status other than 200 aborts with its body; and with a granted
      token call for every page and one more, a failure can only come from the last page. */
  lemma RunShape(cr: Credentials, g: Paging, pages: seq<Reply>, calls: seq<TokenCall>,
                 k: nat, cache: Cache, acc: seq<Summary>, f: Fetch, n: nat)
    requires acc == Gathered(pages, k)
    requires f == Run(cr, g, pages, calls, k, cache, acc) && n == k + |f.sent|
    ensures && (forall i :: k <= i < n - 1 ==> PageOk(pages, i) && !Stops(g, pages, i))
      && (f.outcome.Success? ==>
            && n > k && PageOk(pages, n - 1) && Stops(g, pages, n - 1)
            && f.outcome.value.content == PyTake(Gathered(pages, n), g.maxResults)
            && f.outcome.value.totalCount == |Items(pages, n - 1)|
            && f.outcome.value.returnedCount == |f.outcome.value.content|)
      && (n > k && PageReply(pages, n - 1).status != 200 ==>
            f.outcome == Failure(RequestFailed(PageReply(pages, n - 1).text)))
      && (TokensGranted(calls) && k <= |pages| < |calls| && f.outcome.Failure? ==> n > k && !PageOk(pages, n - 1))
  {
    RunPagesOk(cr, g, pages, calls, k, cache, acc, f, n);
    RunSuccess(cr, g, pages, calls, k, cache, acc, f, n);
    RunAbort(cr, g, pages, calls, k, cache, acc, f, n);
    RunFailsOnLast(cr, g, pages, calls, k, cache, acc, f, n);
  }

  /** With limit 10, a cap of 25, three full pages and every token granted, the loop sends
      exactly three requests and returns the first 25 items, with the third page's 10 as
      total_count. */
  lemma CapExample(cr: Credentials, g: Paging, pages: seq<Reply>, calls: seq<TokenCall>, cache: Cache)
    requires g.limit == 10 && g.maxResults == 25 && TokensGranted(calls) && |calls| > |pages|
    requires forall i :: 0 <= i < 3 ==> PageOk(pages, i) && |Items(pages, i)| == 10
    ensures var f := Run(cr, g, pages, calls, 0, cache, []);
      && f.outcome.Success? && |f.sent| == 3 && |Gathered(pages, 3)| == 30
      && f.outcome.value.content == Gathered(pages, 3)[..25]
      && f.outcome.value.returnedCount == 25 && f.outcome.value.totalCount == 10
  {
    var f := Run(cr, g, pages, calls, 0, cache, []);
    RunShape(cr, g, pages, calls, 0, cache, [], f, |f.sent|);
    assert |Gathered(pages, 1)| == 10 && |Gathered(pages, 2)| == 20 && |Gathered(pages, 3)| == 30;
    assert !Stops(g, pages, 0) && !Stops(g, pages, 1) && Stops(g, pages, 2);
    assert f.outcome.Success?;
    assert |f.sent| == 3;
  }

  /** Moving one request from the remaining run to those already sent keeps their concatenation. */
  lemma SentSteps(sent: seq<Request<MetricsQuery>>, req: Request<MetricsQuery>, later: seq<Request<MetricsQuery>>)
    ensures sent + ([req] + later) == (sent + [req]) + later
  {
  }

  // ---------------------------------------------------------------- the tool

  class GetMetricsTool {
    const auth: AdobeAuth

    constructor (auth: AdobeAuth)
      ensures this.auth == auth
    {
      this.auth := auth;
    }

    /** One pass of the loop body: the k-th token, the GET of page start + k, the projection
        of its reply, and the decision to break (ending with the final dictionary) or to go on. */
    method FetchPage(g: Paging, pages: seq<Reply>, calls: seq<TokenCall>, k: nat, all: seq<Summary>)
      returns (s: Pass)
      modifies auth
      ensures s == OnePass(auth.Creds(), g, pages, calls, k, old(auth.CacheState()), all)
      ensures s.Stop? ==> auth.CacheState() == s.fetch.cache
      ensures s.Continue? ==> auth.CacheState() == s.cache
    {
      var token, _ := auth.GetAccessToken(TokenAt(calls, k));
      if token.Failure? {
        return Stop(Fetch(Failure(token.error), auth.CacheState(), []));
      }
      var req := Request(MetricsUrl(auth.companyId), Headers(token.value, auth.clientId, auth.companyId, false),
                         MetricsQuery(g.rsid, g.limit, g.page + k));
      var reply := PageReply(pages, k);
      if reply.status != 200 {
        return Stop(Fetch(Failure(RequestFailed(reply.text)), auth.CacheState(), [req]));
      }
      var result := ProjectPage(reply.json);
      if result.Failure? {
        return Stop(Fetch(Failure(result.error), auth.CacheState(), [req]));
      }
      var content := result.value;
      var gathered := all + content;
      if |gathered| >= g.maxResults || content == [] || |content| < g.limit {
        var totalCount := |content|;
        var kept := PyTake(gathered, g.maxResults);
        return Stop(Fetch(Success(MetricsResult(kept, totalCount, |kept|)), auth.CacheState(), [req]));
      }
      s := Continue(req, auth.CacheState(), gathered);
    }

    /** The `while True` loop of `execute` on validated paging values: `pages[k]` answers the
        k-th request and `TokenAt(calls, k)` is what the k-th `get_access_token` sees. Its outcome, the
        requests it sends and the cache it leaves are those of `Run` from the first request. */
    method Paginate(g: Paging, pages: seq<Reply>, calls: seq<TokenCall>)
      returns (r: Result<MetricsResult, Error>, sent: seq<Request<MetricsQuery>>)
      modifies auth
      ensures var f := Run(auth.Creds(), g, pages, calls, 0, old(auth.CacheState()), []);
        r == f.outcome && sent == f.sent && auth.CacheState() == f.cache
    {
      ghost var cr := auth.Creds();
      ghost var target := Run(cr, g, pages, calls, 0, auth.CacheState(), []);
      var all: seq<Summary> := [];
      var currentPage := g.page;
      sent := [];
      ghost var passes: nat := 0;
      ghost var rest := target;
      while true
        invariant currentPage == g.page + passes
        invariant rest == Run(cr, g, pages, calls, passes, auth.CacheState(), all)
        invariant target.outcome == rest.outcome && target.cache == rest.cache && target.sent == sent + rest.sent
        decreases Room(g, all)
      {
        var k := currentPage - g.page;
        assert k == passes;
        RunStep(cr, g, pages, calls, passes, auth.CacheState(), all);
        var pass := FetchPage(g, pages, calls, k, all);
        if pass.Stop? {
          return pass.fetch.outcome, sent + pass.fetch.sent;
        }
        rest := Run(cr, g, pages, calls, passes + 1, auth.CacheState(), pass.all);
        SentSteps(sent, pass.req, rest.sent);
        sent := sent + [pass.req];
        all := pass.all;
        currentPage := currentPage + 1;
        passes := passes + 1;
      }
    }

    /** `execute(params)`: invalid parameters send nothing and leave the cache alone;
        otherwise the loop runs on the validated paging values. */
    method Execute(params: Dict, pages: seq<Reply>, calls: seq<TokenCall>)
      returns (r: Result<MetricsResult, Error>, sent: seq<Request<MetricsQuery>>)
      requires auth.Valid()
      modifies auth
      ensures var prep := Prepare(params);
        && (prep.Failure? ==> r == Failure(prep.error) && sent == [] && auth.CacheState() == old(auth.CacheState()))
        && (prep.Success? ==>
              var f := Run(auth.Creds(), prep.value, pages, calls, 0, old(auth.CacheState()), []);
              r == f.outcome && sent == f.sent && auth.CacheState() == f.cache)
    {
      var prep := Prepare(params);
      if prep.Failure? {
        return Failure(prep.error), [];
      }
      r, sent := Paginate(prep.value, pages, calls);
    }
  }
}
