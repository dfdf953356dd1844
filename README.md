# Adobe Analytics MCP server: the decision logic, modelled and verified

The server exposes Adobe Analytics as MCP tools: reports, a realtime report, and the lists
of dimensions, metrics and report suites. Around the HTTP calls it decides a number of
things by itself, and this project models those decisions in Dafny and proves what they
guarantee:

- **date ranges** (`parse_date_range`). An explicit `D1/D2` pair, a single `YYYY-MM-DD`
  date or a relative keyword becomes two local midnights `YYYY-MM-DDT00:00:00.000` joined
  by `/`. The modules `Decimal`, `Calendar` and `DateRange` cover this with a proleptic
  Gregorian calendar that counts days like Python's `date.toordinal()`;
- **report bodies** for the report and realtime tools: positional metric columns,
  `metrics/` and `variables/` prefixes, the realtime allow-list, the minute dimension at
  column 0 and the 30-minute window (modules `Columns`, `Report`, `Realtime`);
- **metrics pagination**: a `while` loop (method `Metrics.GetMetricsTool.Paginate`, one
  pass of its body in `FetchPage`) is proved equal to a recursive specification
  `Metrics.Run`, and the lemmas describe what `Run` does;
- **the token cache** of `AdobeAuth` (OAuth 2.0 client-credentials grant, section 4.4 of
  RFC 6749; bearer use, section 2.1 of RFC 6750). `Auth.AdobeAuth` is a class with the two
  cache fields, and `GetAccessToken` is proved against the pure step `Auth.Acquire`;
- **parameter handling**: the pydantic parameter models with their defaults (`Params`
  and each tool's `Validate`), the report-suite fallback and the metrics defaults of the
  server's handlers (`Server`), and the query dictionaries of the dimensions and
  report-suites tools.

Each tool's `Execute` takes the outside world as arguments:

- the local or UTC time (`now`);
- what its `get_access_token` call sees (`Auth.TokenCall`: the clock before, the token
  endpoint's reply, the clock after);
- the API's reply (`Http.Reply`: status, text, decoded JSON).

The metrics tool gets a sequence of replies and a sequence of token calls, one per pass of
its loop. A page beyond the replies is an empty list. A token call beyond the calls
(`Metrics.TokenAt`) meets an endpoint that answers 503.

Each `Execute` returns the outcome (a `Result` whose `Failure` names the exception) and the
request it sent, and it updates the token cache of the `AdobeAuth` it holds. It requires that
`AdobeAuth` to hold six non-empty credentials (`Valid()`), which the constructor and `Create`
establish, since the source builds every instance through its constructor. The single-call
tools also return the token exchange they sent, if any. Requests carry their address as an
endpoint (`Http.Url`, written out by `Http.UrlText`) and their headers as `Http.Headers`
(listed by `Http.HeaderList`).

## Model

| member | source | states |
|---|---|---|
| Calendar.DaysInMonth | src/tools/get_report.py:33-45 | February has 29 days exactly in a leap year and 28 otherwise. April, June, September and November have 30 days, and the other months 31. |
| Calendar.WeekdayAnchor | src/tools/get_report.py:39 | `weekday()` counts from Monday as 0 on the real calendar: 2024-04-01, a Monday, gives 0. |
| Calendar.WeekdayPrev | src/tools/get_report.py:39 | The day before d has the previous weekday, (weekday(d) + 6) mod 7, so Sunday (6) comes before Monday (0). |
| Calendar.OrdinalPositive | src/tools/get_report.py:33-45 | Every valid date has ordinal at least 1, and only 0001-01-01 has ordinal 1. |
| Calendar.PrevDayOrdinal | src/tools/get_report.py:45 | The day before d has ordinal one less, across month and year ends. It fails only on 0001-01-01. |
| Calendar.SubDaysOrdinal | src/tools/get_report.py:33-41 | `d - timedelta(days=n)` has ordinal `ord(d) - n`. It overflows exactly when `ord(d) <= n`. |
| Calendar.OrdinalInjective | src/tools/get_report.py:33-45 | Two valid dates with the same ordinal are the same date, so an ordinal fixes the resolved date. |
| Calendar.MondayOfWeek | src/tools/get_report.py:38-39 | Going back `weekday()` days always succeeds and lands on a Monday at most six days back. |
| Calendar.PrevWeekMonday | src/tools/get_report.py:40-41 | Going back `weekday() + 7` days fails iff the ordinal is at most that many. Otherwise it lands on a Monday exactly that many days back. |
| Calendar.SubMinutesIndex | src/tools/get_realtime_report.py:78 | `t - timedelta(minutes=n)` moves the minute count back by n and keeps seconds and microseconds. It fails exactly before 0001-01-01 00:00. |
| Decimal.NatToStringRoundTrip | src/tools/get_report.py:126 | `str(i)` is a canonical decimal numeral (no leading zero) that reads back as i. |
| Decimal.Pad4Value | src/tools/get_report.py:51-57 | The four-digit year of `isoformat()` reads back as the year. |
| Decimal.Pad2Value | src/tools/get_report.py:51-57 | The two-digit month, day, hour, minute or second reads back as its value. |
| DateRange.SplitTwo | src/tools/get_report.py:19 | `split("/")` gives exactly two parts, the text before and after the first "/", iff there is exactly one "/". |
| DateRange.ParseYmdSpellings | src/tools/get_report.py:21-22 | `strptime(s, "%Y-%m-%d")` returns d exactly when d is a real calendar date and s is one of its spellings. A spelling is four year digits, "-", the month, "-" and the day. The month is zero-padded or, below 10, one digit. The day is zero-padded or, below 10, one digit or a space and one digit. Nothing may follow the day. |
| DateRange.ParseIsoDate | src/tools/get_report.py:51-57 | `strptime` reads back every date that `isoformat()` writes. |
| DateRange.Resolve | src/tools/get_report.py:13-48 | Every resolved interval consists of two valid dates. |
| DateRange.OutputShape | src/tools/get_report.py:50-59 | Every success is 47 characters: two midnights, each with a literal `.000` and each reading back as its resolved date, joined by one "/". |
| DateRange.ExplicitPair | src/tools/get_report.py:18-24 | An explicit pair `D1/D2` yields D1 and D2 as given, in that order, with no start-before-end check. |
| DateRange.ExplicitPairExample | src/tools/get_report.py:18-24 | `"2024-04-01/2024-04-19"` gives `"2024-04-01T00:00:00.000/2024-04-19T00:00:00.000"`. |
| DateRange.SingleDate | src/tools/get_report.py:26-29 | A single date D gives the interval D to D. |
| DateRange.SlashRule | src/tools/get_report.py:18-24 | With a "/", success iff exactly one "/" and a valid date on each side. More "/" is the unpacking error, and otherwise the malformed-date error naming the expression. |
| DateRange.KeywordsAreNotDates | src/tools/get_report.py:26-31 | No keyword contains "/" or parses as a date, so each keyword reaches the keyword branch. |
| DateRange.UnsupportedExpression | src/tools/get_report.py:46-47 | A non-date expression that is not a keyword fails with an unsupported-range error naming it. |
| DateRange.LastDays | src/tools/get_report.py:32-37 | `last_3_days`/`last_7_days`/`last_30_days` start 3/7/30 days before today and end today. They fail only when that leaves the calendar. |
| DateRange.ResolveKeyword | src/tools/get_report.py:31-48 | Every keyword ends today, and its start is the keyword's start date. |
| DateRange.ThisWeek | src/tools/get_report.py:38-39 | `this_week` never fails. It starts on a Monday `weekday()` days back, within today−6..today, and ends today. |
| DateRange.LastWeek | src/tools/get_report.py:40-41 | `last_week` starts on the Monday exactly 7 days before this week's Monday and still ends today. It fails only before the calendar's start. |
| DateRange.ThisMonth | src/tools/get_report.py:42-43 | `this_month` runs from day 1 of the current month to today. |
| DateRange.LastMonth | src/tools/get_report.py:44-45 | `last_month` starts on day 1 of the previous month, or December 1 of the previous year in January, and ends today. It fails only in January of year 1. |
| Http.HeadersCarryCredentials | src/tools/get_report.py:141-147 | The `Authorization` header is sent (`Http.Wire`) as `Bearer ` followed by the token, which can be read back. The client id is sent as `x-api-key` and the company as `x-proxy-company-id`. Header names are distinct, and an Accept header is present iff asked for. |
| Params.RequiredString | src/tools/get_report.py:65-67 | A required field is accepted only when present with the right type, and otherwise names itself in the error. |
| Params.OptionalString | src/tools/get_report.py:69-72 | An optional field absent from the dictionary takes its default, an explicit null gives None, and a wrong type fails naming it. |
| Params.OptionalInt | src/tools/get_report.py:73-74 | The same for optional integers such as limit and page. |
| Params.RequiredStrings | src/tools/get_report.py:68 | A required `List[str]` is accepted iff it is an array of strings, keeping them in order. Otherwise it fails naming the field. |
| Params.OptionalStrings | src/tools/get_realtime_report.py:26 | An `Optional[List[str]]` is None when absent or null, and is the strings of an array of strings. Anything else fails naming the field. |
| Params.Strings | src/tools/get_report.py:68 | A `List[str]` is accepted iff every element is a string, and it keeps every element in order. |
| Auth.AdobeAuth.constructor | src/auth/adobe_auth.py:16-28 | A constructed instance holds the six credentials and starts with no token and no expiry. |
| Auth.AdobeAuth.Create | src/auth/adobe_auth.py:24-28 | Construction fails iff one of the six credentials is unset or empty, and otherwise starts with an empty cache. |
| Auth.CacheHitIff | src/auth/adobe_auth.py:33-34 | The cached token is returned with no exchange iff it is non-empty and its expiry is strictly after now. |
| Auth.ExchangeForm | src/auth/adobe_auth.py:36-47 | Otherwise exactly one exchange is sent, with `client_id`, `client_secret`, `grant_type=client_credentials` and `scope`. |
| Auth.ExchangeStores | src/auth/adobe_auth.py:48-52 | A 200 reply stores `access_token` with expiry now + `expires_in` seconds and returns the new token. |
| Auth.ExchangeRejected | src/auth/adobe_auth.py:53-56 | Any other status fails with the reply's text and leaves both cache fields unchanged. |
| Auth.MissingExpiry | src/auth/adobe_auth.py:50-51 | A 200 reply without `expires_in` fails after storing the new token next to the old expiry. That token is served at a later time iff it is non-empty and the old expiry is still ahead, so never when that expiry was absent or had passed. |
| Auth.SecondCall | src/auth/adobe_auth.py:33-52 | After a successful exchange, a call before the expiry returns the same token with no exchange. A call at or after the expiry exchanges again. |
| Auth.AcquireSucceeds | src/auth/adobe_auth.py:33-52 | When the endpoint would grant a token, a call succeeds and returns the cached token or the new one. |
| Auth.AdobeAuth.GetAccessToken | src/auth/adobe_auth.py:30-56 | The method's result, request and new cache fields are those of `Acquire` on the old fields. A cache hit sends nothing, and a non-200 reply changes nothing. |
| Columns.MetricColumnsPositional | src/tools/get_report.py:124-129 | Column i holds the i-th metric id and a column id that is `str(i)`, read back as i. No two columns share an id. |
| Report.Validate | src/tools/get_report.py:62-74 | Accepted iff `date_range` is a string, `metrics` a list of strings, dimension and rsid absent, null or strings, and limit and page absent, null or integers. Given values are kept, null gives None, and absent dimension, rsid, limit and page become `daterangeday`, None, 10 and 0. A rejection is a validation error. |
| Report.ResolveRsid | src/tools/get_report.py:113-115 | A truthy given rsid wins, else the configured suite. It fails iff both are empty. |
| Report.PlanBody | src/tools/get_report.py:113-135 | The suite is checked before the date range. The body has the resolved suite and exactly one date-range filter with the resolved range. Metric i is at column "i" with id `metrics/` + name. The dimension is `variables/` + dimension, or `variables/None` when none is given. Settings are the given limit and page. |
| Report.Defaults | src/tools/get_report.py:69-74 | With those keys absent, the body uses the configured suite, `variables/daterangeday`, limit 10 and page 0. |
| Report.GetReportTool.Execute | src/tools/get_report.py:106-167 | A rejected parameter, suite or range sends nothing, requests no token and leaves the cache alone. Otherwise the token step, and the exchange it sends, are those of `Acquire`. The POST carries the body with Accept. A non-200 fails with the text, and 200 returns the JSON. |
| Realtime.AllowList | src/tools/get_realtime_report.py:14-21 | The allow-list has exactly the six keys, each mapped to `metrics/` + key. |
| Realtime.Translate | src/tools/get_realtime_report.py:74 | Translation succeeds iff every key is allowed and keeps the order. Otherwise it fails naming the first unknown key. |
| Realtime.Stamp | src/tools/get_realtime_report.py:79 | A stamp has 19 characters and no "/". |
| Realtime.StampFields | src/tools/get_realtime_report.py:79 | `%Y-%m-%dT%H:%M:%S` reads back as the date, hour, minute and second, with no fractional part. |
| Realtime.WindowBounds | src/tools/get_realtime_report.py:77-79 | The window ends at now and starts exactly 30 minutes earlier on the same second. It is two stamps joined by one "/". |
| Realtime.DimensionColumnsPositional | src/tools/get_realtime_report.py:112-120 | The minute dimension sits at column "0", and the caller's elements follow in order at "1".."k". Absent or empty elements leave only the minute dimension, and column ids are distinct. |
| Realtime.Validate | src/tools/get_realtime_report.py:23-27 | Accepted iff rsid is a string, metrics a list of strings, elements absent, null or a list of strings, and date granularity absent, null or a string. rsid and metrics are kept as given. Elements default to None and date granularity to `minute`, and null gives None. A rejection is a validation error. |
| Realtime.PlanBody | src/tools/get_realtime_report.py:96-125 | An unknown key fails before the window is computed. With known keys, the plan succeeds iff the window does, and a window starting before year 1 fails with the date-out-of-range error. The body has the given rsid, one window filter, metric i as `metrics/` + key at column "i", the dimension columns, and granularity 10 with the given date granularity. |
| Realtime.GetRealtimeReportTool.Execute | src/tools/get_realtime_report.py:67-133 | Validation, translation or window failures send nothing, request no token and leave the cache alone. Otherwise the token step, and the exchange it sends, are those of `Acquire`. One POST with Accept and the planned body goes to `/reports/realtime`. A 200 returns the JSON, and any other status fails with the text. |
| Metrics.Validate | src/tools/get_metrics.py:12-16 | Accepted iff rsid is a string and limit, page and max_results are absent, null or integers. Given values are kept, null gives None, and absent limit, page and max_results become 50, 0 and 1000. A rejection is a validation error. |
| Metrics.ToPaging | src/tools/get_metrics.py:69-73 | Paging values exist iff limit, page and max_results are all set (not null), and they are copied unchanged. Otherwise the call fails (TypeError). |
| Metrics.Project | src/tools/get_metrics.py:92-99 | An item projects iff it is an object with `id`, `title` and `category`, and the projection is exactly those three values. |
| Metrics.ProjectAll | src/tools/get_metrics.py:92-99 | A list projects iff every item does, keeping length and order. |
| Metrics.ProjectPage | src/tools/get_metrics.py:91-99 | A list page projects item by item. An empty object or string yields nothing, and any other non-list fails. |
| Metrics.PyTakePrefix | src/tools/get_metrics.py:125-127 | `all[:max]` is a prefix of all, of length min(len, max) for max ≥ 0. A negative max drops that many from the end. |
| Metrics.OnePass | src/tools/get_metrics.py:55-121 | A pass that goes on has gathered strictly more items and is still below the cap, so the loop terminates. |
| Metrics.PassShape | src/tools/get_metrics.py:55-121 | A pass goes on iff the token is granted and page k is a good page with no stop condition. It then queried page start+k and gathered it. Otherwise it ends with the outcome of page k. |
| Metrics.PassGoesOn | src/tools/get_metrics.py:55-121 | A pass that goes on had page k good and not stopping, and has gathered what came before plus page k's items. From the first page on, that is everything gathered up to page k. |
| Metrics.PassSucceeds | src/tools/get_metrics.py:108-128 | A pass that ends in success sent one request, for a good page k that met a stop condition. It finishes with everything gathered up to page k. |
| Metrics.PassStopSent | src/tools/get_metrics.py:55-121 | A pass that ends sent at most one request, and none exactly when the token call failed. Once sent, a non-200 page aborts with its body and a good page succeeds. |
| Metrics.RunQueries | src/tools/get_metrics.py:66-73 | The i-th request queries page start + i, with the same rsid and limit, at `/metrics`. |
| Metrics.RunPagesOk | src/tools/get_metrics.py:82-120 | Every page before the last one sent had status 200, projected, and did not meet a stop condition. |
| Metrics.RunSuccess | src/tools/get_metrics.py:111-128 | A success stopped on the last page sent, which was good and met a stop condition. Its result is everything gathered up to that page, cut to max_results, with that page's size as total_count. |
| Metrics.RunAbort | src/tools/get_metrics.py:82-89 | If the last page sent had a status other than 200, the tool fails with that page's body. |
| Metrics.RunFailsOnLast | src/tools/get_metrics.py:55-121 | When every token request is granted, a failure comes from the last page sent, and that page was not good. |
| Metrics.RunShape | src/tools/get_metrics.py:51-128 | Every page but the last was good and did not stop the loop. A success stopped on the last page: content is the concatenation cut to max_results, total_count is the last page's size, and returned_count is the content's length. A non-200 page aborts with its body. With tokens granted, only the last page can cause a failure. |
| Metrics.CapExample | src/tools/get_metrics.py:111-115 | Limit 10 and max 25 with full pages sends three requests and returns 25 items, with total_count 10. |
| Metrics.GetMetricsTool.FetchPage | src/tools/get_metrics.py:56-121 | One pass of the loop body returns `OnePass` on the old cache and leaves the cache that pass ends with. |
| Metrics.GetMetricsTool.Paginate | src/tools/get_metrics.py:51-128 | The loop's outcome, requests and final cache are those of `Run` from the first page. |
| Metrics.GetMetricsTool.Execute | src/tools/get_metrics.py:40-128 | Invalid parameters send nothing and leave the cache alone. Otherwise the outcome, requests and final cache are those of `Run` from the first page. |
| Dimensions.Validate | src/tools/get_dimensions.py:11-14 | Accepted iff rsid is a string and limit and page are absent, null or integers. Given values are kept, null gives None, and absent limit and page become 50 and 0. A rejection is a validation error. |
| Dimensions.BuildQuery | src/tools/get_dimensions.py:64-72 | rsid always comes first. limit and page are present iff truthy (so page 0 is never sent), each with its given value, and limit comes before page. There are no other or repeated keys. |
| Dimensions.Normalize | src/tools/get_dimensions.py:83-91 | The output has only a `content` key. Anything other than an object that has a length (a list or a string) is used as is. An object gives its `content` unchanged, or an empty list when there is none. It fails (TypeError) exactly when that content has no length. |
| Dimensions.NormalizeIdempotent | src/tools/get_dimensions.py:83-91 | Normalising a normalised reply changes nothing. |
| Dimensions.GetDimensionsTool.Execute | src/tools/get_dimensions.py:43-91 | Invalid parameters send nothing and request no token. Otherwise the token step, and the exchange it sends, are those of `Acquire`. The GET has no Accept header and carries the query `BuildQuery` promises. A non-200 fails with the text, and a 200 is normalised. |
| ReportSuites.Validate | src/tools/get_report_suites.py:11-14 | Nothing is required: accepted iff limit and page are absent, null or integers and expansion is absent, null or a string. Given values are kept, null gives None, and absent limit, page and expansion become 50, 0 and None. A rejection is a validation error. |
| ReportSuites.BuildQuery | src/tools/get_report_suites.py:65-70 | The query is limit then page, always with their values (page 0 and null are sent), then expansion with its value iff it is a non-empty string. Keys are distinct, and there is never an rsid. |
| ReportSuites.GetReportSuitesTool.Execute | src/tools/get_report_suites.py:43-79 | Invalid parameters send nothing and request no token. Otherwise the token step, and the exchange it sends, are those of `Acquire`. The GET carries Accept and the query `BuildQuery` promises, with no rsid. A 200 body is returned unchanged, and otherwise the call fails with the text. |
| Server.StartupDefault | src/server.py:46-48 | The server starts iff `REPORT_SUITE_ID` is set and non-empty. |
| Server.ReportSuiteIdResolves | src/server.py:51-63 | A present, truthy rsid is returned as is, and otherwise the default. The result is always truthy once startup accepted the default. |
| Server.PreparedKeys | src/server.py:66-230 | Six handlers store the resolved id under "rsid". The report-suites and data-feeds handlers pass the dictionary unchanged. No other key changes except the metrics defaults. |
| Server.MetricsDefaultsByPresence | src/server.py:128-131 | Defaults go by key presence: a present limit or max_results is kept even if 0 or null, and an absent one becomes 10 or 20. |
| Server.MetricsHandlerDefaults | src/server.py:109-136 | Through the handler, omitted limit and max_results validate as 10 and 20, not the tool's 50 and 1000. An omitted rsid validates as the default suite. |
| Server.HandlerParams.ResolveRsid | src/server.py:84 | The in-place overwrite sets "rsid" to `get_report_suite_id` of the old dictionary. |
| Server.HandlerParams.AddMetricsDefaults | src/server.py:128-131 | The in-place defaults give `MetricsDefaults` of the old dictionary. |
| Server.HandlerParams.Prepare | src/server.py:66-230 | What each handler does to its dictionary before calling the tool equals `Prepared`. |

## Left out

- Network I/O is not modelled: aiohttp sessions, sending, JSON decoding, exceptions while reading a reply, and timeouts. A reply is a status, its text and its decoded JSON.
- The real clocks `datetime.now()` and `datetime.now(pytz.UTC)` are parameters. Local-versus-UTC semantics, and the moment each clock is read relative to the others, are not modelled.
- FastMCP construction, tool registration, `mcp.run`, logging and environment/dotenv loading are left out. Credentials are constructor arguments (`Auth.Env`).
- The segments and calculated-metrics tools are not part of this model. Only the handlers' rsid overwrite for them is.
- `get_data_feeds` is not part of this model. It only GETs a fixed URL, and its validated limit and page are never sent.
- The helper function `get_realtime_report` at the end of the realtime module builds the tool without its `auth` argument, so it cannot run. It is left out.
- The handlers build a fresh `AdobeAuth` on every call, so the cache matters only within one call, such as the metrics loop's pages. Concurrent use of one instance is not modelled.
- Pydantic coercion is not modelled: strings to ints, booleans to ints, and so on. A field of another JSON type fails, naming the field. When several fields are wrong, the model names only the first in declaration order, where pydantic reports all of them.
- `Json.Value` has no floating-point numbers: JSON numbers are integers. A float in a parameter or a reply is not modelled.
- `Metrics.GetMetricsTool.Execute`: it returns the data requests of every pass and the final cache, but not the token exchanges the passes send. Each pass's token step is `Auth.Acquire` on the cache left by the pass before.
- `Auth.Acquire`: `expires_in` is an integer number of seconds. A float, or an expiry beyond `datetime.max`, is not modelled, and `access_token` is taken to be a string.
- `Metrics.ToPaging`: an explicit null for limit, page or max_results fails before the first token request. The source fails later: encoding the query fails after the token request, and the `max_results` comparison fails after the first page.
- `ReportSuites.BuildQuery`: an explicit null for limit or page appears as a null query value. The source's HTTP client would reject that value when encoding the query.
- `Realtime.Stamp`: the year is always written with four digits. On some C libraries `strftime('%Y')` does not pad years below 1000.
- `DateRange.ParseYmd`: only ASCII digits are read. Python's `\d` in `strptime` also accepts other Unicode decimal digits.
- The metrics reply sequence is finite: a request beyond the given pages gets an empty list. The loop terminates anyway, because every page that does not stop it adds at least one item below the cap.
- The `isinstance(result, dict)` branch of the metrics loop is not modelled. `result` is always a list built by a comprehension, so that branch never runs.
