/**
 * The MCP server's handlers: each resolves the report-suite id into the `params`
 * dictionary (except the report-suites and data-feeds handlers), the metrics handler
 * adds its own defaults, and the dictionary then goes to the tool.
 */
module Server {
  import opened Wrappers
  import opened Errors
  import opened Json
  import opened Params
  import Metrics

  /** The startup check on `REPORT_SUITE_ID`: the server does not start without a non-empty one. */
  function StartupDefault(env: Option<string>): (r: Result<string, Error>)
    ensures r.Success? <==> env.Some? && env.value != ""
    ensures r.Success? ==> r.value == env.value && r.value != ""
    ensures r.Failure? ==> r.error == MissingReportSuite
  {
    if env.Some? && env.value != "" then Success(env.value) else Failure(MissingReportSuite)
  }

  /** `get_report_suite_id(params)`: a present, truthy rsid as given, otherwise the default. */
  function ReportSuiteId(params: Dict, default: string): Value
  {
    if "rsid" in params && Truthy(params["rsid"]) then params["rsid"] else Str(default)
  }

  /** The resolved id is the caller's exactly when the caller's is present and truthy, and it is
      always truthy once startup has accepted the default. */
  lemma ReportSuiteIdResolves(params: Dict, default: string)
    ensures "rsid" in params && Truthy(params["rsid"]) ==> ReportSuiteId(params, default) == params["rsid"]
    ensures !("rsid" in params && Truthy(params["rsid"])) ==> ReportSuiteId(params, default) == Str(default)
    ensures StartupDefault(Some(default)).Success? ==> Truthy(ReportSuiteId(params, default))
  {
  }

  datatype Handler =
    | GetReport | GetDimensions | GetMetrics | GetSegments | GetCalculatedMetrics
    | GetReportSuites | GetRealtimeReport | GetDataFeeds

  /** Every handler but the report-suites and data-feeds ones overwrites `params["rsid"]`. */
  predicate ResolvesRsid(h: Handler)
  {
    !(h.GetReportSuites? || h.GetDataFeeds?)
  }

  const MetricsLimit := 10
  const MetricsMaxResults := 20

  /** The dictionary a handler passes to its tool. */
  function Prepared(h: Handler, params: Dict, default: string): Dict
  {
    var withRsid := if ResolvesRsid(h) then params["rsid" := ReportSuiteId(params, default)] else params;
    if h.GetMetrics? then MetricsDefaults(withRsid) else withRsid
  }

  /** The metrics handler's defaults: limit and max_results are added only when the caller
      did not give those keys. */
  function MetricsDefaults(m: Dict): Dict
  {
    var withLimit := if "limit" !in m then m["limit" := Int(MetricsLimit)] else m;
    if "max_results" !in withLimit then withLimit["max_results" := Int(MetricsMaxResults)] else withLimit
  }

  /** The handlers that resolve the id leave it in "rsid" and change no other key except the
      metrics defaults; the other two pass the dictionary through unchanged. */
  lemma PreparedKeys(h: Handler, params: Dict, default: string)
    ensures !ResolvesRsid(h) ==> Prepared(h, params, default) == params
    ensures ResolvesRsid(h) ==>
      "rsid" in Prepared(h, params, default) && Prepared(h, params, default)["rsid"] == ReportSuiteId(params, default)
    ensures forall k :: k in params && k != "rsid" && k != "limit" && k != "max_results" ==>
      k in Prepared(h, params, default) && Prepared(h, params, default)[k] == params[k]
    ensures forall k :: k in Prepared(h, params, default) ==>
      k in params || k == "rsid" || k == "limit" || k == "max_results"
  {
  }

  /** The metrics defaults test key presence, not truthiness: a present limit or max_results is
      kept even when it is 0 or null, an absent one becomes 10 or 20. */
  lemma MetricsDefaultsByPresence(params: Dict, default: string)
    ensures var m := Prepared(GetMetrics, params, default);
      && "limit" in m && "max_results" in m
      && m["limit"] == (if "limit" in params then params["limit"] else Int(MetricsLimit))
      && m["max_results"] == (if "max_results" in params then params["max_results"] else Int(MetricsMaxResults))
  {
  }

  /** Through the metrics handler, a call that names neither limit nor max_results pages by 10
      up to 20 items, not by the tool's own 50 up to 1000; and one that names no rsid runs on
      the default suite. */
  lemma MetricsHandlerDefaults(params: Dict, default: string)
    requires "limit" !in params && "max_results" !in params
    ensures var v := Metrics.Validate(Prepared(GetMetrics, params, default));
      v.Success? ==> v.value.limit == Some(10) && v.value.maxResults == Some(20)
    ensures "rsid" !in params ==>
      var v := Metrics.Validate(Prepared(GetMetrics, params, default));
      v.Success? ==> v.value.rsid == default
  {
    MetricsDefaultsByPresence(params, default);
    var m := Prepared(GetMetrics, params, default);
    if "rsid" !in params {
      assert m["rsid"] == Str(default);
    }
  }

  /** The `params` dictionary a handler receives and mutates in place. */
  class HandlerParams {
    var entries: Dict

    constructor (entries: Dict)
      ensures this.entries == entries
    {
      this.entries := entries;
    }

    /** `params["rsid"] = get_report_suite_id(params)` */
    method ResolveRsid(default: string)
      modifies this
      ensures entries == old(entries)["rsid" := ReportSuiteId(old(entries), default)]
    {
      entries := entries["rsid" := ReportSuiteId(entries, default)];
    }

    /** The metrics handler's two conditional defaults. */
    method AddMetricsDefaults()
      modifies this
      ensures entries == MetricsDefaults(old(entries))
    {
      if "limit" !in entries {
        entries := entries["limit" := Int(MetricsLimit)];
      }
      if "max_results" !in entries {
        entries := entries["max_results" := Int(MetricsMaxResults)];
      }
    }

    /** What handler h does to its dictionary before calling the tool. */
    method Prepare(h: Handler, default: string)
      modifies this
      ensures entries == Prepared(h, old(entries), default)
    {
      if ResolvesRsid(h) {
        ResolveRsid(default);
      }
      if h.GetMetrics? {
        AddMetricsDefaults();
      }
    }
  }
}
