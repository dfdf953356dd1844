/**
 * The exceptions the tools raise, as values. Each variant names the Python
 * exception it stands for; every one of them aborts the current tool call.
 */
module Errors {

  datatype Error =
    /** pydantic rejected (or did not find) the named parameter */
    | Validation(field: string)
    /** the report-suite id is empty after the fallback */
    | MissingReportSuite
    /** a date half of an explicit range did not parse */
    | MalformedDate(expr: string)
    /** `start, end = s.split("/")` with more than two parts */
    | TooManyParts(expr: string)
    /** a non-date expression that is not a known keyword */
    | UnsupportedRange(expr: string)
    /** OverflowError: date arithmetic went below 0001-01-01 */
    | DateOutOfRange
    /** KeyError on REALTIME_METRICS */
    | UnsupportedMetric(key: string)
    /** KeyError on a reply or an item */
    | MissingField(key: string)
    /** TypeError: a reply value is subscripted, iterated or measured although its type does not allow it */
    | TypeMismatch
    /** at least one of the six credentials is unset or empty */
    | MissingCredentials
    /** the token endpoint answered with a status other than 200 */
    | TokenRequestFailed(body: string)
    /** a data endpoint answered with a status other than 200 */
    | RequestFailed(body: string)
}
