/**
 * The `params` dictionary a tool receives and the validated parameter records
 * (pydantic models) built from it. A field absent from the dictionary takes its
 * declared default, an explicit JSON null gives None for an Optional field, and a
 * value of another JSON type is rejected naming the field.
 */
module Params {
  import opened Wrappers
  import opened Errors
  import opened Json

  type Dict = map<string, Value>

  /** The strings of a JSON array, when every element is a string. */
  function Strings(xs: seq<Value>): (r: Option<seq<string>>)
    ensures r.Some? <==> forall i :: 0 <= i < |xs| ==> xs[i].Str?
    ensures r.Some? ==> |r.value| == |xs| && forall i :: 0 <= i < |xs| ==> xs[i] == Str(r.value[i])
  {
    if xs == [] then Some([])
    else match (xs[0], Strings(xs[1..]))
      case (Str(s), Some(rest)) => Some([s] + rest)
      case _ => None
  }

  /** A required `str` field is given a string. */
  predicate StrGiven(m: Dict, key: string) { key in m && m[key].Str? }

  /** A required `List[str]` field is given an array of strings. */
  predicate StrsGiven(m: Dict, key: string) { key in m && m[key].Array? && Strings(m[key].items).Some? }

  /** An `Optional[str]` field is absent, null or a string. */
  predicate OptStrOk(m: Dict, key: string) { key !in m || m[key].Null? || m[key].Str? }

  /** An `Optional[List[str]]` field is absent, null or an array of strings. */
  predicate OptStrsOk(m: Dict, key: string)
  {
    key !in m || m[key].Null? || (m[key].Array? && Strings(m[key].items).Some?)
  }

  /** An `Optional[int]` field is absent, null or an integer. */
  predicate OptIntOk(m: Dict, key: string) { key !in m || m[key].Null? || m[key].Int? }

  /** `v` is what an `Optional[str]` field holds: its default when absent, None when null,
      and the given string otherwise. */
  predicate TakesStr(m: Dict, key: string, default: Option<string>, v: Option<string>)
  {
    if key !in m then v == default
    else if m[key].Null? then v == None
    else m[key].Str? && v == Some(m[key].s)
  }

  /** `v` is what an `Optional[int]` field holds. */
  predicate TakesInt(m: Dict, key: string, default: Option<int>, v: Option<int>)
  {
    if key !in m then v == default
    else if m[key].Null? then v == None
    else m[key].Int? && v == Some(m[key].i)
  }

  /** `v` is what an `Optional[List[str]]` field whose default is None holds. */
  predicate TakesStrs(m: Dict, key: string, v: Option<seq<string>>)
  {
    if key !in m || m[key].Null? then v == None
    else m[key].Array? && v == Strings(m[key].items)
  }

  /** A required `str` field. */
  function RequiredString(m: Dict, key: string): (r: Result<string, Error>)
    ensures r.Success? <==> key in m && m[key].Str?
    ensures r.Success? ==> r.value == m[key].s
    ensures r.Failure? ==> r.error == Validation(key)
  {
    if key in m && m[key].Str? then Success(m[key].s) else Failure(Validation(key))
  }

  /** A required `List[str]` field. */
  function RequiredStrings(m: Dict, key: string): (r: Result<seq<string>, Error>)
    ensures r.Success? <==> key in m && m[key].Array? && Strings(m[key].items).Some?
    ensures r.Success? ==> Strings(m[key].items) == Some(r.value)
    ensures r.Failure? ==> r.error == Validation(key)
  {
    if key in m && m[key].Array? && Strings(m[key].items).Some? then Success(Strings(m[key].items).value)
    else Failure(Validation(key))
  }

  /** An `Optional[str]` field with a default. */
  function OptionalString(m: Dict, key: string, default: Option<string>): (r: Result<Option<string>, Error>)
    ensures key !in m ==> r == Success(default)
    ensures key in m && m[key] == Null ==> r == Success(None)
    ensures key in m && m[key].Str? ==> r == Success(Some(m[key].s))
    ensures r.Failure? <==> key in m && !(m[key].Null? || m[key].Str?)
    ensures r.Success? ==> TakesStr(m, key, default, r.value)
    ensures r.Failure? ==> r.error == Validation(key)
  {
    if key !in m then Success(default)
    else match m[key]
      case Null => Success(None)
      case Str(s) => Success(Some(s))
      case _ => Failure(Validation(key))
  }

  /** An `Optional[List[str]]` field whose default is None. */
  function OptionalStrings(m: Dict, key: string): (r: Result<Option<seq<string>>, Error>)
    ensures key !in m || m[key] == Null ==> r == Success(None)
    ensures r.Success? && r.value.Some? ==> key in m && m[key].Array? && Strings(m[key].items) == r.value
    ensures r.Failure? <==> key in m && !(m[key].Null? || (m[key].Array? && Strings(m[key].items).Some?))
    ensures r.Success? ==> TakesStrs(m, key, r.value)
    ensures r.Failure? ==> r.error == Validation(key)
  {
    if key !in m then Success(None)
    else match m[key]
      case Null => Success(None)
      case Array(xs) => if Strings(xs).Some? then Success(Strings(xs)) else Failure(Validation(key))
      case _ => Failure(Validation(key))
  }

  /** An `Optional[int]` field with a default. */
  function OptionalInt(m: Dict, key: string, default: Option<int>): (r: Result<Option<int>, Error>)
    ensures key !in m ==> r == Success(default)
    ensures key in m && m[key] == Null ==> r == Success(None)
    ensures key in m && m[key].Int? ==> r == Success(Some(m[key].i))
    ensures r.Failure? <==> key in m && !(m[key].Null? || m[key].Int?)
    ensures r.Success? ==> TakesInt(m, key, default, r.value)
    ensures r.Failure? ==> r.error == Validation(key)
  {
    if key !in m then Success(default)
    else match m[key]
      case Null => Success(None)
      case Int(i) => Success(Some(i))
      case _ => Failure(Validation(key))
  }

  /** Python truthiness of an optional integer (`if validated.limit:`). */
  predicate TruthyInt(v: Option<int>) { v.Some? && v.value != 0 }

  /** Python truthiness of an optional string. */
  predicate TruthyString(v: Option<string>) { v.Some? && v.value != "" }
}
