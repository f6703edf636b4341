/**
 * The untyped JavaScript values the parsers and normalisers inspect: the `unknown` a
 * response body or an API record arrives as, and the `typeof` tests applied to it.
 */
module Json {
  import opened Wrappers
  import opened Strings

  /** A decoded JSON value; numbers are integers. */
  datatype Json =
    | JNull
    | JBool(b: bool)
    | JNum(n: int)
    | JStr(s: string)
    | JArr(items: seq<Json>)
    | JObj(fields: map<string, Json>)

  /** `typeof v === 'object' && v !== null`: objects and arrays. */
  predicate IsRecord(v: Json) {
    v.JObj? || v.JArr?
  }

  /** A property read; `None` is `undefined`. */
  function Get(v: Json, key: string): Option<Json> {
    if v.JObj? && key in v.fields then Some(v.fields[key]) else None
  }

  /** A property read on an optional value (`v?.key`). */
  function GetOpt(v: Option<Json>, key: string): Option<Json> {
    if v.Some? then Get(v.value, key) else None
  }

  /** The value when it is a string (`typeof v === 'string'`). */
  function AsString(v: Option<Json>): Option<string> {
    if v.Some? && v.value.JStr? then Some(v.value.s) else None
  }

  /** The value when it is a number. */
  function AsNumber(v: Option<Json>): Option<int> {
    if v.Some? && v.value.JNum? then Some(v.value.n) else None
  }

  /** The value when it is an array (`Array.isArray`). */
  function AsArray(v: Option<Json>): Option<seq<Json>> {
    if v.Some? && v.value.JArr? then Some(v.value.items) else None
  }

  /** The value when it is a record. */
  function AsRecord(v: Option<Json>): Option<Json> {
    if v.Some? && IsRecord(v.value) then v else None
  }

  /** The value when it is a non-empty string: a string that is also truthy. */
  function NonEmptyString(v: Option<Json>): (r: Option<string>)
    ensures r.Some? <==> AsString(v).Some? && AsString(v).value != ""
    ensures r.Some? ==> r == AsString(v)
  {
    if v.Some? && v.value.JStr? && v.value.s != "" then Some(v.value.s) else None
  }

  /** `readString`: a string property, trimmed, when something is left after trimming. */
  function ReadString(record: Json, key: string): (r: Option<string>)
    ensures r.Some? <==> AsString(Get(record, key)).Some? && Trim(AsString(Get(record, key)).value) != ""
    ensures r.Some? ==> r.value == Trim(AsString(Get(record, key)).value) && Trim(r.value) == r.value
    ensures r.Some? ==> IsTrimmedText(r.value)
  {
    var s := AsString(Get(record, key));
    if s.Some? && Trim(s.value) != "" then
      TrimIdempotent(s.value);
      Some(Trim(s.value))
    else None
  }
}
