/** The part of the zod validation library the validators use: a JSON request
    body, the issues a failed parse reports (path and message, zod's default
    texts) and one issue generator per schema primitive. Each generator comes
    with the declarative predicate it decides: it reports no issue exactly when
    the predicate holds. */
module Zod {
  import opened Common

  /** A parsed JSON request body (`req.body` after `express.json()`). */
  datatype Json =
    | JNull
    | JBool(b: bool)
    | JNumber(n: int)
    | JString(s: string)
    | JArray(items: seq<Json>)
    | JObject(fields: map<string, Json>)

  /** One element of `ZodError.issues`: where the value failed and why. */
  datatype Issue = Issue(path: seq<string>, message: string)

  /** The result of `schema.spa(body)`: the parsed data or the issues. */
  datatype Parsed<+T> = Success(data: T) | Failure(issues: seq<Issue>)

  /** A JSON object with string keys and unknown values (`z.record(z.string(), z.unknown())`). */
  type Record = map<string, Json>

  /** The type name zod reports as "received". */
  function TypeName(v: Json): string {
    match v
    case JNull => "null"
    case JBool(_) => "boolean"
    case JNumber(_) => "number"
    case JString(_) => "string"
    case JArray(_) => "array"
    case JObject(_) => "object"
  }

  /** The value under `key`, or None when the key is missing (`undefined`). */
  function Field(fields: map<string, Json>, key: string): Option<Json> {
    if key in fields then Some(fields[key]) else None
  }

  function TypeIssue(path: seq<string>, expected: string, v: Json): Issue {
    Issue(path, "Expected " + expected + ", received " + TypeName(v))
  }

  function RequiredIssue(path: seq<string>): Issue {
    Issue(path, "Required")
  }

  /** `z.string()` with an optional `.min(lo)` (lo = 0: none) and `.max(hi)`. */
  predicate IsStringWithin(v: Option<Json>, lo: nat, hi: Option<nat>) {
    v.Some? && v.value.JString? && lo <= |v.value.s| && (hi.Some? ==> |v.value.s| <= hi.value)
  }

  function StringIssues(path: seq<string>, v: Option<Json>, lo: nat, hi: Option<nat>): (r: seq<Issue>)
    ensures r == [] <==> IsStringWithin(v, lo, hi)
    ensures forall i | 0 <= i < |r| :: r[i].path == path
  {
    match v
    case None => [RequiredIssue(path)]
    case Some(JString(s)) =>
      (if |s| < lo then [Issue(path, "String must contain at least " + NatToString(lo) + " character(s)")] else [])
      + (if hi.Some? && |s| > hi.value
         then [Issue(path, "String must contain at most " + NatToString(hi.value) + " character(s)")]
         else [])
    case Some(j) => [TypeIssue(path, "string", j)]
  }

  /** `.optional()`: a missing key passes, a present value is checked as before. */
  function Optional(v: Option<Json>, issues: seq<Issue>): (r: seq<Issue>)
    ensures v.None? ==> r == []
    ensures v.Some? ==> r == issues
  {
    if v.None? then [] else issues
  }

  /** `z.array(z.record(z.string(), z.unknown()))`. */
  predicate IsRecordArray(v: Option<Json>) {
    v.Some? && v.value.JArray? && forall i | 0 <= i < |v.value.items| :: v.value.items[i].JObject?
  }

  function ElementIssues(path: seq<string>, items: seq<Json>, from: nat): (r: seq<Issue>)
    requires from <= |items|
    ensures r == [] <==> forall i | from <= i < |items| :: items[i].JObject?
    decreases |items| - from
  {
    if from == |items| then []
    else
      (if items[from].JObject? then [] else [TypeIssue(path + [NatToString(from)], "object", items[from])])
      + ElementIssues(path, items, from + 1)
  }

  function RecordArrayIssues(path: seq<string>, v: Option<Json>): (r: seq<Issue>)
    ensures r == [] <==> IsRecordArray(v)
  {
    match v
    case None => [RequiredIssue(path)]
    case Some(JArray(items)) => ElementIssues(path, items, 0)
    case Some(j) => [TypeIssue(path, "array", j)]
  }

  /** The records of an array accepted by IsRecordArray. */
  function Records(v: Option<Json>): (r: seq<Record>)
    requires IsRecordArray(v)
    ensures |r| == |v.value.items|
    ensures forall i | 0 <= i < |r| :: v.value.items[i] == JObject(r[i])
  {
    seq(|v.value.items|, i requires 0 <= i < |v.value.items| => v.value.items[i].fields)
  }

  /** `z.enum(options)`. */
  predicate IsEnumMember(v: Option<Json>, options: seq<string>) {
    v.Some? && v.value.JString? && v.value.s in options
  }

  function QuotedList(options: seq<string>): string {
    if |options| == 0 then ""
    else if |options| == 1 then "'" + options[0] + "'"
    else "'" + options[0] + "' | " + QuotedList(options[1..])
  }

  function EnumIssues(path: seq<string>, v: Option<Json>, options: seq<string>): (r: seq<Issue>)
    ensures r == [] <==> IsEnumMember(v, options)
  {
    match v
    case None => [RequiredIssue(path)]
    case Some(JString(s)) =>
      if s in options then []
      else [Issue(path, "Invalid enum value. Expected " + QuotedList(options) + ", received '" + s + "'")]
    case Some(j) => [TypeIssue(path, QuotedList(options), j)]
  }

  /** `z.string().email()` / `z.string().url()`: the format test itself is the
      library's regular expression, passed in as `accepts`. */
  predicate IsFormatted(v: Option<Json>, accepts: string -> bool) {
    v.Some? && v.value.JString? && accepts(v.value.s)
  }

  function FormatIssues(path: seq<string>, v: Option<Json>, accepts: string -> bool, format: string): (r: seq<Issue>)
    ensures r == [] <==> IsFormatted(v, accepts)
  {
    match v
    case None => [RequiredIssue(path)]
    case Some(JString(s)) => if accepts(s) then [] else [Issue(path, "Invalid " + format)]
    case Some(j) => [TypeIssue(path, "string", j)]
  }

  /** The single issue `z.object` reports for a body that is not an object. */
  function NotAnObject(body: Json): (r: seq<Issue>)
    requires !body.JObject?
    ensures |r| == 1 && r[0].path == []
  {
    [TypeIssue([], "object", body)]
  }
}
