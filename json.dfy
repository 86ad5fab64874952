/**
 * Parsed JSON values as the scrapers see them after `json.loads`, with the
 * few Python operations they apply to them: `dict.get`, truthiness,
 * hashability and `str()`.
 */
module JsonValues {

  import opened Common
  import opened Text

  /** A JSON value; objects keep their members in document order. */
  datatype Json =
    | JNull
    | JBool(b: bool)
    | JInt(n: int)
    | JStr(s: string)
    | JArr(items: seq<Json>)
    | JObj(members: seq<Member>)

  datatype Member = Member(key: string, value: Json)

  /**
   * `d.get(key)`: `json.loads` keeps the last of repeated keys, so this is
   * the value of the last member named `key`.
   */
  function Get(ms: seq<Member>, key: string): (r: Option<Json>)
    ensures r.None? <==> forall k :: 0 <= k < |ms| ==> ms[k].key != key
    ensures r.Some? ==>
      exists k :: 0 <= k < |ms| && ms[k].key == key && ms[k].value == r.value &&
        forall m :: k < m < |ms| ==> ms[m].key != key
    decreases |ms|
  {
    if ms == [] then None
    else if ms[|ms| - 1].key == key then Some(ms[|ms| - 1].value)
    else Get(ms[..|ms| - 1], key)
  }

  /** `d.get(key, default)`. */
  function GetOr(ms: seq<Member>, key: string, default: Json): Json {
    Get(ms, key).GetOr(default)
  }

  /** `key in d`. */
  predicate HasKey(ms: seq<Member>, key: string) {
    Get(ms, key).Some?
  }

  /** Python truthiness: None, False, 0, '' and empty containers are false. */
  predicate Truthy(j: Json) {
    match j
    case JNull => false
    case JBool(b) => b
    case JInt(n) => n != 0
    case JStr(s) => s != []
    case JArr(items) => items != []
    case JObj(ms) => ms != []
  }

  /** Lists and dicts cannot be dictionary keys. */
  predicate Hashable(j: Json) {
    !j.JArr? && !j.JObj?
  }

  /** The object is a schema.org `JobPosting`: its `@type` is that string. */
  predicate IsJobPosting(ms: seq<Member>) {
    Get(ms, "@type") == Some(JStr("JobPosting"))
  }

  /** `str(x)`. */
  function PyStr(j: Json): string {
    match j
    case JStr(s) => s
    case _ => PyRepr(j)
  }

  /**
   * `repr(x)`; strings are quoted with single quotes and their characters
   * are not escaped.
   */
  function PyRepr(j: Json): string
    decreases j
  {
    match j
    case JNull => "None"
    case JBool(b) => if b then "True" else "False"
    case JInt(n) => Decimal(n)
    case JStr(s) => "'" + s + "'"
    case JArr(items) =>
      "[" + Join(", ", seq(|items|, i requires 0 <= i < |items| => PyRepr(items[i]))) + "]"
    case JObj(ms) =>
      "{" + Join(", ", seq(|ms|, i requires 0 <= i < |ms| =>
                             "'" + ms[i].key + "': " + PyRepr(ms[i].value))) + "}"
  }

  /**
   * `obj.get(key, '').strip()`: None when the member exists and is not a
   * string (the attribute error the scrapers raise there).
   */
  function GetStripped(ms: seq<Member>, key: string): (r: Option<string>)
    ensures r.Some? ==> Stripped(r.value)
    ensures r.None? <==> Get(ms, key).Some? && !Get(ms, key).value.JStr?
  {
    match GetOr(ms, key, JStr(""))
    case JStr(s) => Some(Strip(s))
    case _ => None
  }
}
