/**
 * The dynamically typed values the agent handles (Python dicts, lists, strings,
 * numbers, booleans and None, as produced by `json.loads` or built by hand), with
 * the Python idioms the agent applies to them: truthiness, `d.get(k)`,
 * `a or b`, `isinstance(x, str)` and `str(x)`.
 */
module Json {
  import opened Wrappers
  import opened Strings

  /** A JSON-like value. Numbers are integers: the agent never computes with fractions. */
  datatype Json =
    | JNull
    | JBool(b: bool)
    | JNum(n: int)
    | JStr(s: string)
    | JArr(items: seq<Json>)
    | JObj(fields: map<string, Json>)

  /** Python truthiness: None, False, 0, "", [] and {} are false. */
  predicate Truthy(j: Json) {
    match j
    case JNull => false
    case JBool(b) => b
    case JNum(n) => n != 0
    case JStr(s) => s != ""
    case JArr(a) => a != []
    case JObj(m) => m != map[]
  }

  /** `d.get(k)`: the value stored under `k`, or None. */
  function Get(m: map<string, Json>, k: string): (r: Json)
    ensures k !in m ==> r == JNull
    ensures k in m ==> r == m[k]
  {
    if k in m then m[k] else JNull
  }

  /** Python's `a or b`: `a` when it is truthy, otherwise `b` (even when `b` is falsy). */
  function Or(a: Json, b: Json): (r: Json)
    ensures Truthy(r) <==> Truthy(a) || Truthy(b)
    ensures r == a || r == b
    ensures !Truthy(a) ==> r == b
  {
    if Truthy(a) then a else b
  }

  /** `x or {}` followed by `.get(...)`: the dict to read, or None when `x` is a
      truthy value that is not a dict (on which Python's `.get` raises). */
  function OrEmptyObject(j: Json): (r: Option<map<string, Json>>)
    ensures r.None? <==> Truthy(j) && !j.JObj?
    ensures j.JObj? ==> r == Some(j.fields)
    ensures !Truthy(j) ==> r == Some(map[])
  {
    if j.JObj? then Some(j.fields) else if !Truthy(j) then Some(map[]) else None
  }

  /** `d.get(k)` on a dict obtained by `x or {}`; None when there is no dict to read. */
  function GetIn(m: Option<map<string, Json>>, k: string): Json {
    match m
    case Some(d) => Get(d, k)
    case None => JNull
  }

  /** The string `x` holds, when `isinstance(x, str)`. */
  function AsString(j: Json): (r: Option<string>)
    ensures r.Some? <==> j.JStr?
  {
    if j.JStr? then Some(j.s) else None
  }

  /** `x.strip()` when `isinstance(x, str) and x.strip()`, else None. */
  function StrippedText(j: Json): (r: Option<string>)
    ensures r.Some? <==> j.JStr? && !IsBlank(j.s)
    ensures r.Some? ==> r.value == Strip(j.s) && r.value != []
  {
    if j.JStr? && Strip(j.s) != [] then Some(Strip(j.s)) else None
  }

  /** `isinstance(x, (int, float))`: bool is a subclass of int in Python. */
  predicate IsNumber(j: Json) {
    j.JNum? || j.JBool?
  }

  /** `int(x)` of a number. */
  function IntOf(j: Json): int
    requires IsNumber(j)
  {
    if j.JNum? then j.n else if j.b then 1 else 0
  }

  /**
   * Python's `str(x)` (and f-string formatting). Lists and dicts are rendered by
   * Python's `repr`, of which the model keeps only the enclosing brackets.
   */
  function PyStr(j: Json): (r: string)
    ensures j.JStr? ==> r == j.s
    ensures !j.JStr? ==> r != []
  {
    match j
    case JNull => "None"
    case JBool(b) => if b then "True" else "False"
    case JNum(n) => IntToString(n)
    case JStr(s) => s
    case JArr(_) => "[…]"
    case JObj(_) => "{…}"
  }

  /** A stripped text has no white space at either end. */
  lemma StrippedEdges(j: Json)
    requires StrippedText(j).Some?
    ensures !IsSpace(StrippedText(j).value[0]) && !IsSpace(StrippedText(j).value[|StrippedText(j).value| - 1])
  {
    var _ := StripSpec(j.s);
  }
}
