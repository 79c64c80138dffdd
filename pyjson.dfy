/**
 * Decoded JSON values as Python sees them after `response.json()`, and the few
 * Python operations the client and the collector apply to them (`in`,
 * subscripting, `len`, `dict.get`, truthiness, `==` against an int). Each
 * operation that Python may answer with an exception returns an `Outcome`.
 */
module PyJson {

  import Text

  datatype Json =
    | JNull
    | JBool(b: bool)
    | JNum(n: real)
    | JStr(s: string)
    | JArr(items: seq<Json>)
    | JObj(fields: map<string, Json>)

  /** The result of evaluating Python code: a value, or an exception with its `str()` text. */
  datatype Outcome<+T> = Returned(value: T) | Raised(message: string) {

    predicate IsFailure() {
      Raised?
    }

    function PropagateFailure<U>(): Outcome<U>
      requires Raised?
    {
      Raised(message)
    }

    function Extract(): T
      requires Returned?
    {
      value
    }
  }

  /** Python truthiness: None, False, 0, "", [] and {} are false. */
  predicate Truthy(j: Json) {
    match j
    case JNull => false
    case JBool(b) => b
    case JNum(n) => n != 0.0
    case JStr(s) => s != ""
    case JArr(xs) => xs != []
    case JObj(m) => m != map[]
  }

  /** The Python type a decoded JSON value has; an integral number is taken to be an `int`. */
  function TypeName(j: Json): string {
    match j
    case JNull => "NoneType"
    case JBool(_) => "bool"
    case JNum(n) => if n.Floor as real == n then "int" else "float"
    case JStr(_) => "str"
    case JArr(_) => "list"
    case JObj(_) => "dict"
  }

  /** The text of the AttributeError raised by `j.attr` on a value that lacks it. */
  function NoAttribute(j: Json, attr: string): string {
    "'" + TypeName(j) + "' object has no attribute '" + attr + "'"
  }

  /** Python `==` between a decoded value and an int literal (`True == 1`, `1.0 == 1`). */
  predicate EqualsInt(j: Json, k: int) {
    match j
    case JNum(n) => n == k as real
    case JBool(b) => (if b then 1 else 0) == k
    case _ => false
  }

  /** `key in s` for two strings. */
  predicate IsSubstring(key: string, s: string) {
    key <= s || (s != [] && IsSubstring(key, s[1..]))
  }

  /** Python `key in j` for a string `key`. */
  function Contains(j: Json, key: string): Outcome<bool> {
    match j
    case JObj(m) => Returned(key in m)
    case JArr(xs) => Returned(JStr(key) in xs)
    case JStr(s) => Returned(IsSubstring(key, s))
    case _ => Raised("argument of type '" + TypeName(j) + "' is not iterable")
  }

  /** Python `j[key]` for a string `key`. */
  function Item(j: Json, key: string): Outcome<Json> {
    match j
    case JObj(m) => if key in m then Returned(m[key]) else Raised("'" + key + "'")
    case JArr(_) => Raised("list indices must be integers or slices, not str")
    case JStr(_) => Raised("string indices must be integers, not 'str'")
    case _ => Raised("'" + TypeName(j) + "' object is not subscriptable")
  }

  /** Python `j[i]` for a non-negative int `i`. */
  function At(j: Json, i: nat): Outcome<Json> {
    match j
    case JArr(xs) => if i < |xs| then Returned(xs[i]) else Raised("list index out of range")
    case JStr(s) => if i < |s| then Returned(JStr([s[i]])) else Raised("string index out of range")
    case JObj(_) => Raised(Text.Decimal(i))
    case _ => Raised("'" + TypeName(j) + "' object is not subscriptable")
  }

  /** Python `len(j)`. */
  function Len(j: Json): Outcome<nat> {
    match j
    case JStr(s) => Returned(|s|)
    case JArr(xs) => Returned(|xs|)
    case JObj(m) => Returned(|m|)
    case _ => Raised("object of type '" + TypeName(j) + "' has no len()")
  }

  /** Python `j.get(key, default)`: only a dict has `get`. */
  function Get(j: Json, key: string, default: Json): Outcome<Json> {
    match j
    case JObj(m) => Returned(Lookup(m, key, default))
    case _ => Raised(NoAttribute(j, "get"))
  }

  /** `dict.get(key, default)` on a dict already known to be one. */
  function Lookup(m: map<string, Json>, key: string, default: Json): Json {
    if key in m then m[key] else default
  }
}
