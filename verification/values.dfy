/**
 * Decoded JSON values as Python sees them after `json.loads`, with Python's
 * truthiness and `dict.get`, and the outcome of evaluating Python code that
 * may raise.
 */
module Values {
  import opened Wrappers

  /** A decoded JSON document. Objects are keyed by string; numbers are reals. */
  datatype Json =
    | JNull
    | JBool(b: bool)
    | JNum(n: real)
    | JStr(s: string)
    | JArr(items: seq<Json>)
    | JObj(fields: map<string, Json>)

  /** Python truthiness: `None`, `False`, `0`, `""`, `[]` and `{}` are falsy. */
  predicate Truthy(v: Json) {
    match v
    case JNull => false
    case JBool(b) => b
    case JNum(n) => n != 0.0
    case JStr(s) => s != ""
    case JArr(items) => items != []
    case JObj(fields) => fields != map[]
  }

  /** Truthiness of an optional value: `None` (absent or unparsable) is falsy. */
  predicate OptTruthy(v: Option<Json>) {
    v.Some? && Truthy(v.value)
  }

  /** Reading a key with no default: a missing key and an explicit JSON null both read as null. */
  function Get(fields: map<string, Json>, key: string): Json {
    if key in fields then fields[key] else JNull
  }

  /** Reading a key with a default: the default only replaces a missing key, not a null. */
  function GetOrDefault(fields: map<string, Json>, key: string, default: Json): Json {
    if key in fields then fields[key] else default
  }

  /** The outcome of evaluating Python code: a value, or an exception that escapes. */
  datatype Outcome<+T> = Returns(value: T) | Raises

  /**
   * Python's `float` on strings and its rendering of floats, supplied from
   * outside: `parse(s)` is `float(s)` (None when it raises), `show(x)` is `str(x)`.
   */
  datatype Floats = Floats(parse: string -> Option<real>, show: real -> string)
}
