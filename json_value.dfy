/**
 * Decoded JSON values as the client sees them, with JavaScript's notion of
 * truthiness, property access and the `a || b || …` fallback chains used to
 * normalise response shapes.
 */
module JsonValue {
  import opened Text

  /**
   * A decoded JSON value. `JNull` also stands for `undefined` (a property
   * that is not there). Numbers are integers in this model.
   */
  datatype Json =
    | JNull
    | JBool(b: bool)
    | JNum(n: int)
    | JStr(s: string)
    | JArr(items: seq<Json>)
    | JObj(fields: map<string, Json>)

  /** JavaScript truthiness: `null`, `false`, `0` and `''` are falsy. */
  predicate Truthy(v: Json) {
    match v
    case JNull => false
    case JBool(b) => b
    case JNum(n) => n != 0
    case JStr(s) => s != ""
    case JArr(_) => true
    case JObj(_) => true
  }

  /** `v[key]` on a value that is not `null`: a missing property reads as `undefined`. */
  function Get(v: Json, key: string): Json {
    if v.JObj? && key in v.fields then v.fields[key] else JNull
  }

  /** `a || b`: `a` when it is truthy, else `b`. */
  function Or(a: Json, b: Json): Json {
    if Truthy(a) then a else b
  }

  /** `String(v)`, as `new Error(v)` applies it to a message. */
  function ToJsString(v: Json): string {
    match v
    case JNull => "null"
    case JBool(b) => if b then "true" else "false"
    case JNum(n) => IntToString(n)
    case JStr(s) => s
    case JArr(items) =>
      Join(seq(|items|, i requires 0 <= i < |items| => if items[i].JNull? then "" else ToJsString(items[i])), ",")
    case JObj(_) => "[object Object]"
  }
}
