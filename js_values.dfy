/** JavaScript values as they reach the application from JSON bodies, the
    language-model client and the browser: null, booleans, integers,
    strings, arrays and plain objects. A property that is absent
    (`undefined`) is a key missing from the object's map. */
module JsValues {
  import opened Wrappers
  import opened JsStrings

  datatype Json =
    | JNull
    | JBool(b: bool)
    | JNum(n: int)
    | JStr(s: string)
    | JArr(items: seq<Json>)
    | JObj(fields: map<string, Json>)

  /** JavaScript truthiness: `null`, `false`, `0` and `""` are falsy. */
  predicate Truthy(v: Json)
  {
    match v
    case JNull => false
    case JBool(b) => b
    case JNum(n) => n != 0
    case JStr(s) => s != ""
    case _ => true
  }

  /** Truthiness of a property that may be `undefined`. */
  predicate TruthyOpt(v: Option<Json>)
  {
    v.Some? && Truthy(v.value)
  }

  /** `v || d` on a property that may be `undefined`. */
  function OrDefault(v: Option<Json>, d: Json): (r: Json)
    ensures TruthyOpt(v) ==> r == v.value
    ensures !TruthyOpt(v) ==> r == d
    ensures Truthy(r) <==> TruthyOpt(v) || Truthy(d)
  {
    if TruthyOpt(v) then v.value else d
  }

  /** `obj[key]`, with `None` for `undefined`. */
  function Get(fields: map<string, Json>, key: string): Option<Json>
  {
    if key in fields then Some(fields[key]) else None
  }

  /** `v.key` on a value that is not `null`: only plain objects have the
      properties this application reads. */
  function Prop(v: Json, key: string): Option<Json>
  {
    if v.JObj? then Get(v.fields, key) else None
  }

  /** `String(v)`: the text a value turns into inside a template literal or a
      string replacement. Array elements that are `null` become "". */
  function ToJsString(v: Json): string
    decreases v
  {
    match v
    case JNull => "null"
    case JBool(b) => if b then "true" else "false"
    case JNum(n) => IntToString(n)
    case JStr(s) => s
    case JArr(items) =>
      Join(seq(|items|, i requires 0 <= i < |items| =>
                 if items[i].JNull? then "" else ToJsString(items[i])), ",")
    case JObj(_) => "[object Object]"
  }
}
