/**
 * The JavaScript values both sides exchange: JSON-shaped data, the
 * truthiness tests `||`, `??` and `if (!x)` perform, property reads,
 * `String(v)` / template interpolation, and Error objects.
 */
module Js {
  import opened Wrappers
  import opened Text

  /** A JSON value, plus `undefined`, which is what reading an absent
    * property gives (JSON.parse never produces it). Numbers are integers. */
  datatype Json =
    | JUndefined
    | JNull
    | JBool(b: bool)
    | JNum(n: int)
    | JStr(s: string)
    | JArr(items: seq<Json>)
    | JObj(fields: map<string, Json>)

  /** JavaScript truthiness: undefined, null, false, 0 and "" are falsy;
    * every array and every object is truthy. */
  predicate Truthy(j: Json) {
    match j
    case JUndefined => false
    case JNull => false
    case JBool(b) => b
    case JNum(n) => n != 0
    case JStr(s) => s != ""
    case JArr(_) => true
    case JObj(_) => true
  }

  /** What `??` and `?.` test for: null or undefined. */
  predicate Nullish(j: Json) {
    j == JUndefined || j == JNull
  }

  /** Truthiness of an optional string (an environment variable, `response.text`). */
  predicate Present(v: Option<string>) {
    v.Some? && v.value != ""
  }

  /** `value || fallback` for an optional string. */
  function OrElse(v: Option<string>, fallback: string): (r: string)
    ensures Present(v) ==> r == v.value
    ensures !Present(v) ==> r == fallback
  {
    if Present(v) then v.value else fallback
  }

  /** `m.key` on an object held as a map. */
  function Member(m: map<string, Json>, key: string): Json {
    if key in m then m[key] else JUndefined
  }

  /** `j?.key`: a property of an object; anything that is not an object has
    * none of the properties the source reads (a string or an array has no
    * `title`, say), and `?.` on null or undefined gives undefined. */
  function Field(j: Json, key: string): Json {
    if j.JObj? then Member(j.fields, key) else JUndefined
  }

  /** The TypeError message V8 gives for `j.key` on null or undefined. */
  function ReadError(j: Json, key: string): string {
    "Cannot read properties of " + (if j == JNull then "null" else "undefined") + " (reading '" + key + "')"
  }

  /** `String(j)`, which template interpolation and `new Error(j)` apply. An
    * array joins its elements with "," and shows null and undefined
    * elements as "". */
  function ToJsString(j: Json): string {
    match j
    case JUndefined => "undefined"
    case JNull => "null"
    case JBool(b) => if b then "true" else "false"
    case JNum(n) => IntToDecimal(n)
    case JStr(s) => s
    case JArr(items) =>
      Join(seq(|items|, i requires 0 <= i < |items| =>
                 if Nullish(items[i]) then "" else ToJsString(items[i])), ",")
    case JObj(_) => "[object Object]"
  }

  /** An Error object, as far as the source inspects it. */
  datatype JsError = JsError(name: string, message: string)

  /** `new Error(message)`. */
  function Raise(message: string): JsError {
    JsError("Error", message)
  }

  /** `${err}` of an Error: Error.prototype.toString. */
  function Describe(e: JsError): (r: string)
    ensures e.message == "" ==> r == e.name
    ensures e.name == "" ==> r == e.message
    ensures e.name != "" && e.message != "" ==> r == e.name + ": " + e.message
  {
    if e.name == "" then e.message
    else if e.message == "" then e.name
    else e.name + ": " + e.message
  }

  /** What `JSON.parse(text)` does: a value, or a thrown SyntaxError. */
  datatype Parsed = Parsed(value: Json) | SyntaxError(message: string)
}
