/**
 * JavaScript values as the serverless handlers see them in a parsed JSON request body, with
 * the three operations the handlers apply to them: truthiness (`!v`, `v || d`), property
 * reads (`v.k`, `v?.k`) and conversion to text inside a template literal (`${v}`).
 * Numbers are integers here.
 */
module JsValues {
  import opened Wrappers
  import opened JsText

  datatype Value =
    | Undefined
    | Null
    | Bool(b: bool)
    | Number(n: int)
    | Str(s: string)
    | Array(elems: seq<Value>)
    | Object(fields: map<string, Value>)

  /** The values `!v` maps to false. */
  predicate Truthy(v: Value) {
    match v
    case Undefined => false
    case Null => false
    case Bool(b) => b
    case Number(n) => n != 0
    case Str(s) => s != ""
    case Array(_) => true
    case Object(_) => true
  }

  /** `v || d` */
  function Or(v: Value, d: Value): (r: Value)
    ensures Truthy(v) ==> r == v
    ensures !Truthy(v) ==> r == d
  {
    if Truthy(v) then v else d
  }

  /** A property of a plain value: the field of an object, undefined for anything else. */
  function Prop(v: Value, k: string): Value {
    if v.Object? && k in v.fields then v.fields[k] else Undefined
  }

  /** `v.length` of a value that is neither undefined nor null: undefined when it has none. */
  function Length(v: Value): Value {
    match v
    case Str(s) => Number(|s|)
    case Array(elems) => Number(|elems|)
    case Object(_) => Prop(v, "length")
    case _ => Undefined
  }

  /** `v.k`: reading a property of undefined or null throws a TypeError (None). */
  function Field(v: Value, k: string): (r: Option<Value>)
    ensures r.None? <==> v.Undefined? || v.Null?
  {
    if v.Undefined? || v.Null? then None else Some(Prop(v, k))
  }

  /** `v?.k`: undefined instead of a TypeError. */
  function OptField(v: Value, k: string): (r: Value)
    ensures v.Undefined? || v.Null? ==> r == Undefined
    ensures v.Object? && k in v.fields ==> r == v.fields[k]
  {
    match Field(v, k)
    case None => Undefined
    case Some(x) => x
  }

  /** The TypeError text for `v.k` on undefined or null. */
  function ReadError(v: Value, k: string): string {
    "Cannot read properties of " + (if v.Null? then "null" else "undefined") + " (reading '" + k + "')"
  }

  /** `${v}`: a template literal's text for a value (arrays join their elements with ","). */
  function ToText(v: Value): string {
    match v
    case Undefined => "undefined"
    case Null => "null"
    case Bool(b) => if b then "true" else "false"
    case Number(n) => IntToString(n)
    case Str(s) => s
    case Array(es) =>
      Join(seq(|es|, i requires 0 <= i < |es| => if es[i].Undefined? || es[i].Null? then "" else ToText(es[i])), ",")
    case Object(_) => "[object Object]"
  }

  /** An HTTP reply: the status code and the JSON object sent as the body. */
  datatype Reply = Reply(status: int, body: map<string, Value>)

  /** What the sheets API did with a row: appended it, or failed with an error message. */
  datatype AppendResult = Appended | AppendFailed(message: string)
}
