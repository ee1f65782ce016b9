/** The JavaScript values the server reads from its configuration and puts into the
    options of an outbound request, with the three operations it applies to them:
    truthiness (`!x`), property access (`x.key`) and object spread (`{...x}`). */
module JsValues {

  /** A JavaScript value. Numbers are integers here: the configuration holds ports. */
  datatype Value =
    | Undefined
    | Null
    | Bool(b: bool)
    | Num(n: int)
    | Str(s: string)
    | Arr(items: seq<Value>)
    | Obj(fields: map<string, Value>)

  /** The values for which `!v` is false. */
  predicate Truthy(v: Value) {
    match v
    case Undefined => false
    case Null => false
    case Bool(b) => b
    case Num(n) => n != 0
    case Str(s) => s != ""
    case Arr(_) => true
    case Obj(_) => true
  }

  /** `v == null`: reading a property of such a value throws a TypeError. */
  predicate Nullish(v: Value) {
    v.Undefined? || v.Null?
  }

  /** `v[key]` for a value whose properties can be read; a missing own property reads
      as undefined. */
  function Property(v: Value, key: string): Value
    requires !Nullish(v)
  {
    if v.Obj? && key in v.fields then v.fields[key] else Undefined
  }

  /** `String(v)`, which a property key such as `obj[v]` and a template literal such as
      `${v}` both apply, for the values that are not numbers, arrays or objects. */
  function ToJsString(v: Value): string
    requires !v.Num? && !v.Arr? && !v.Obj?
  {
    match v
    case Undefined => "undefined"
    case Null => "null"
    case Bool(b) => if b then "true" else "false"
    case Str(s) => s
  }

  /** The keys and values that `{...v}` copies: the own properties of an object, and
      nothing for undefined, null, booleans and numbers. */
  function Spread(v: Value): map<string, Value> {
    if v.Obj? then v.fields else map[]
  }
}
