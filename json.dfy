/**
 * JavaScript values as they travel through request bodies, form fields and
 * upstream responses: the few operations the application applies to them are
 * truthiness (`!x`, `x || d`), the `undefined`-only default of a destructuring
 * pattern, and reading a property (which throws on `null` and `undefined`).
 * Numbers are kept opaque (`real`); no arithmetic is done on them.
 */
module Json {
  import opened Wrappers

  datatype Json =
    | Undefined
    | Null
    | Bool(b: bool)
    | Num(n: real)
    | NaN
    | Str(s: string)
    | Arr(elems: seq<Json>)
    | Obj(fields: map<string, Json>)

  /** JavaScript truthiness: `undefined`, `null`, `false`, `0`, `NaN` and `""` are falsy. */
  predicate Truthy(v: Json) {
    match v
    case Undefined => false
    case Null => false
    case NaN => false
    case Bool(b) => b
    case Num(n) => n != 0.0
    case Str(s) => s != []
    case Arr(_) => true
    case Obj(_) => true
  }

  /** `v || d` */
  function Or(v: Json, d: Json): (r: Json)
    ensures Truthy(v) ==> r == v
    ensures !Truthy(v) ==> r == d
  {
    if Truthy(v) then v else d
  }

  /** A destructuring default `{ k = d } = obj`: applies only when the value is `undefined`. */
  function DefaultIfUndefined(v: Json, d: Json): (r: Json)
    ensures v.Undefined? ==> r == d
    ensures !v.Undefined? ==> r == v
  {
    if v.Undefined? then d else v
  }

  /** A field of a plain object; a missing key reads as `undefined`. */
  function Field(fields: map<string, Json>, key: string): (r: Json)
    ensures key in fields ==> r == fields[key]
    ensures key !in fields ==> r.Undefined?
  {
    if key in fields then fields[key] else Undefined
  }

  /** The V8 message of the TypeError thrown by reading a property of `null` or `undefined`. */
  function ReadError(v: Json, key: string): string
    requires v.Undefined? || v.Null?
  {
    "Cannot read properties of " + (if v.Null? then "null" else "undefined") + " (reading '" + key + "')"
  }

  /**
   * `v.key`. The keys this application reads (`answer`, `places`, `name`,
   * `latitude`, ...) are not built-in properties of strings, numbers or
   * arrays, so on those values they read as `undefined`.
   */
  function Prop(v: Json, key: string): (r: Result<Json>)
    ensures r.Failure? <==> v.Undefined? || v.Null?
    ensures r.Failure? ==> r.error == ReadError(v, key)
    ensures v.Obj? ==> r == Success(Field(v.fields, key))
    ensures !v.Obj? && r.Success? ==> r.value.Undefined?
  {
    match v
    case Undefined => Failure(ReadError(v, key))
    case Null => Failure(ReadError(v, key))
    case Obj(fields) => Success(Field(fields, key))
    case _ => Success(Undefined)
  }
}
