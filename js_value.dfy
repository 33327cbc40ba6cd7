/** JSON values as JavaScript sees them: truthiness, the `||` fallback and
    the text a template literal `${...}` makes of a value. */
module JsValue {
  import opened Options
  import JsText

  /** A JSON value. Numbers are integers here (see README). */
  datatype Value =
    | Null
    | Bool(b: bool)
    | Num(n: int)
    | Str(s: string)
    | Arr(items: seq<Value>)
    | Obj(fields: map<string, Value>)

  /** A JavaScript object read from JSON: its own keys and their values.
      A key that is absent reads as `undefined`. */
  type Record = map<string, Value>

  /** `record[key]`, with `None` for `undefined`. */
  function Get(r: Record, key: string): Option<Value> {
    if key in r then Some(r[key]) else None
  }

  /** JavaScript truthiness of a JSON value: `null`, `false`, `0` and `""`
      are falsy; every array and object, even an empty one, is truthy. */
  predicate Truthy(v: Value) {
    match v
    case Null => false
    case Bool(b) => b
    case Num(n) => n != 0
    case Str(s) => s != ""
    case Arr(_) => true
    case Obj(_) => true
  }

  /** Truthiness of a possibly `undefined` value. */
  predicate IsTruthy(v: Option<Value>) {
    v.Some? && Truthy(v.value)
  }

  /** `a || b`: `a` when it is truthy, otherwise `b`. */
  function OrElse(a: Option<Value>, b: Value): (r: Value)
    ensures IsTruthy(a) ==> r == a.value
    ensures !IsTruthy(a) ==> r == b
  {
    if IsTruthy(a) then a.value else b
  }

  /** `String(v)` as a template literal computes it; inside an array,
      `null` becomes the empty text and the elements are joined by commas. */
  function ValueText(v: Value): string
    decreases v
  {
    match v
    case Null => "null"
    case Bool(b) => if b then "true" else "false"
    case Num(n) => JsText.IntText(n)
    case Str(s) => s
    case Arr(xs) =>
      JsText.Join(seq(|xs|, i requires 0 <= i < |xs| => if xs[i].Null? then "" else ValueText(xs[i])), ',')
    case Obj(_) => "[object Object]"
  }

  /** `${v}` for a possibly `undefined` value. */
  function Text(v: Option<Value>): string {
    match v
    case None => "undefined"
    case Some(x) => ValueText(x)
  }
}
