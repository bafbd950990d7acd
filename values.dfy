/** JavaScript values and plain objects, as far as the application uses them.
    Records (tasks, projects, users, notifications, comments) are plain objects: a
    finite map from property name to value. Numbers are integers here. */
module JsValues {

  datatype Option<+T> = None | Some(value: T)

  datatype Value =
    | Undefined
    | Null
    | Bool(b: bool)
    | Num(n: int)
    | Str(s: string)
    | Arr(elems: seq<Value>)
    | Obj(fields: map<string, Value>)

  type Object = map<string, Value>

  /** Property read `o.k`: a missing property reads as `undefined`. */
  function Get(o: Object, k: string): Value {
    if k in o then o[k] else Undefined
  }

  /** JavaScript truthiness (`if (v)`, `!v`, `v || d`). */
  predicate Truthy(v: Value) {
    match v
    case Undefined => false
    case Null => false
    case Bool(b) => b
    case Num(n) => n != 0
    case Str(s) => s != ""
    case Arr(_) => true
    case Obj(_) => true
  }

  /** Object spread `{ ...a, ...b }`: every property of `b`, and those of `a` that `b` lacks. */
  function Spread(a: Object, b: Object): (r: Object)
    ensures r.Keys == a.Keys + b.Keys
    ensures forall k :: k in b ==> r[k] == b[k]
    ensures forall k :: k in a && k !in b ==> r[k] == a[k]
  {
    a + b
  }

  /** `String(v)`, as a template literal `${v}` converts a value: an array joins its
      elements with commas, writing `null` and `undefined` elements as nothing. */
  function Display(v: Value): string
    decreases v, 1, 0
  {
    match v
    case Undefined => "undefined"
    case Null => "null"
    case Bool(b) => if b then "true" else "false"
    case Num(n) => if n < 0 then "-" + NatToDecimal(-n) else NatToDecimal(n)
    case Str(s) => s
    case Arr(es) => JoinElements(v, es, 0)
    case Obj(_) => "[object Object]"
  }

  function JoinElements(ghost whole: Value, es: seq<Value>, i: nat): string
    requires whole == Arr(es) && i <= |es|
    decreases whole, 0, |es| - i
  {
    if i == |es| then ""
    else
      (if i == 0 then "" else ",")
      + (if es[i] == Undefined || es[i] == Null then "" else Display(es[i]))
      + JoinElements(whole, es, i + 1)
  }

  function NatToDecimal(n: nat): (r: string)
    ensures |r| >= 1
    ensures forall i :: 0 <= i < |r| ==> '0' <= r[i] <= '9'
  {
    if n < 10 then ["0123456789"[n]]
    else NatToDecimal(n / 10) + ["0123456789"[n % 10]]
  }
}
