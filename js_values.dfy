/**
 The JavaScript values that the library inspects: the caller's options
 object and the plain values an assertion ends up holding.
 Numbers are idealised as exact reals (no NaN, no rounding).
 */
module JsValues {

  datatype JsValue =
    | Undefined
    | Null
    | Bool(b: bool)
    | Num(n: real)
    | Str(s: string)
    | Arr(items: seq<JsValue>)
    | Obj(props: map<string, JsValue>)

  /** JavaScript truthiness: undefined, null, false, 0 and "" are falsy; every array and object is truthy. */
  predicate Truthy(v: JsValue) {
    match v
    case Undefined => false
    case Null => false
    case Bool(b) => b
    case Num(n) => n != 0.0
    case Str(s) => s != ""
    case Arr(_) => true
    case Obj(_) => true
  }

  /** The property read `v.key`: an own property of an object, and `undefined` for anything else. */
  function Get(v: JsValue, key: string): (r: JsValue)
    ensures !r.Undefined? ==> v.Obj? && key in v.props && v.props[key] == r
    ensures v.Obj? && key in v.props ==> r == v.props[key]
    ensures !v.Obj? ==> r.Undefined?
  {
    if v.Obj? && key in v.props then v.props[key] else Undefined
  }
}
