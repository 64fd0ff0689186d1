/** The part of JavaScript's value semantics the dispatch core relies on:
    truthiness, `null`/`undefined`, and property reads. */
module JsValues {

  datatype Option<+T> = None | Some(value: T)

  /** A JavaScript value as the dispatch core sees it. Numbers are integers
      (the core only compares them with the integer tags); a function is an
      opaque id; an object's `props` are all the properties a lookup finds on
      it, its own as well as those of its prototype chain. */
  datatype JsValue =
    | Undefined
    | Null
    | Bool(b: bool)
    | Num(n: int)
    | Str(s: string)
    | Fn(id: nat)
    | Object(props: map<string, JsValue>)

  predicate IsNullish(v: JsValue) {
    v.Undefined? || v.Null?
  }

  /** JavaScript's ToBoolean: what `!!v`, `v && ...` and `if (v)` test. */
  predicate Truthy(v: JsValue) {
    match v
    case Undefined => false
    case Null => false
    case Bool(b) => b
    case Num(n) => n != 0
    case Str(s) => s != []
    case Fn(_) => true
    case Object(_) => true
  }

  /** The property read `v[key]`. `None` is the TypeError that reading a
      property of `undefined` or `null` throws; a property that is not there
      reads as `undefined`, and primitives carry none of the keys the core
      reads. */
  function Get(v: JsValue, key: string): (r: Option<JsValue>)
    ensures r.None? <==> IsNullish(v)
    ensures r.Some? && r.value != Undefined ==> v.Object? && key in v.props && v.props[key] == r.value
    ensures v.Object? && key !in v.props ==> r == Some(Undefined)
  {
    match v
    case Undefined => None
    case Null => None
    case Object(props) => Some(if key in props then props[key] else Undefined)
    case _ => Some(Undefined)
  }

  /** `v[key]` where `v` is already known to be neither `null` nor `undefined`. */
  function Prop(v: JsValue, key: string): JsValue
    requires !IsNullish(v)
  {
    Get(v, key).value
  }
}
