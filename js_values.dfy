/** JavaScript values as the REST layer reads and builds them.

    The layer only reads properties of host documents and builds object
    literals, so a value is one of JavaScript's primitive kinds, an array or
    a plain object (its own properties as a map). Reading a property of
    `undefined` or `null` throws a TypeError; that throw is a `Failure` here.
 */
module JsValues {

  datatype Option<+T> = None | Some(value: T)

  datatype Result<+T, +E> = Success(value: T) | Failure(error: E)

  /** Numbers are integers: the layer itself only produces counts and
      HTTP status codes; host numbers are passed through untouched. */
  datatype Value =
    | Undefined
    | Null
    | Bool(b: bool)
    | Num(n: int)
    | Str(s: string)
    | Arr(elems: seq<Value>)
    | Obj(props: map<string, Value>)

  /** The own properties of a host document. */
  type Props = map<string, Value>

  /** A thrown TypeError: the named property was read from undefined or null. */
  datatype Fault = TypeError(property: string)

  /** `p.k` on a plain object: a missing property reads as undefined. */
  function Get(p: Props, k: string): (v: Value)
    ensures k !in p ==> v == Undefined
    ensures k in p ==> v == p[k]
  {
    if k in p then p[k] else Undefined
  }

  /** A property can be read from anything but `undefined` and `null`. */
  predicate Readable(v: Value) {
    !v.Undefined? && !v.Null?
  }

  /** `v.k` on a value that does not throw. None of the property names the
      layer reads (id, name, data, title, params, …) exists on a primitive
      or an array, so those read as undefined. */
  function Member(v: Value, k: string): Value
    requires Readable(v)
  {
    if v.Obj? then Get(v.props, k) else Undefined
  }

  /** `v.k` with JavaScript's TypeError on undefined and null. */
  function Prop(v: Value, k: string): (r: Result<Value, Fault>)
    ensures r.Failure? <==> !Readable(v)
    ensures r.Failure? ==> r.error == TypeError(k)
    ensures v.Obj? ==> r == Success(Get(v.props, k))
  {
    if Readable(v) then Success(Member(v, k)) else Failure(TypeError(k))
  }

  /** JavaScript truthiness (there is no NaN among these numbers). */
  predicate Truthy(v: Value) {
    match v
    case Undefined => false
    case Null => false
    case Bool(b) => b
    case Num(n) => n != 0
    case Str(s) => s != ""
    case _ => true
  }
}
