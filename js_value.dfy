/**
 * The part of JavaScript's value semantics that the store and the API client
 * depend on: truthiness, `typeof`, `Array.isArray`, property reads, and the
 * two ways an awaited promise settles.
 */
module JsValue {
  import Decimal

  /**
   * A JavaScript value. Numbers are finite reals (both zeros are `Num(0.0)`)
   * or `NaN`; infinities behave like any non-zero number in every check
   * modelled here. Arrays carry only their elements and functions carry no
   * properties; plain objects carry their own enumerable properties.
   */
  datatype JsVal =
    | Undefined
    | Null
    | Bool(b: bool)
    | Num(n: real)
    | NaN
    | BigInt(i: int)
    | Str(s: string)
    | Sym(description: string)
    | Fn
    | Arr(elems: seq<JsVal>)
    | Obj(props: map<string, JsVal>)

  predicate IsNullish(v: JsVal) {
    v.Undefined? || v.Null?
  }

  /** ToBoolean (section 7.1.2 of ECMA-262): what `if (v)` and `v && ...` test. */
  predicate Truthy(v: JsVal) {
    match v
    case Undefined => false
    case Null => false
    case Bool(b) => b
    case Num(n) => n != 0.0
    case NaN => false
    case BigInt(i) => i != 0
    case Str(s) => s != ""
    case _ => true
  }

  /** The string the `typeof` operator yields (section 13.5.3 of ECMA-262). */
  function TypeOf(v: JsVal): string {
    match v
    case Undefined => "undefined"
    case Null => "object"
    case Bool(_) => "boolean"
    case Num(_) => "number"
    case NaN => "number"
    case BigInt(_) => "bigint"
    case Str(_) => "string"
    case Sym(_) => "symbol"
    case Fn => "function"
    case Arr(_) => "object"
    case Obj(_) => "object"
  }

  /** `Array.isArray(v)`. */
  predicate IsArray(v: JsVal) {
    v.Arr?
  }

  /**
   * The guard `v && typeof v === 'object'`: it lets through arrays and plain
   * objects, and nothing else (null is an object to `typeof` but is falsy).
   */
  function IsObjectLike(v: JsVal): (r: bool)
    ensures r <==> v.Arr? || v.Obj?
  {
    Truthy(v) && TypeOf(v) == "object"
  }

  /** `v.key` for a named property; reading through undefined or null throws instead. */
  function Get(v: JsVal, key: string): JsVal
    requires !IsNullish(v)
  {
    match v
    case Obj(props) => if key in props then props[key] else Undefined
    case _ => Undefined
  }

  /** `v[i]` for a numeric index: array elements, string characters (Unicode scalar values), or the object property named by `i`. */
  function Index(v: JsVal, i: nat): JsVal
    requires !IsNullish(v)
  {
    match v
    case Arr(elems) => if i < |elems| then elems[i] else Undefined
    case Str(s) => if i < |s| then Str([s[i]]) else Undefined
    case Obj(props) =>
      var key := Decimal.NatToDecimal(i);
      if key in props then props[key] else Undefined
    case _ => Undefined
  }

  /** `v.key = x` on a plain object. */
  function SetProp(v: JsVal, key: string, x: JsVal): (r: JsVal)
    requires v.Obj?
    ensures r.Obj? && Get(r, key) == x
    ensures forall k :: k != key ==> Get(r, k) == Get(v, k)
  {
    Obj(v.props[key := x])
  }

  /** What a `catch` clause receives: an object for which `instanceof Error` holds, or any other thrown value. */
  datatype Thrown =
    | ErrorInstance(message: string)
    | NonError(value: JsVal)

  /** How an awaited promise settles. */
  datatype Outcome =
    | Resolved(value: JsVal)
    | Rejected(reason: Thrown)

  /** `p.then(f)` where the callback `f` either returns a value or throws. */
  function Then(p: Outcome, f: JsVal -> Outcome): (r: Outcome)
    ensures p.Rejected? ==> r == p
  {
    match p
    case Resolved(v) => f(v)
    case Rejected(_) => p
  }

  /**
   * The TypeError thrown by reading `base.key` when `base` is undefined or
   * null, with the wording of the V8 engine.
   */
  function ReadOfNullish(base: JsVal, key: string): (e: Thrown)
    requires IsNullish(base)
    ensures e.ErrorInstance?
  {
    ErrorInstance("Cannot read properties of " + (if base.Null? then "null" else "undefined")
                  + " (reading '" + key + "')")
  }
}
