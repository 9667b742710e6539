/** The slice of JavaScript's value model that the handler touches: JSON-shaped values,
    property reads, truthiness and the string conversion a template literal performs. */
module Js {

  /** A JavaScript value as it arrives from JSON decoding or from the Lambda event.
      Numbers are modelled as integers; objects as maps from own property names. */
  datatype JsValue =
    | Undefined
    | Null
    | Bool(b: bool)
    | Num(n: int)
    | Str(s: string)
    | Arr(elems: seq<JsValue>)
    | Obj(props: map<string, JsValue>)
  {
    /** `null` or `undefined`: the two values whose property reads throw a TypeError. */
    predicate IsNullish() {
      Undefined? || Null?
    }
  }

  /** JavaScript truthiness (`if (v)`): `undefined`, `null`, `false`, `0` and `""` are falsy. */
  predicate Truthy(v: JsValue) {
    match v
    case Undefined => false
    case Null => false
    case Bool(b) => b
    case Num(n) => n != 0
    case Str(s) => s != ""
    case Arr(_) => true
    case Obj(_) => true
  }

  /** `v.key` for a non-nullish `v`. Only own properties of objects are modelled: every key
      the handler reads (`id`, `attributes`, `q`, `Token`, ...) is absent from the prototypes
      of the other value kinds, so those reads give `undefined`. */
  function Prop(v: JsValue, key: string): JsValue
    requires !v.IsNullish()
  {
    if v.Obj? && key in v.props then v.props[key] else Undefined
  }

  /** Decimal digit character for `d`. */
  function Digit(d: nat): char
    requires d < 10
  {
    "0123456789"[d]
  }

  /** Decimal notation of a natural number, without leading zeros. */
  function NatText(n: nat): string
    decreases n
  {
    if n < 10 then [Digit(n)] else NatText(n / 10) + [Digit(n % 10)]
  }

  /** JavaScript's ToString, which a template literal `${v}` applies to each substitution. */
  function ToText(v: JsValue): string
    decreases v, 1
  {
    match v
    case Undefined => "undefined"
    case Null => "null"
    case Bool(b) => if b then "true" else "false"
    case Num(n) => if n < 0 then "-" + NatText(-n) else NatText(n)
    case Str(s) => s
    case Arr(elems) => JoinText(v, 0)
    case Obj(_) => "[object Object]"
  }

  /** `Array.prototype.join(",")` over the elements of `v` from index `i` on: `null` and
      `undefined` elements contribute the empty string. */
  function JoinText(v: JsValue, i: nat): string
    requires v.Arr? && i <= |v.elems|
    decreases v, 0, |v.elems| - i
  {
    if i == |v.elems| then ""
    else
      var head := if v.elems[i].IsNullish() then "" else ToText(v.elems[i]);
      if i + 1 == |v.elems| then head else head + "," + JoinText(v, i + 1)
  }
}
