/**
 JavaScript values as the query builder sees them: the values held by the
 variable store, the values returned by views, and the query tree itself.
 JavaScript's implicit truthiness is replaced by an explicit predicate.
 */
module Values {

  datatype Option<+T> = None | Some(value: T)

  /** A closed variant of the JavaScript values the builder handles.
      Numbers are integers; NaN is a tag of its own (no floating point). */
  datatype JsValue =
    | Undefined
    | Null
    | Bool(b: bool)
    | Num(n: int)
    | NaN
    | Str(s: string)
    | Arr(items: seq<JsValue>)
    | Obj(props: map<string, JsValue>)

  /** JavaScript's falsy values: false, '', 0, null, undefined and NaN. */
  predicate IsFalsy(v: JsValue)
  {
    match v
    case Undefined => true
    case Null => true
    case NaN => true
    case Bool(b) => !b
    case Num(n) => n == 0
    case Str(s) => s == ""
    case Arr(_) => false
    case Obj(_) => false
  }

  predicate IsTruthy(v: JsValue)
  {
    !IsFalsy(v)
  }

  /** The falsy predicate covers exactly the six falsy values and nothing else. */
  lemma FalsyValues(v: JsValue)
    ensures IsFalsy(v) <==> v in {Bool(false), Str(""), Num(0), Null, Undefined, NaN}
  {
  }

  /** The variable store: namespaced keys mapped to values. A key set to a
      falsy value is still set. */
  type Store = map<string, JsValue>

  /** A view turns the store into a query fragment, or a falsy value when
      the fragment does not apply. */
  type View = Store -> JsValue

  predicate IsSet(vs: Store, key: string)
  {
    key in vs
  }

  function Var(vs: Store, key: string): JsValue
    requires IsSet(vs, key)
  {
    vs[key]
  }

  /** Reading a key that may be unset; an unset key reads as undefined. */
  function Lookup(vs: Store, key: string): JsValue
  {
    if IsSet(vs, key) then Var(vs, key) else Undefined
  }

  /** Follows a chain of own object properties, as the JSON form of the
      value shows them (inherited properties are not consulted); None where
      a step is not an object or lacks the property. */
  function Get(v: JsValue, path: seq<string>): Option<JsValue>
    decreases |path|
  {
    if path == [] then Some(v)
    else if v.Obj? && path[0] in v.props then Get(v.props[path[0]], path[1..])
    else None
  }

  /** `hasOwnProperty`: the object itself carries the key. */
  predicate HasOwnProperty(v: JsValue, key: string)
  {
    v.Obj? && key in v.props
  }

  function DigitChar(d: nat): char
    requires d < 10
  {
    "0123456789"[d]
  }

  function NatToDecimal(n: nat): (r: string)
    ensures |r| >= 1
    decreases n
  {
    if n < 10 then [DigitChar(n)] else NatToDecimal(n / 10) + [DigitChar(n % 10)]
  }

  function IntToDecimal(n: int): string
  {
    if n < 0 then "-" + NatToDecimal(-n) else NatToDecimal(n)
  }

  function Join(parts: seq<string>): string
  {
    if |parts| == 0 then ""
    else if |parts| == 1 then parts[0]
    else parts[0] + "," + Join(parts[1..])
  }

  /** The string a value becomes when it is used as an object property
      name (`obj[v] = ...`): strings are taken as they are, and other values
      are converted the way JavaScript's String(v) does for an object or
      array whose `toString` is the inherited one. An object with its own
      `toString` data property, or an array holding one, makes JavaScript
      throw a TypeError instead; that failure is not represented here, and
      such an object converts to "[object Object]". */
  function PropertyKey(v: JsValue): string
    decreases v
  {
    match v
    case Undefined => "undefined"
    case Null => "null"
    case NaN => "NaN"
    case Bool(b) => if b then "true" else "false"
    case Num(n) => IntToDecimal(n)
    case Str(s) => s
    case Arr(items) =>
      Join(seq(|items|, i requires 0 <= i < |items| =>
        if items[i].Null? || items[i].Undefined? then "" else PropertyKey(items[i])))
    case Obj(_) => "[object Object]"
  }
}
