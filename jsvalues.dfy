/**
 * JavaScript values as the page handles them: what `JSON.parse` returns, plus
 * `undefined` for absent properties. Property access, truthiness, `for...in`
 * and `for...of` follow JavaScript's rules for these shapes.
 *
 * An object is the list of its own properties in enumeration order; the keys
 * of one object are distinct. Numbers are integers.
 */
module JsValues {
  import opened Options
  import opened Numerals

  datatype JsValue =
    | Undefined
    | Null
    | Bool(b: bool)
    | Num(n: int)
    | Str(s: string)
    | Arr(elems: seq<JsValue>)
    | Obj(props: seq<(string, JsValue)>)

  /** How evaluating an expression ended: with a value, or by throwing one. */
  datatype Completion<+T> = Normal(value: T) | Throw(exception: JsValue)

  predicate IsNullish(v: JsValue) {
    v.Undefined? || v.Null?
  }

  /** JavaScript's `!!v`. */
  predicate Truthy(v: JsValue) {
    match v
    case Undefined => false
    case Null => false
    case Bool(b) => b
    case Num(n) => n != 0
    case Str(s) => s != ""
    case Arr(_) => true
    case Obj(_) => true
  }

  /** `new Error(message)`: an object whose own `message` property is the text. */
  function ErrorObject(message: string): JsValue {
    Obj([("message", Str(message))])
  }

  /** What reading a property of `null` or `undefined` throws. */
  const TypeError: JsValue := ErrorObject("TypeError")

  /** The value of own property `key`, `undefined` when there is none. */
  function Lookup(props: seq<(string, JsValue)>, key: string): JsValue {
    if props == [] then Undefined
    else if props[0].0 == key then props[0].1
    else Lookup(props[1..], key)
  }

  /** The array index a property key names, if it names one. */
  function ArrayIndex(key: string): Option<nat> {
    if Canonical(key, 10) then Some(FromBase(key, 10)) else None
  }

  /** `v[key]`: throws a TypeError on `null` and `undefined`. */
  function Prop(v: JsValue, key: string): (r: Completion<JsValue>)
    ensures r.Throw? <==> IsNullish(v)
    ensures r.Throw? ==> r.exception == TypeError
    // an object yields its own property, `undefined` when it has none
    ensures v.Obj? ==> r == Normal(Lookup(v.props, key))
    // arrays and strings have a `length`
    ensures v.Arr? && key == "length" ==> r == Normal(Num(|v.elems|))
    ensures v.Str? && key == "length" ==> r == Normal(Num(|v.s|))
    // booleans and numbers have none of the properties read here
    ensures v.Bool? || v.Num? ==> r == Normal(Undefined)
  {
    match v
    case Undefined => Throw(TypeError)
    case Null => Throw(TypeError)
    case Bool(_) => Normal(Undefined)
    case Num(_) => Normal(Undefined)
    case Str(s) =>
      if key == "length" then Normal(Num(|s|))
      else if ArrayIndex(key).Some? && ArrayIndex(key).value < |s| then
        Normal(Str([s[ArrayIndex(key).value]]))
      else Normal(Undefined)
    case Arr(xs) =>
      if key == "length" then Normal(Num(|xs|))
      else if ArrayIndex(key).Some? && ArrayIndex(key).value < |xs| then
        Normal(xs[ArrayIndex(key).value])
      else Normal(Undefined)
    case Obj(ps) => Normal(Lookup(ps, key))
  }

  /** The keys a `for...in` loop visits, in order. */
  function ForInKeys(v: JsValue): seq<string> {
    match v
    case Arr(xs) => seq(|xs|, i requires 0 <= i => Decimal(i))
    case Str(s) => seq(|s|, i requires 0 <= i => Decimal(i))
    case Obj(ps) => seq(|ps|, i requires 0 <= i < |ps| => ps[i].0)
    case _ => []
  }

  /** The values a `for...of` loop visits; only arrays and strings are iterable. */
  function ForOfValues(v: JsValue): (r: Completion<seq<JsValue>>)
    ensures r.Throw? ==> r.exception == TypeError
  {
    match v
    case Arr(xs) => Normal(xs)
    case Str(s) => Normal(seq(|s|, i requires 0 <= i < |s| => Str([s[i]])))
    case _ => Throw(TypeError)
  }

  /** `v > 0` for the values a `length` property can hold. */
  predicate IsPositive(v: JsValue) {
    match v
    case Num(n) => n > 0
    case Bool(b) => b
    case _ => false
  }

  /** `${v}` in a template literal. */
  function ToJsString(v: JsValue): string
    decreases v, 1
  {
    match v
    case Undefined => "undefined"
    case Null => "null"
    case Bool(b) => if b then "true" else "false"
    case Num(n) => if n < 0 then "-" + Decimal(-n) else Decimal(n)
    case Str(s) => s
    case Arr(xs) => JoinElements(v, 0)
    case Obj(_) => "[object Object]"
  }

  /** `Array.prototype.join(",")` from index `i` on; `null` and `undefined` print as "". */
  function JoinElements(whole: JsValue, i: nat): string
    requires whole.Arr? && i <= |whole.elems|
    decreases whole, 0, |whole.elems| - i
  {
    if i == |whole.elems| then ""
    else
      var x := whole.elems[i];
      var text := if IsNullish(x) then "" else ToJsString(x);
      if i + 1 == |whole.elems| then text else text + "," + JoinElements(whole, i + 1)
  }

  /** The keys `for...in` gives an array name its elements. */
  lemma {:induction false} ArrayKeyReadsElement(xs: seq<JsValue>, i: nat)
    requires i < |xs|
    ensures Prop(Arr(xs), Decimal(i)) == Normal(xs[i])
  {
    ToBaseRoundTrip(i, 10);
  }

}
