/**
 * The handful of JavaScript value notions the components rely on: optional
 * values, the dynamic value type, and JavaScript truthiness (the rule behind
 * `a || b`).
 */
module JsValues {

  datatype Option<+T> = None | Some(value: T)

  /** An omitted prop takes its default; a given one is kept. */
  function OrDefault<T>(o: Option<T>, default: T): (r: T)
    ensures o.None? ==> r == default
    ensures o.Some? ==> r == o.value
  {
    match o
    case None => default
    case Some(x) => x
  }

  /** A JavaScript value as far as the components inspect it. Numbers are
      modelled as exact reals; `NaN` is kept apart because it is falsy. */
  datatype JsValue =
    | Undefined
    | Null
    | Bool(b: bool)
    | Num(x: real)
    | NaN
    | Str(s: string)
    | Obj(id: nat)   // any object or function: always truthy

  /** JavaScript's ToBoolean. */
  predicate Truthy(v: JsValue) {
    match v
    case Undefined => false
    case Null => false
    case Bool(b) => b
    case Num(x) => x != 0.0
    case NaN => false
    case Str(s) => s != ""
    case Obj(_) => true
  }

  /** `a || b`: the first operand when it is truthy, otherwise the second. */
  function Or(a: JsValue, b: JsValue): (r: JsValue)
    ensures Truthy(a) ==> r == a
    ensures !Truthy(a) ==> r == b
  {
    if Truthy(a) then a else b
  }

  /** Reading a property of a plain object: absent keys read as `undefined`. */
  function Get(m: map<string, JsValue>, key: string): (r: JsValue)
    ensures key in m ==> r == m[key]
    ensures key !in m ==> r == Undefined
  {
    if key in m then m[key] else Undefined
  }

  /** Exactly the falsy values. */
  lemma FalsyValues(v: JsValue)
    ensures !Truthy(v) <==>
      v in {Undefined, Null, Bool(false), Num(0.0), NaN, Str("")}
  {
  }
}
