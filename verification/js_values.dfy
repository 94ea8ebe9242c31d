/**
 Scalar JSON values as a route handler sees them after `request.json()`,
 and JavaScript's truthiness, which the handlers' `!field` checks use.
 */
module JsValues {

  /** A field of a parsed request body. `Undefined` is an absent key;
      `Object` is any object or array, which is always truthy. */
  datatype JsValue =
    | Undefined
    | Null
    | Bool(b: bool)
    | Num(n: real)
    | Str(s: string)
    | Object

  /** `!v` is false: every value except undefined, null, false, 0 and "". */
  predicate Truthy(v: JsValue)
  {
    match v
    case Undefined => false
    case Null => false
    case Bool(b) => b
    case Num(n) => n != 0.0
    case Str(s) => s != ""
    case Object => true
  }

  /** The five falsy values, listed independently of `Truthy`. */
  lemma FalsyValues(v: JsValue)
    ensures !Truthy(v) <==> v in {Undefined, Null, Bool(false), Num(0.0), Str("")}
  {
  }
}
