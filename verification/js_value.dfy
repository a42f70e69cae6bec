/** JavaScript values as they arrive in a parsed telemetry message, and the
    two JavaScript operations the stores apply to them: reading a property
    of a plain object and testing a value for truthiness. */
module JsValue {

  /** The values a property of a parsed message can hold. Objects and arrays
      are not inspected by the stores, so they share one constructor. */
  datatype JsVal =
    | Undefined
    | Null
    | Bool(b: bool)
    | Num(x: real)
    | NaN
    | Str(s: string)
    | Object

  /** A message is a plain object: a finite map from property names to values. */
  type Message = map<string, JsVal>

  /** The six falsy values of JavaScript, listed on their own as the reference
      for `Truthy`. */
  predicate IsFalsyValue(v: JsVal)
  {
    v == Undefined || v == Null || v == Bool(false) || v == Num(0.0) || v == NaN || v == Str("")
  }

  /** JavaScript truthiness, case by case: `undefined`, `null`, `false`, `0`
      (either sign), `NaN` and the empty string are falsy; everything else,
      objects and arrays included, is truthy. */
  predicate Truthy(v: JsVal)
    ensures Truthy(v) <==> !IsFalsyValue(v)
  {
    match v
    case Undefined => false
    case Null => false
    case Bool(b) => b
    case Num(x) => x != 0.0
    case NaN => false
    case Str(s) => s != ""
    case Object => true
  }

  /** `data[key]` on a plain object. A property that is absent reads as
      `undefined`, so it cannot be told apart from one explicitly holding
      `undefined`, and it fails the truthiness test just as a falsy value does. */
  function Get(data: Message, key: string): (v: JsVal)
    ensures v == Undefined <==> key !in data || data[key] == Undefined
    ensures !Truthy(v) <==> key !in data || !Truthy(data[key])
  {
    if key in data then data[key] else Undefined
  }

  /** A property that is absent from the message reads as `undefined` and is
      never truthy. */
  lemma MissingIsFalsy(data: Message, key: string)
    requires key !in data
    ensures Get(data, key) == Undefined
    ensures !Truthy(Get(data, key))
  {
  }
}
