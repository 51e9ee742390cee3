/**
 * The values that flow through a pipe, the arguments a method is invoked
 * with, and the errors a run can end in.
 */
module Values {
  import opened Wrappers

  /**
   * The JavaScript values the model tracks. Numbers are integers; strings,
   * objects and floating point are not modelled.
   */
  datatype Value =
    | Undefined
    | Null
    | Bool(b: bool)
    | Num(n: int)
    | Arr(items: seq<Value>)

  /** JavaScript truthiness of a value. */
  predicate Truthy(v: Value)
  {
    match v
    case Undefined => false
    case Null => false
    case Bool(b) => b
    case Num(n) => n != 0
    case Arr(_) => true
  }

  /**
   * JavaScript's conversion of a value to a number, as a relational
   * comparison applies it; None is NaN. An array converts through its
   * string: `[]` and `[null]` read as 0, a one-element array as its
   * element's string, and a longer one (which has a comma) as NaN.
   */
  function ToNumber(v: Value): Option<int>
  {
    match v
    case Undefined => None
    case Null => Some(0)
    case Bool(b) => Some(if b then 1 else 0)
    case Num(n) => Some(n)
    case Arr(items) =>
      if |items| == 0 then Some(0)
      else if |items| > 1 then None
      else
        match items[0]
        case Undefined => Some(0)
        case Null => Some(0)
        case Bool(_) => None  // "true" or "false"
        case Num(n) => Some(n)
        case Arr(_) => ToNumber(items[0])
  }

  /**
   * An argument given to a method of the pipe: a plain value, or a function
   * (a predicate for `maybe`, a selector for `which`).
   */
  datatype Arg = Val(v: Value) | Fn(f: Value -> Value)

  /** What a run can fail with. */
  datatype Error =
    | Thrown(reason: Value)        // whatever a step body threw or called back with
    | NotCallable                  // a TypeError: a property of undefined, or a call of a non-function
    | NotDefined                   // a ReferenceError: a name that is not declared
    | NoBeginTag(tag: string)      // a stop marker without a preceding start marker
    | TagNotParsedOut(tag: string) // a marker left over after resolution
    | MethodNotAdded(name: string) // a method name the pipe does not know
}
