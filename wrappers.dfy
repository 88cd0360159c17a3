/** Option and Result values used across the model. */
module Wrappers {

  /** A value that may be absent: the model of a JavaScript `null`/`undefined` result. */
  datatype Option<+T> = None | Some(value: T)

  /** The outcome of code that may throw a runtime error. */
  datatype Result<+T> = Success(value: T) | Failure(error: JsError)

  /** JavaScript truthiness of a string or `null`: `null` and `""` are falsy. */
  predicate Truthy(s: Option<string>)
  {
    s.Some? && s.value != ""
  }

  /** The runtime errors the modelled code can raise. */
  datatype JsError =
    | TypeError(message: string)       // a method called on `null`/`undefined`, or a property read of `undefined`
    | ReferenceError(message: string)  // a name read outside the block that declares it
}
