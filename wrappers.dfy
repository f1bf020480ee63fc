// Optional values and results: the model's form of JavaScript's
// `undefined`/`null` returns and of thrown errors.
module Wrappers {

  datatype Option<+T> = None | Some(value: T) {
    function GetOr(default: T): T {
      match this
      case Some(v) => v
      case None => default
    }
  }

  datatype Result<+R, +E> = Ok(value: R) | Err(error: E)

  /** A numeric id in a JavaScript truthiness test: a missing value or 0 is falsy. */
  predicate Truthy(id: Option<int>) {
    id.Some? && id.value != 0
  }
}
