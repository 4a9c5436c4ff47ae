/** The optional value used throughout the model for JavaScript's `undefined`/`null`
    and for TypeScript's optional properties (`x?: T`). */
module Wrappers {

  datatype Option<+T> = None | Some(value: T) {

    /** The value, or `default` when there is none (JavaScript's `x ?? default`). */
    function GetOr(default: T): T {
      match this
      case Some(v) => v
      case None => default
    }
  }
}
