/** Small failure-carrying datatypes shared by the configuration and logging modules. */
module Wrappers {

  /** A value that may be missing: TypeScript's `T | undefined`. */
  datatype Option<+T> = None | Some(value: T) {

    /** The wrapped value, or `default` when there is none (TypeScript's `x || default`
        for a value that is never falsy when present). */
    function GetOr(default: T): T {
      match this
      case Some(v) => v
      case None => default
    }
  }

  /** The result of an operation that returns nothing or throws: `Fail` carries the
      message of the thrown `Error`. */
  datatype Outcome<+E> = Pass | Fail(error: E)
}
