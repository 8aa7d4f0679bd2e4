/** Optional values and pass/fail verdicts shared by the portal modules. */
module Wrappers {

  /** A value that may be absent: TypeScript's optional field or `null`. */
  datatype Option<+T> = None | Some(value: T) {
    /** The wrapped value, or `default` when absent (TypeScript's `x ?? default`). */
    function GetOr(default: T): T {
      match this
      case Some(v) => v
      case None => default
    }
  }

  /** The outcome of a check that either passes or reports one error. */
  datatype Outcome<+E> = Pass | Fail(error: E)
}
