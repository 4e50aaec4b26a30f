/** Option and Result, the failure-carrying values used across the model. */
module Wrappers {

  datatype Option<+T> = None | Some(value: T) {
    function GetOr(default: T): T {
      match this
      case Some(v) => v
      case None => default
    }
  }

  datatype Result<+R, +E> = Ok(value: R) | Err(error: E)

  /** A pass/fail outcome for operations that return nothing but may raise. */
  datatype Outcome<+E> = Pass | Fail(error: E)

  /** Python truthiness of an optional string: present and not empty. */
  predicate Given(s: Option<string>)
  {
    s.Some? && s.value != ""
  }
}
