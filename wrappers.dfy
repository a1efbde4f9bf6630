/** Small value types shared by both stacks of the application. */
module Wrappers {

  /** A value that may be missing (an optional JSON field, an absent form field). */
  datatype Option<+T> = None | Some(value: T)

  /** The outcome of an operation that either produces a value or is refused with a reason. */
  datatype Result<+T, +E> = Ok(value: T) | Err(error: E)

  /** Truthiness of an optional string. JavaScript (`if (s)`) and Python (`if s`, `not s`)
      agree on it: a missing value and the empty string are false, every other string is true. */
  predicate Present(s: Option<string>)
  {
    s.Some? && s.value != ""
  }
}
