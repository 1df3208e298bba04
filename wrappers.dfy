/** Helper datatypes shared by the other modules. */
module Wrappers {

  /** Python's `None` versus a present value. */
  datatype Option<+T> = None | Some(value: T)

  /** A string that may be missing, read as `''` when it is, the way the
      dashboard reads an absent or `None` cell. */
  function OrEmpty(s: Option<string>): string {
    if s.Some? then s.value else ""
  }

  /** A value, or the exception raised instead of returning it. */
  datatype Result<+T, +E> = Success(value: T) | Failure(error: E)
}
