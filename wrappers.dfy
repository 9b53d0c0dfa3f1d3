/** A value that may be absent: JavaScript's null/undefined results and C#'s nullable returns. */
module Wrappers {
  datatype Option<+T> = None | Some(value: T)
}
