/** A value that may be missing: an unanswered question, a `parseInt` that gives NaN. */
module Wrappers {

  datatype Option<+T> = None | Some(value: T)
}
