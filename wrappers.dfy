/** A value that may be absent: the model's stand-in for JavaScript's
    `undefined` (an unset variable) and for a NaN result. */
module Wrappers {
  datatype Option<+T> = None | Some(value: T)
}
