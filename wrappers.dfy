/** A minimal optional-value datatype, used for error returns. */
module Wrappers {

  datatype Option<+T> = None | Some(value: T)
}
