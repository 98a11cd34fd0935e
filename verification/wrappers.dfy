/** The optional value used wherever the source has an optional or an
    implicitly-unwrapped reference that may still be nil. */
module Wrappers {

  datatype Option<+T> = None | Some(value: T)
}
