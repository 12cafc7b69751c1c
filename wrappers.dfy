/** The optional value used for nullable database columns and for
    Python's `None`. */
module Wrappers {

  datatype Option<+T> = None | Some(value: T)
}
