/** The optional value used for attribute lookups that may find nothing and for
    orbit computations that may fail. */
module Wrappers {

  datatype Option<+T> = None | Some(value: T)
}
