/** The optional value used for every C pointer and Go interface that may be nil. */
module Wrappers {

  datatype Option<+T> = None | Some(value: T)
}
