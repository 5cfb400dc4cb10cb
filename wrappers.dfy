/** The optional value used where the request's converters may have no answer. */
module Wrappers {

  datatype Option<+T> = None | Some(value: T)
}
