/** The optional value used where the source stores `None` or a missing key. */
module Wrappers {

  datatype Option<+T> = None | Some(value: T)
}
