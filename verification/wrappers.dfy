/** The optional value used for every step of the upload that may fail. */
module Wrappers {

  datatype Option<+T> = None | Some(value: T)

}
