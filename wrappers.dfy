/** The optional value used for regex searches that may fail and for the
    request body's optional `messages` field. */
module Wrappers {

  datatype Option<+T> = None | Some(value: T)
}
