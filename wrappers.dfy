/** The optional value used for a record's upload speed and for the items of the iterator. */
module Wrappers {

  datatype Option<T> = None | Some(value: T)
}
