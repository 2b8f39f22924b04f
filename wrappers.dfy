/** The optional value used for nullable columns, absent request fields and
    lookups that may find nothing. */
module Wrappers {

  datatype Option<+T> = None | Some(value: T)
}
