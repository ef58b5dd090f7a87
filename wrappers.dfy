/** The optional value used for nullable database columns, for SQL SUMs over
    no rows, and for lookups that may fail. */
module Wrappers {
  datatype Option<+T> = None | Some(value: T)
}
