/** The optional value the lookups and the row parser produce: Python's `None` or a value. */
module Wrappers {

  datatype Option<+T> = None | Some(value: T)
}
