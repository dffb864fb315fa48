/** The optional value used throughout the model: a detected column index,
    a parsed timestamp, the bounds of a date range. */
module Wrappers {

  datatype Option<+T> = None | Some(value: T)
}
