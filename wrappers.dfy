/** The optional value used throughout the model: None stands for Python's None and pandas' NaN. */
module Wrappers {

  datatype Option<+T> = None | Some(value: T)
}
