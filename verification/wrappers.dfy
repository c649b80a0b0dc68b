/** A value that may be missing: pandas' NaN for an indicator still warming up. */
module Wrappers {
  datatype Option<+T> = None | Some(value: T)
}
