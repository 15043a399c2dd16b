/** An optional value: PHP's nullable values and "none found" results. */
module Wrappers {
  datatype Option<+T> = None | Some(value: T)
}
