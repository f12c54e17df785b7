/** The optional value used for PHP's nullable parameters. */
module Wrappers {
  datatype Option<+T> = None | Some(value: T)
}
