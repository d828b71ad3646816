/** An optional value: the model's stand-in for `T | null` and `T | undefined`. */
module Opt {
  datatype Option<+T> = None | Some(value: T)
}
