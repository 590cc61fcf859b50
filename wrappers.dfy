/** The `undefined`-or-value results of the game screen. */
module Wrappers {
  datatype Option<+T> = None | Some(value: T)
}
