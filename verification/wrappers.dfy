/** JavaScript's "maybe absent" values (`undefined` / a present object). */
module Wrappers {
  datatype Option<+T> = None | Some(value: T)
}
