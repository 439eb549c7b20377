/** Optional values, used for Java's nullable references and for NaN. */
module Wrappers {
  datatype Option<+T> = None | Some(value: T)
}
