/** Optional values, for the nullable references and `?.` chains of the extension. */
module Wrappers {
  datatype Option<+T> = None | Some(value: T)
}
