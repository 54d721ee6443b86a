/** Optional values: the model's counterpart of `T | null | undefined`. */
module Wrappers {

  datatype Option<+T> = None | Some(value: T)
}
