/** Optional values, standing for the nullable references and `T | null` values of the code. */
module Wrappers {

  datatype Option<+T> = None | Some(value: T)
}
