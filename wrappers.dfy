/** Optional values, standing for a nullable reference or an absent file. */
module Wrappers {

  datatype Option<+T> = None | Some(value: T)
}
