/** Optional values: an absent query parameter, an anonymous caller, a missing annotation. */
module Wrappers {

  datatype Option<+T> = None | Some(value: T)

}
