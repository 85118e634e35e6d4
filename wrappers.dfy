/** Optional values: an absent JSON field, an absent route, a request that was not sent. */
module Wrappers {

  datatype Option<+T> = None | Some(value: T)
}
