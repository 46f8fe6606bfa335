/** Optional values, used for a missing attribute and for an alert that may not be shown. */
module Wrappers {

  datatype Option<+T> = None | Some(value: T)
}
