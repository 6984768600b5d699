/** Optional values: a missing edit target, an unselected date, a failed parse. */
module Wrappers {

  datatype Option<+T> = None | Some(value: T)

}
