/** Optional values, standing for the nullable handles and pointers of the source. */
module Wrappers {

  datatype Option<+T> = None | Some(value: T)
}
