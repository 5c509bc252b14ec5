/** Optional values, standing for Java references that may be null and for
    partial operations that either yield a value or throw. */
module Wrappers {

  datatype Option<+T> = None | Some(value: T)
}
