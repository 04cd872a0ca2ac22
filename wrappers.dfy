/** Optional values: `None` stands for a Java `null` or an empty `Optional`. */
module Wrappers {

  datatype Option<+T> = None | Some(value: T)
}
