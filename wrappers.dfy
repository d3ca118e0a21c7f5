/** Optional values: the C# `null` of a nullable search field or reference. */
module Wrappers {

  datatype Option<+T> = None | Some(value: T)
}
