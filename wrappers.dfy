/** Optional values: `None` stands for the C# `null` / `default` a lookup can return. */
module Wrappers {

  datatype Option<+T> = None | Some(value: T)

}
