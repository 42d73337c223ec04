/** Optional values: `None` stands for the Java `null` a lookup returns, or for a
    call that would throw because the value it reads is missing. */
module Wrappers {
  datatype Option<+T> = None | Some(value: T)
}
