/** Kotlin's nullable references (`Driver?`), as an explicit option type. */
module Wrappers {

  datatype Option<+T> = None | Some(value: T)
}
