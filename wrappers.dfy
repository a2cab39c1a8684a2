/** Optional values: an empty `Mono` is `None`. */
module Wrappers {

  datatype Option<+T> = None | Some(value: T)

  /** The outcome of a call that may be refused with a message (Kotlin's `require`). */
  datatype Outcome = Pass | Fail(message: string)
}
