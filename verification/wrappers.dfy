/** Optional values and pass/fail outcomes, used wherever the source has a
    nullable reference or a call that can throw. */
module Wrappers {

  datatype Option<+T> = None | Some(value: T)

  /** The outcome of a call that may throw part-way through. */
  datatype Outcome = Pass | Throws(reason: string)
}
