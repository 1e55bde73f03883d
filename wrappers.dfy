/** Option for the source's nullable values and Outcome for a call that may throw. */
module Wrappers {

  datatype Option<+T> = None | Some(value: T)

  /** Normal return, or an exception carrying the message the source would log or show. */
  datatype Outcome = Done | Threw(message: string)
}
