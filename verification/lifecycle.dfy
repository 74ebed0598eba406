/** Vocabulary shared by every lifecycle-managed object: the lifecycle states,
    the result of a controller call, and an optional value for the mailbox. */
module Lifecycle {

  /** The lifecycle states, in the order the interface declares them.
      `Initialized` is declared but no operation ever stores it. */
  datatype LifecycleState =
    | Uninitialized
    | Initialized
    | Paused
    | Resume
    | Running
    | Shutdown

  /** The result of a controller call: success, or failure with a human-readable reason. */
  datatype Outcome = Ok | Err(reason: string)

  /** A value that may be absent; the configuration mailbox holds one of these. */
  datatype Option<T> = None | Some(value: T)
}
