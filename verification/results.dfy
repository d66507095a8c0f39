/** Wrappers shared by the ledger modules. */
module Results {

  /** A value that may be absent: JavaScript's `null`/`undefined` versus a present value. */
  datatype Option<+T> = None | Some(value: T)

  /** The outcome of a command handler: the new value, or the message the
      handler shows in its alert before returning without touching the state. */
  datatype Result<+T> = Ok(value: T) | Err(message: string)
}
