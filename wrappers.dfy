/** Option and outcome values shared by the modules of this model. */
module Wrappers {

  /** A value that may be absent: `null`/`undefined` on the TypeScript side. */
  datatype Option<+T> = None | Some(value: T)

  /** What an awaited external call (a save, a file write, a runtime primitive)
      did: it resolved, or it rejected with a message. */
  datatype Outcome = Pass | Fail(message: string)
}
