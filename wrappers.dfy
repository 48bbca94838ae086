/** Small failure-carrying datatypes shared by the other modules. */
module Wrappers {

  datatype Option<+T> = None | Some(value: T)

  /** The outcome of one call into the operating system. */
  datatype IoOutcome = IoOk | IoFailed(reason: string)
}
