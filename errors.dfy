/** The errors construction can return (error.go, and the file-system errors passed through). */
module Errors {

  datatype Error =
    | ErrInvalidLevel
      /** An error of the file system, carrying its message. */
    | IoError(reason: string)

  function Message(e: Error): string {
    match e
    case ErrInvalidLevel => "invalid logging level"
    case IoError(reason) => reason
  }
}
