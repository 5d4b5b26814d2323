/** Failure values shared by every component: an optional value, a value-or-error result, and
    the error chain that Go builds with `fmt.Errorf` wrapping. */
module Outcomes {

  datatype Option<+T> = None | Some(value: T)

  datatype Result<+T> = Ok(value: T) | Err(error: Error)

  /** An error value. `Failed` is an error produced by an external collaborator (Docker, a
      download, a command); `Wrapped` is `fmt.Errorf(prefix + "%v" + suffix, cause)`;
      `Plain` is a message with no cause. */
  datatype Error =
    | Failed(origin: string)
    | Wrapped(prefix: string, cause: Error, suffix: string)
    | Plain(text: string)

  /** The message `err.Error()` prints. */
  function Message(e: Error): string
  {
    match e
    case Failed(origin) => origin
    case Wrapped(prefix, cause, suffix) => prefix + Message(cause) + suffix
    case Plain(text) => text
  }
}
