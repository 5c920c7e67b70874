/** Error values and the two shapes in which the modelled Go code returns them. */
module Errors {

  /** Go's `error` return: `None` stands for `nil`. */
  datatype Option<+T> = None | Some(value: T)

  /** A Go `(T, error)` pair. The value beside a non-nil error is kept, because
      the source returns a specific one (-1, 0, "" or false) on each error path. */
  datatype Returns<+T> = Returns(value: T, err: Option<Error>)

  /** The outcome of a read from the cluster API (Get, List): either the object
      read, or a transport error. */
  datatype Fetch<+T> = Fetched(value: T) | FetchFailed(error: Error)

  /** The errors the modelled code creates, one variant per `fmt.Errorf`,
      `errors.Wrapf` or `strconv` failure; `External` stands for an error
      produced by code outside the model (API transport, client creation, the
      kill-count functions, pod deletion). */
  datatype Error =
    | External(reason: string)
    | Syntax(text: string)
    | MissingLabel(kind: string, name: string, key: string)
    | InvalidLabelValue(key: string, value: int)
    | NotEnrolled(kind: string, name: string)
    | Blacklisted(kind: string, name: string)
    | NotWhitelisted(kind: string, name: string)
    | KillTypeCheckFailed(kind: string, name: string, cause: Error)
    | KillValueCheckFailed(kind: string, name: string, cause: Error)
    | UnrecognizedKillType(kind: string, name: string)
}
