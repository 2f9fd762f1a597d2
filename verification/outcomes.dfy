/** Failure-carrying values shared by every module, and the two kinds of
    error the service raises: a plain JavaScript `Error` and the service's
    `RouteError`, which carries the HTTP status the client is answered with. */
module Outcomes {

  datatype Option<+T> = None | Some(value: T)

  datatype Result<+T, +E> = Ok(value: T) | Err(error: E)

  datatype Outcome<+E> = Pass | Fail(error: E)

  /** HTTP status codes the service answers with. */
  const StatusOk := 200
  const StatusBadRequest := 400
  const StatusServerError := 500

  datatype Error =
    | PlainError(message: string)
    | RouteError(status: int, message: string)

  /** The JavaScript truthiness of an optional request field: absent and
      the empty string are both falsy. */
  predicate Truthy(field: Option<string>) {
    field.Some? && field.value != ""
  }
}
