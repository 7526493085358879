/** Thrown values as the TypeScript code sees them in its `catch` blocks. */
module Exceptions {

  /** A value caught by a `catch` clause: either an `Error` object, whose
      `message` the code reads, or any other value, rendered with `String(...)`. */
  datatype Thrown =
    | ErrorObject(message: string)
    | NonError(rendered: string)

  /** `error instanceof Error ? error.message : String(error)`. */
  function Detail(e: Thrown): (s: string)
    ensures e.ErrorObject? ==> s == e.message
    ensures e.NonError? ==> s == e.rendered
  {
    match e
    case ErrorObject(m) => m
    case NonError(r) => r
  }

  /** NestJS `HttpException(message, status)`: an `Error` whose message is the
      given string and which carries an HTTP status code. */
  datatype HttpException = HttpException(message: string, status: int)

  const BadRequest := 400
  const InternalServerError := 500

  /** An `HttpException` is an `Error`: caught, it shows its message. */
  function AsThrown(e: HttpException): (t: Thrown)
    ensures t.ErrorObject? && Detail(t) == e.message
  {
    ErrorObject(e.message)
  }
}
