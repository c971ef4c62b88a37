/** What a `fetch` call in a `try` block can come to, seen from the component. */
module Http {

  /** A value that reached a `catch (err)`: an `Error` object with its message, or anything else. */
  datatype Thrown = ErrorObject(message: string) | NonError

  /**
   * The outcome of one request: an ok response whose JSON body decoded to `body`, a response
   * whose `ok` flag is false, or an exception (network failure, JSON decoding failure).
   */
  datatype Response<T> = Ok(body: T) | NotOk | Threw(thrown: Thrown)

  /**
   * The message a handler shows for a failed request, when it converts `!response.ok` into
   * `throw new Error(notOkMessage)` and its `catch` reads `err instanceof Error ? err.message : unknownMessage`.
   */
  function CaughtMessage<T>(r: Response<T>, notOkMessage: string, unknownMessage: string): string
    requires !r.Ok?
  {
    match r
    case NotOk => notOkMessage
    case Threw(ErrorObject(message)) => message
    case Threw(NonError) => unknownMessage
  }
}
