/** What a route sends back, and the store it leaves behind. */
module Responses {

  /**
   * A rejected request, by HTTP status. All but the last carry the JSON `error` text of a
   * handler's reply. `ErrorPage` is an error that never reached a handler: the server installs
   * no error middleware, so Express's default final handler answers with an HTML page, not
   * JSON; `message` is the error's own message, which that page shows outside production.
   */
  datatype ApiError =
    | BadRequest(message: string)
    | Unauthorized(message: string)
    | NotFound(message: string)
    | ServerError(message: string)
    | ErrorPage(message: string)
  {
    function Code(): nat {
      match this
      case BadRequest(_) => 400
      case Unauthorized(_) => 401
      case NotFound(_) => 404
      case ServerError(_) => 500
      case ErrorPage(_) => 500
    }
  }

  datatype Reply<+T> = Ok(value: T) | Err(error: ApiError)

  /** The store after a mutating route, together with its reply. */
  datatype Step<+S, +T> = Step(store: S, reply: Reply<T>)

  /** The text of the generic 500 reply. */
  const ServerErrorText := "Server error"
}
