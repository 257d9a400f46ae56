/** Values shared by the backend and the client: optional and failable results,
    the HTTP error the backend raises, and the chat entry it stores and returns. */
module Common {

  datatype Option<+T> = None | Some(value: T) {
    function GetOr(default: T): T {
      match this
      case Some(v) => v
      case None => default
    }
  }

  datatype Result<+T, +E> = Ok(value: T) | Err(error: E)

  /** An `HTTPException(status_code, detail)` raised by a route. */
  datatype HttpError = HttpError(status: int, detail: string)

  /** An exception a route does not catch: FastAPI answers 500 with a plain-text
      body, which has no `detail` for the client to show. */
  const Unhandled := HttpError(500, "")

  /** One stored conversation turn: `{question, answer, timestamp}`. */
  datatype ChatEntry = ChatEntry(question: string, answer: string, timestamp: string)
}
