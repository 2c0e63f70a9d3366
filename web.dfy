/** The browser-side values the client code passes around. */
module Web {

  /** A browser `File`: its name, its byte size and its MIME type (`""` when the browser does not know it). */
  datatype File = File(name: string, size: nat, mimeType: string)

  /**
   * A value thrown in the client. `ApiError` is the class declared in lib/api.ts
   * (a status and a message); `TypeError` is what `fetch` rejects with when no
   * response arrives, and what reading a member of `null` throws; `SyntaxError` is
   * what `response.json()` rejects with on a body that is not JSON; `PlainError`
   * is `new Error(message)`.
   */
  datatype JsError =
    | ApiError(status: int, message: string)
    | TypeError
    | SyntaxError
    | PlainError(message: string)

  /** How a promise settles. */
  datatype Settled<+T> = Fulfilled(value: T) | Rejected(error: JsError)
}
