/** Option, Outcome and Reply wrappers used for the source's `null` results and early error returns. */
module Wrappers {

  datatype Option<+T> = None | Some(value: T)

  /** `Pass` lets a handler continue; `Fail` is the early `return res.status(...)`. */
  datatype Outcome<+E> = Pass | Fail(error: E)

  /** An HTTP error answer: status code and the `error` message of the JSON body. */
  datatype HttpError = HttpError(code: int, message: string)

  /** A handler's answer: the JSON body on success, or an HTTP error. */
  datatype Reply<+T> = Ok(value: T) | Err(error: HttpError)
}
