/** Option and Result values used for optional fields and for HTTP error paths. */
module Wrappers {

  datatype Option<+T> = None | Some(value: T)

  datatype Result<+R, +E> = Success(value: R) | Failure(error: E)

  /** An HTTP error as FastAPI reports it: a status code and a detail text. */
  datatype HttpError = HttpError(code: int, detail: string)

  /** What the client receives when a handler raises anything other than an `HTTPException`. */
  const ServerError: HttpError := HttpError(500, "Internal Server Error")
}
