/**
 * What a network call hands back to the stores. The backend answers with a
 * JSON envelope `{success, message, data, pagination?}`; the transport either
 * delivers a 2xx response or raises an error that may carry an HTTP status
 * (none for a network failure).
 */
module Http {
  import opened Common

  datatype PageInfo = PageInfo(currentPage: Option<int>, totalPages: Option<int>, totalRecords: Option<int>)

  datatype Envelope<T> = Envelope(success: bool, message: Option<string>, data: Option<T>, pagination: Option<PageInfo>)

  /** A transport error: `error.response?.status` and `error.message`. */
  datatype HttpError = HttpError(status: Option<int>, message: string)

  /** One server exchange, given to the model as an input. */
  datatype Outcome<T> = Reply(status: int, body: T) | Failure(error: HttpError)

  /** JavaScript `x || d` on an optional number: absent and 0 are falsy. */
  function NumOr(x: Option<int>, d: int): int {
    if x.Some? && x.value != 0 then x.value else d
  }
}
