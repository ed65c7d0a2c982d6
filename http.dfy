/** The HTTP vocabulary shared by the route handlers and the client hooks: a JSON payload that is
    either data or an `{ error }` envelope, a status code, and what `fetch` hands a client. */
module Http {

  /** A response body: the data, or `{ error: message }`. */
  datatype Payload<+T> = Data(value: T) | Failure(message: string)

  datatype Response<+T> = Response(status: int, payload: Payload<T>)

  const UserIdRequired: string := "User ID is required"
  const MissingFields: string := "Missing required fields"
  const InternalError: string := "Internal server error"

  /** `response.ok`. */
  predicate IsOk(status: int) {
    200 <= status <= 299
  }

  function BadRequest<T>(message: string): Response<T> {
    Response(400, Failure(message))
  }

  function ServerError<T>(): Response<T> {
    Response(500, Failure(InternalError))
  }

  /** What a client's `fetch` followed by `response.json()` yields: a successful response's data,
      an unsuccessful response with its error envelope, or a rejection (network failure, body
      not JSON) carrying the Error's message. */
  datatype Reply<+T> = Success(data: T) | HttpError(status: int, message: string) | Rejected(reason: string)

  /** The reply a client receives for a response. */
  function ReplyOf<T>(r: Response<T>): (reply: Reply<T>)
    ensures reply.Success? <==> IsOk(r.status) && r.payload.Data?
  {
    if IsOk(r.status) && r.payload.Data? then Success(r.payload.value)
    else if r.payload.Failure? then HttpError(r.status, r.payload.message)
    else HttpError(r.status, "")
  }
}
