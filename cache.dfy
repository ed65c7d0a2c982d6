/** The `refetch` rule both client hooks (project/lib/hooks/useTransactions.ts and
    project/lib/hooks/useAccounts.ts) share, as written. The initial load checks `response.ok`
    before storing a body; `refetch` stores whatever body comes back. The hook classes use the
    corrected rule, which keeps the list unless the reply is a success, as the load does. */
module Cache {
  import opened Types
  import opened Http

  /** What a hook's list state holds once a response's body has been stored in it: a list of
      rows, or an `{ error }` envelope that is not one. */
  datatype Contents<+T> = Rows(rows: seq<T>) | Envelope(message: string)

  /** `refetch` as written: the body is stored, ok or not; a rejection is logged and the list
      kept. */
  function RefetchedAsWritten<T>(cache: seq<T>, reply: Reply<seq<T>>): (r: Contents<T>)
    ensures r.Rows? <==> !reply.HttpError?
  {
    match reply
    case Success(data) => Rows(data)
    case HttpError(_, message) => Envelope(message)
    case Rejected(_) => Rows(cache)
  }

  /** A refetch answered 400 with the `{ error }` envelope (a userId the query string swallows,
      such as one starting with `#`) replaces the list with the envelope, which is not a list. */
  lemma RefetchStoresEnvelope<T>(cache: seq<T>)
    ensures RefetchedAsWritten(cache, ReplyOf<seq<T>>(BadRequest(UserIdRequired))) == Envelope(UserIdRequired)
  {
    assert ReplyOf<seq<T>>(BadRequest(UserIdRequired)) == HttpError(400, UserIdRequired);
  }

  /** The written refetch leaves the list the load would leave (the reply's rows on success, the
      old list otherwise) exactly when the reply is not an HTTP error. */
  lemma AsWrittenDiffersOnHttpError<T>(cache: seq<T>, reply: Reply<seq<T>>)
    ensures RefetchedAsWritten(cache, reply) == Rows(if reply.Success? then reply.data else cache)
      <==> !reply.HttpError?
  {
  }
}
