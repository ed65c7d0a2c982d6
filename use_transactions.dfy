/** The client's transaction cache (project/lib/hooks/useTransactions.ts): the list, the loading
    flag and the error message, the load the hook runs for its user, `addTransaction`, and
    `refetch`. The network is a parameter: each method receives the reply its fetch got. */
module UseTransactions {
  import opened Types
  import opened Http
  import Transactions
  import TransactionsRoute

  const FetchFailed: string := "Failed to fetch transactions"
  const CreateFailed: string := "Failed to create transaction"

  /** The row a created transaction becomes in the cache: the record and its category. */
  function RowOf(j: Transactions.JoinedTransaction): Transactions.TransactionView {
    Transactions.TransactionView(j.tx, j.category)
  }

  class TransactionsHook {
    const userId: Option<string>
    var transactions: seq<Transactions.TransactionView>
    var loading: bool
    var error: Option<string>

    /** The initial state: no rows, loading, no error. */
    constructor (userId: Option<string>)
      ensures this.userId == userId
      ensures transactions == [] && loading && error == None
    {
      this.userId := userId;
      transactions := [];
      loading := true;
      error := None;
    }

    /** The load the hook runs for its user. Without a (non-empty) userId nothing is fetched and
        only the loading flag drops. Otherwise a successful reply replaces the list; a non-ok
        response records `FetchFailed` and a rejection its own message, the list kept. Loading
        ends false either way; an earlier error is not cleared by a success. */
    method Load(reply: Reply<seq<Transactions.TransactionView>>)
      modifies this
      ensures !loading
      ensures !Present(userId) ==> transactions == old(transactions) && error == old(error)
      ensures Present(userId) && reply.Success? ==> transactions == reply.data && error == old(error)
      ensures Present(userId) && reply.HttpError? ==> transactions == old(transactions) && error == Some(FetchFailed)
      ensures Present(userId) && reply.Rejected? ==> transactions == old(transactions) && error == Some(reply.reason)
    {
      if !Present(userId) {
        loading := false;
        return;
      }
      loading := true;
      match reply {
        case Success(data) =>
          transactions := data;
        case HttpError(_, _) =>
          error := Some(FetchFailed);
        case Rejected(reason) =>
          error := Some(reason);
      }
      loading := false;
    }

    /** `addTransaction`: the body sent is the given data with its userId replaced by the
        hook's. A successful reply's row goes in front of the list and is returned; a non-ok
        response fails with `CreateFailed` and a rejection with its own message, the list kept. */
    method Add(data: TransactionsRoute.TransactionBody, reply: Reply<Transactions.JoinedTransaction>)
      returns (sent: TransactionsRoute.TransactionBody, r: Result<Transactions.JoinedTransaction, string>)
      modifies this
      ensures sent == data.(userId := userId)
      ensures loading == old(loading) && error == old(error)
      ensures reply.Success? ==> r == Ok(reply.data) && transactions == [RowOf(reply.data)] + old(transactions)
      ensures reply.HttpError? ==> r == Err(CreateFailed) && transactions == old(transactions)
      ensures reply.Rejected? ==> r == Err(reply.reason) && transactions == old(transactions)
    {
      sent := data.(userId := userId);
      match reply {
        case Success(created) =>
          transactions := [RowOf(created)] + transactions;
          r := Ok(created);
        case HttpError(_, _) =>
          r := Err(CreateFailed);
        case Rejected(reason) =>
          r := Err(reason);
      }
    }

    /** `refetch`, with the `response.ok` check its load has: nothing happens without a
        (non-empty) userId; otherwise a successful reply replaces the list and any other reply
        leaves it. Loading and error are not touched. */
    method Refetch(reply: Reply<seq<Transactions.TransactionView>>)
      modifies this
      ensures loading == old(loading) && error == old(error)
      ensures Present(userId) && reply.Success? ==> transactions == reply.data
      ensures !(Present(userId) && reply.Success?) ==> transactions == old(transactions)
    {
      if Present(userId) && reply.Success? {
        transactions := reply.data;
      }
    }
  }
}
