/** The client's account cache (project/lib/hooks/useAccounts.ts): the list, the loading flag and
    the error message, the load the hook runs for its user, `addAccount`, `refetch`, and the
    total balance over the cached accounts. The network is a parameter: each method receives
    the reply its fetch got. */
module UseAccounts {
  import opened Types
  import opened Seqs
  import opened Http
  import Accounts
  import AccountsRoute

  const FetchFailed: string := "Failed to fetch accounts"
  const CreateFailed: string := "Failed to create account"

  /** The sum of the balances of a list of account rows, 0 for none. */
  function Total(rows: seq<Accounts.AccountView>): int {
    Sum(rows, Accounts.ViewBalance)
  }

  /** Appending a row moves the total by that row's balance. */
  lemma TotalAppend(rows: seq<Accounts.AccountView>, row: Accounts.AccountView)
    ensures Total(rows + [row]) == Total(rows) + row.balance
  {
    SumConcat(rows, [row], Accounts.ViewBalance);
    SumSingleton(row, Accounts.ViewBalance);
  }

  /** A freshly loaded listing totals what the server's total balance answers for the user. */
  lemma LoadedTotalIsServerTotal(accounts: seq<Account>, userId: UserId)
    ensures Total(Accounts.GetAccounts(accounts, userId, false)) == Accounts.GetTotalBalance(accounts, userId, false)
  {
    Accounts.ListingAddsUpToTotal(accounts, userId);
  }

  class AccountsHook {
    const userId: Option<string>
    var accounts: seq<Accounts.AccountView>
    var loading: bool
    var error: Option<string>

    /** The initial state: no rows, loading, no error. */
    constructor (userId: Option<string>)
      ensures this.userId == userId
      ensures accounts == [] && loading && error == None
    {
      this.userId := userId;
      accounts := [];
      loading := true;
      error := None;
    }

    /** `totalBalance`: the cached accounts' balances, summed. */
    function TotalBalance(): (r: int)
      reads this
      ensures accounts == [] ==> r == 0
    {
      Total(accounts)
    }

    /** The load the hook runs for its user. Without a (non-empty) userId nothing is fetched and
        only the loading flag drops. Otherwise a successful reply replaces the list; a non-ok
        response records `FetchFailed` and a rejection its own message, the list kept. Loading
        ends false either way; an earlier error is not cleared by a success. */
    method Load(reply: Reply<seq<Accounts.AccountView>>)
      modifies this
      ensures !loading
      ensures !Present(userId) ==> accounts == old(accounts) && error == old(error)
      ensures Present(userId) && reply.Success? ==> accounts == reply.data && error == old(error)
      ensures Present(userId) && reply.HttpError? ==> accounts == old(accounts) && error == Some(FetchFailed)
      ensures Present(userId) && reply.Rejected? ==> accounts == old(accounts) && error == Some(reply.reason)
    {
      if !Present(userId) {
        loading := false;
        return;
      }
      loading := true;
      match reply {
        case Success(data) =>
          accounts := data;
        case HttpError(_, _) =>
          error := Some(FetchFailed);
        case Rejected(reason) =>
          error := Some(reason);
      }
      loading := false;
    }

    /** `addAccount`: the body sent is the given data with its userId replaced by the hook's. A
        successful reply's account goes at the end of the list, moving the total balance by its
        balance, and is returned; a non-ok response fails with `CreateFailed` and a rejection
        with its own message, the list kept. */
    method Add(data: AccountsRoute.AccountBody, reply: Reply<Account>)
      returns (sent: AccountsRoute.AccountBody, r: Result<Account, string>)
      modifies this
      ensures sent == data.(userId := userId)
      ensures loading == old(loading) && error == old(error)
      ensures reply.Success? ==>
        && r == Ok(reply.data)
        && accounts == old(accounts) + [Accounts.ViewOf(reply.data)]
        && TotalBalance() == old(TotalBalance()) + reply.data.balance
      ensures reply.HttpError? ==> r == Err(CreateFailed) && accounts == old(accounts)
      ensures reply.Rejected? ==> r == Err(reply.reason) && accounts == old(accounts)
    {
      sent := data.(userId := userId);
      match reply {
        case Success(created) =>
          TotalAppend(accounts, Accounts.ViewOf(created));
          accounts := accounts + [Accounts.ViewOf(created)];
          r := Ok(created);
        case HttpError(_, _) =>
          r := Err(CreateFailed);
        case Rejected(reason) =>
          r := Err(reason);
      }
    }

    /** `refetch`, with the `response.ok` check its load has: nothing happens without a
        (non-empty) userId; otherwise a successful reply replaces the list and any other reply
        leaves it. Loading and error are not touched. */
    method Refetch(reply: Reply<seq<Accounts.AccountView>>)
      modifies this
      ensures loading == old(loading) && error == old(error)
      ensures Present(userId) && reply.Success? ==> accounts == reply.data
      ensures !(Present(userId) && reply.Success?) ==> accounts == old(accounts)
    {
      if Present(userId) && reply.Success? {
        accounts := reply.data;
      }
    }
  }
}
