/** The `/api/accounts` handlers (project/app/api/accounts/route.ts): GET lists a user's accounts;
    POST validates the body and creates an account with the given opening balance. */
module AccountsRoute {
  import opened Types
  import opened Http
  import Store
  import Accounts

  /** The POST body as the handler destructures it. The balance is None when the field is
      undefined, else the number `parseFloat` makes of it, in cents. */
  datatype AccountBody = AccountBody(name: Option<string>, balance: Option<int>, userId: Option<string>)

  /** The presence check: a falsy name or userId, or a balance that is undefined. A balance of 0
      is present, since the balance is compared with undefined rather than tested for truth. */
  predicate MissingRequired(b: AccountBody): (r: bool)
    ensures b.balance == Some(0) && Present(b.name) && Present(b.userId) ==> !r
    ensures !r ==> b.name.Some? && b.balance.Some? && b.userId.Some?
  {
    !Present(b.name) || b.balance.None? || !Present(b.userId)
  }

  /** GET: 400 without a (non-empty) userId, otherwise 200 with the listing. The listing never
      throws (it answers [] on failure), so the 500 branch is never taken. */
  function Get(accounts: seq<Account>, userId: Option<string>, fails: bool): (r: Response<seq<Accounts.AccountView>>)
    ensures r.status == 400 <==> !Present(userId)
    ensures !Present(userId) ==> r.payload == Failure(UserIdRequired)
    ensures Present(userId) ==> r.status == 200 && r.payload == Data(Accounts.GetAccounts(accounts, userId.value, fails))
    ensures r.status != 500
  {
    if !Present(userId) then BadRequest(UserIdRequired)
    else Response(200, Data(Accounts.GetAccounts(accounts, userId.value, fails)))
  }

  /** POST: 400 when a required field is missing, before any write; otherwise create the account
      with the parsed balance and answer 201 with it, or 500 when the insert throws. */
  method Post(store: Store.Store, body: AccountBody, now: int, fault: bool) returns (r: Response<Account>)
    requires store.Valid()
    modifies store
    ensures store.Valid()
    ensures r.status in {201, 400, 500}
    ensures MissingRequired(body) ==> r == BadRequest(MissingFields) && unchanged(store)
    ensures body.balance == Some(0) && Present(body.name) && Present(body.userId) ==> r.status != 400
    ensures !MissingRequired(body) && fault ==> r == ServerError() && unchanged(store)
    ensures !MissingRequired(body) && !fault ==>
      && r.status == 201
      && r.payload == Data(Account(old(store.nextKey), body.name.value, body.balance.value, body.userId.value, now))
      && store.accounts == old(store.accounts) + [r.payload.value]
      && store.categories == old(store.categories) && store.transactions == old(store.transactions)
      && store.nextKey == old(store.nextKey) + 1
  {
    if MissingRequired(body) {
      return BadRequest(MissingFields);
    }
    var created := Accounts.CreateAccount(store, body.name.value, body.balance.value, body.userId.value, now, fault);
    if created.Err? {
      return ServerError();
    }
    r := Response(201, Data(created.value));
  }
}
