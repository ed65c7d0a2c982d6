/** The `/api/transactions` handlers (project/app/api/transactions/route.ts): GET lists a user's
    transactions; POST validates the body and creates a transaction. */
module TransactionsRoute {
  import opened Types
  import opened Http
  import Store
  import Transactions

  /** The POST body as the handler destructures it. A field that is absent is None; ids and
      strings that are present are what the client sent; the amount is the number `parseFloat`
      makes of it, in cents. */
  datatype TransactionBody = TransactionBody(
    amount: Option<int>,
    description: Option<string>,
    kind: Option<string>,
    categoryId: Option<Id>,
    accountId: Option<Id>,
    userId: Option<string>,
    date: Option<Day>)

  /** The presence check: one of the six required fields is absent or falsy. Of the amounts only
      zero is falsy, so a negative amount passes. The date is optional. */
  predicate MissingRequired(b: TransactionBody): (r: bool)
    ensures b.amount == Some(0) ==> r
    ensures !r ==> && b.amount.Some? && b.description.Some? && b.kind.Some?
                   && b.categoryId.Some? && b.accountId.Some? && b.userId.Some?
  {
    || b.amount.None? || b.amount.value == 0
    || !Present(b.description) || !Present(b.kind)
    || b.categoryId.None? || b.accountId.None?
    || !Present(b.userId)
  }

  /** The type tag as the store's enum column accepts it; any other string makes the insert
      throw. The column's definition is not part of this model: the two tags are the ones the
      client's `TransactionType` names. */
  function ParseKind(s: string): (r: Option<TxType>)
    ensures r == Some(Income) <==> s == "INCOME"
    ensures r == Some(Expense) <==> s == "EXPENSE"
  {
    if s == "INCOME" then Some(Income) else if s == "EXPENSE" then Some(Expense) else None
  }

  /** GET: 400 without a (non-empty) userId, otherwise 200 with the listing. The listing never
      throws (it answers [] on failure), so the 500 branch is never taken. */
  function Get(transactions: seq<Transaction>, categories: seq<Category>, userId: Option<string>, fails: bool)
    : (r: Response<seq<Transactions.TransactionView>>)
    ensures r.status == 400 <==> !Present(userId)
    ensures !Present(userId) ==> r.payload == Failure(UserIdRequired)
    ensures Present(userId) ==> r.status == 200 && r.payload == Data(Transactions.GetTransactions(transactions, categories, userId.value, fails))
    ensures r.status != 500
  {
    if !Present(userId) then BadRequest(UserIdRequired)
    else Response(200, Data(Transactions.GetTransactions(transactions, categories, userId.value, fails)))
  }

  /** POST: 400 when a required field is missing; otherwise create the transaction (with the date
      when one is given, else `now`) and answer 201 with it, or 500 when the creation throws. A
      500 can come after the insert went through: the transaction is then stored but the account
      balance has not moved. */
  method Post(store: Store.Store, body: TransactionBody, now: Day, insertFault: bool, updateFault: bool)
    returns (r: Response<Transactions.JoinedTransaction>)
    requires store.Valid()
    modifies store
    ensures store.Valid()
    ensures store.categories == old(store.categories)
    ensures r.status in {201, 400, 500}
    ensures r.status == 400 <==> MissingRequired(body)
    ensures MissingRequired(body) ==> r == BadRequest(MissingFields) && unchanged(store)
    ensures !MissingRequired(body) && r.status != 201 ==> r == ServerError()
    ensures body.amount == Some(0) ==> r.status == 400
    ensures r.status != 201 ==> store.accounts == old(store.accounts)
    ensures r.status == 500 ==> r == ServerError()
    ensures !MissingRequired(body) && ParseKind(body.kind.value).None? ==> r == ServerError() && unchanged(store)
    ensures !MissingRequired(body) && ParseKind(body.kind.value).Some? ==>
      var tx := Transactions.NewTransaction(old(store.nextKey), body.amount.value, body.description.value,
                  ParseKind(body.kind.value).value, body.categoryId.value, body.accountId.value, body.userId.value, body.date, now);
      var inserted := Transactions.Insertable(old(store.accounts), old(store.categories), tx.categoryId, tx.accountId, insertFault);
      && (r.status == 201 <==> inserted && !updateFault)
      && (inserted ==> store.transactions == old(store.transactions) + [tx] && store.nextKey == old(store.nextKey) + 1)
      && (!inserted ==> store.transactions == old(store.transactions) && store.nextKey == old(store.nextKey))
      && (r.status == 201 ==>
            && store.accounts == Store.ShiftBalance(old(store.accounts), tx.accountId, Signed(tx.kind, tx.amount))
            && r.payload == Data(Transactions.JoinedTransaction(tx,
                 Store.FindCategory(old(store.categories), tx.categoryId), Store.FindAccount(old(store.accounts), tx.accountId))))
  {
    if MissingRequired(body) {
      return BadRequest(MissingFields);
    }
    var kind := ParseKind(body.kind.value);
    if kind.None? {
      return ServerError();
    }
    var created := Transactions.CreateTransaction(store, body.amount.value, body.description.value, kind.value,
                     body.categoryId.value, body.accountId.value, body.userId.value, body.date, now, insertFault, updateFault);
    if created.Err? {
      return ServerError();
    }
    r := Response(201, Data(created.value));
  }
}
