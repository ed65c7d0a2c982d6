/** The transaction service (project/lib/api/transactions.ts): the user's transactions newest
    first with their category joined, the same restricted to a window of days with both joins,
    and the two-write creation that inserts a transaction and then moves its account's balance. */
module Transactions {
  import opened Types
  import opened Seqs
  import Store

  /** A transaction as `getTransactions` maps it: the record and its joined category; the
      account join is fetched and dropped. */
  datatype TransactionView = TransactionView(tx: Transaction, category: Option<Category>)

  /** A transaction as the ORM returns it with `include: { category, account }`. */
  datatype JoinedTransaction = JoinedTransaction(tx: Transaction, category: Option<Category>, account: Option<Account>)

  function DateOf(t: Transaction): int { t.date }

  function RecordOf(v: TransactionView): Transaction { v.tx }

  function JoinedRecordOf(j: JoinedTransaction): Transaction { j.tx }

  function OwnedBy(userId: UserId): Transaction -> bool {
    (t: Transaction) => t.userId == userId
  }

  function WithCategory(categories: seq<Category>): Transaction -> TransactionView {
    (t: Transaction) => TransactionView(t, Store.FindCategory(categories, t.categoryId))
  }

  function WithJoins(accounts: seq<Account>, categories: seq<Category>): Transaction -> JoinedTransaction {
    (t: Transaction) => JoinedTransaction(t, Store.FindCategory(categories, t.categoryId), Store.FindAccount(accounts, t.accountId))
  }

  /** `findMany({ where: { userId }, include, orderBy: { date: 'desc' } })` mapped to views.
      `fails` stands for the query throwing; the error is swallowed and [] returned. Rows with
      the same date come in an order the store chooses; this model fixes one. */
  function GetTransactions(transactions: seq<Transaction>, categories: seq<Category>, userId: UserId, fails: bool)
    : (r: seq<TransactionView>)
    ensures fails ==> r == []
    ensures !fails ==> multiset(Map(r, RecordOf)) == multiset(Filter(transactions, OwnedBy(userId)))
    ensures SortedDesc(Map(r, RecordOf), DateOf)
    ensures forall i :: 0 <= i < |r| ==> r[i].category == Store.FindCategory(categories, r[i].tx.categoryId)
  {
    if fails then []
    else
      var rows := SortDesc(Filter(transactions, OwnedBy(userId)), DateOf);
      var r := Map(rows, WithCategory(categories));
      assert Map(r, RecordOf) == rows;
      r
  }

  /** The same query restricted to `startDate <= date <= endDate`, returned with both joins. */
  function GetTransactionsByDateRange(transactions: seq<Transaction>, accounts: seq<Account>, categories: seq<Category>,
                                      userId: UserId, startDate: Day, endDate: Day, fails: bool)
    : (r: seq<JoinedTransaction>)
    ensures fails ==> r == []
    ensures !fails ==> multiset(Map(r, JoinedRecordOf)) == multiset(Filter(transactions, Matches(userId, Window(startDate, endDate))))
    ensures SortedDesc(Map(r, JoinedRecordOf), DateOf)
    ensures forall i :: 0 <= i < |r| ==>
      r[i].category == Store.FindCategory(categories, r[i].tx.categoryId) &&
      r[i].account == Store.FindAccount(accounts, r[i].tx.accountId)
  {
    if fails then []
    else
      var rows := SortDesc(Filter(transactions, Matches(userId, Window(startDate, endDate))), DateOf);
      var r := Map(rows, WithJoins(accounts, categories));
      assert Map(r, JoinedRecordOf) == rows;
      r
  }

  /** Each row of the listing is one of the user's transactions, and each of the user's
      transactions is a row. */
  lemma ListingIsTheUsers(transactions: seq<Transaction>, categories: seq<Category>, userId: UserId, t: Transaction)
    ensures t in Map(GetTransactions(transactions, categories, userId, false), RecordOf)
      <==> t in transactions && t.userId == userId
  {
    var rows := Map(GetTransactions(transactions, categories, userId, false), RecordOf);
    FilterMember(transactions, OwnedBy(userId));
    assert t in rows <==> t in multiset(rows);
    assert t in Filter(transactions, OwnedBy(userId)) <==> t in multiset(Filter(transactions, OwnedBy(userId)));
  }

  /** The record `prisma.transaction.create` inserts: the next key, and the given date or else now. */
  function NewTransaction(key: Id, amount: int, description: string, kind: TxType, categoryId: Id, accountId: Id,
                          userId: UserId, date: Option<Day>, now: Day): Transaction
  {
    Transaction(key, amount, description, if date.Some? then date.value else now, kind, categoryId, accountId, userId)
  }

  /** The insert goes through: the store does not fail and both foreign keys resolve. */
  predicate Insertable(accounts: seq<Account>, categories: seq<Category>, categoryId: Id, accountId: Id, insertFault: bool) {
    !insertFault && Store.HasKey(accounts, Store.AccountKey, accountId) && Store.HasKey(categories, Store.CategoryKey, categoryId)
  }

  /** `createTransaction`: insert the transaction, then increment its account's balance by the
      signed amount, as two separate writes. `insertFault` and `updateFault` stand for the first
      and the second write throwing; the error propagates to the caller. When the second write
      fails the inserted transaction stays and the balance does not move. The joined account in
      the result is the one the insert read, before the increment. */
  method CreateTransaction(store: Store.Store, amount: int, description: string, kind: TxType, categoryId: Id,
                           accountId: Id, userId: UserId, date: Option<Day>, now: Day,
                           insertFault: bool, updateFault: bool)
    returns (r: Result<JoinedTransaction, StoreError>)
    requires store.Valid()
    modifies store
    ensures store.Valid()
    ensures store.categories == old(store.categories)
    ensures !Insertable(old(store.accounts), old(store.categories), categoryId, accountId, insertFault) ==>
      r == Err(if insertFault then StoreFailure else ForeignKeyViolation) && unchanged(store)
    ensures Insertable(old(store.accounts), old(store.categories), categoryId, accountId, insertFault) ==>
      && store.transactions == old(store.transactions)
           + [NewTransaction(old(store.nextKey), amount, description, kind, categoryId, accountId, userId, date, now)]
      && store.nextKey == old(store.nextKey) + 1
    ensures Insertable(old(store.accounts), old(store.categories), categoryId, accountId, insertFault) && updateFault ==>
      r == Err(StoreFailure) && store.accounts == old(store.accounts)
    ensures Insertable(old(store.accounts), old(store.categories), categoryId, accountId, insertFault) && !updateFault ==>
      && store.accounts == Store.ShiftBalance(old(store.accounts), accountId, Signed(kind, amount))
      && r == Ok(JoinedTransaction(
           NewTransaction(old(store.nextKey), amount, description, kind, categoryId, accountId, userId, date, now),
           Store.FindCategory(old(store.categories), categoryId),
           Store.FindAccount(old(store.accounts), accountId)))
  {
    if insertFault {
      return Err(StoreFailure);
    }
    var account := Store.FindAccount(store.accounts, accountId);
    var category := Store.FindCategory(store.categories, categoryId);
    if account.None? || category.None? {
      return Err(ForeignKeyViolation);
    }
    var transaction := NewTransaction(store.nextKey, amount, description, kind, categoryId, accountId, userId, date, now);
    Store.InsertTransactionConsistent(store.accounts, store.categories, store.transactions, store.nextKey, transaction);
    store.transactions := store.transactions + [transaction];
    store.nextKey := store.nextKey + 1;
    if updateFault {
      return Err(StoreFailure);
    }
    var balanceChange := if kind == Income then amount else -amount;
    Store.ShiftConsistent(store.accounts, store.categories, store.transactions, store.nextKey, accountId, balanceChange);
    store.accounts := Store.ShiftBalance(store.accounts, accountId, balanceChange);
    r := Ok(JoinedTransaction(transaction, category, account));
  }
}
