/** The account service (project/lib/api/accounts.ts): the user's accounts newest first, account
    creation, the absolute balance update, and the total balance over the user's accounts. */
module Accounts {
  import opened Types
  import opened Seqs
  import Store

  /** An account as `getAccounts` maps it; the creation time is dropped. */
  datatype AccountView = AccountView(id: Id, name: string, balance: int, userId: UserId)

  function ViewOf(a: Account): AccountView {
    AccountView(a.id, a.name, a.balance, a.userId)
  }

  function CreatedAt(a: Account): int { a.createdAt }

  function BalanceOf(a: Account): int { a.balance }

  function ViewBalance(v: AccountView): int { v.balance }

  function OwnedBy(userId: UserId): Account -> bool {
    (a: Account) => a.userId == userId
  }

  /** The listing query: the user's accounts, newest created first. Accounts created at the same time come in an order the store chooses; this
      model fixes one. */
  function NewestFirst(accounts: seq<Account>, userId: UserId): (r: seq<Account>)
    ensures SortedDesc(r, CreatedAt)
    ensures multiset(r) == multiset(Filter(accounts, OwnedBy(userId)))
    ensures |r| == |Filter(accounts, OwnedBy(userId))|
  {
    var r := SortDesc(Filter(accounts, OwnedBy(userId)), CreatedAt);
    assert |r| == |multiset(r)|;
    r
  }

  /** `getAccounts`: the listing mapped to views; [] when the query throws (`fails`). */
  function GetAccounts(accounts: seq<Account>, userId: UserId, fails: bool): (r: seq<AccountView>)
    ensures fails ==> r == []
    ensures !fails ==> |r| == |Filter(accounts, OwnedBy(userId))|
    ensures !fails ==> forall i :: 0 <= i < |r| ==> r[i] == ViewOf(NewestFirst(accounts, userId)[i])
  {
    if fails then []
    else Map(NewestFirst(accounts, userId), ViewOf)
  }

  /** `getTotalBalance`: the balances of the user's accounts, summed; 0 when the query throws. */
  function GetTotalBalance(accounts: seq<Account>, userId: UserId, fails: bool): (r: int)
    ensures fails ==> r == 0
    ensures !fails ==> r == SumWhere(accounts, OwnedBy(userId), BalanceOf)
  {
    if fails then 0
    else
      FilterSum(accounts, OwnedBy(userId), BalanceOf);
      Sum(Filter(accounts, OwnedBy(userId)), BalanceOf)
  }

  lemma {:induction false} SumMapBalance(s: seq<Account>)
    ensures Sum(Map(s, ViewOf), ViewBalance) == Sum(s, BalanceOf)
  {
    if s != [] {
      SumMapBalance(s[1..]);
      assert Map(s, ViewOf)[1..] == Map(s[1..], ViewOf);
    }
  }

  /** The listing and the total agree: the balances the listing shows add up to the total. */
  lemma ListingAddsUpToTotal(accounts: seq<Account>, userId: UserId)
    ensures Sum(GetAccounts(accounts, userId, false), ViewBalance) == GetTotalBalance(accounts, userId, false)
  {
    var rows := NewestFirst(accounts, userId);
    assert GetAccounts(accounts, userId, false) == Map(rows, ViewOf);
    SumMapBalance(rows);
    SumPermutation(rows, Filter(accounts, OwnedBy(userId)), BalanceOf);
    FilterSum(accounts, OwnedBy(userId), BalanceOf);
  }

  /** With distinct keys, an account absent from a table is untouched by a balance update. */
  lemma {:induction false} ShiftAbsent(accounts: seq<Account>, id: Id, delta: int)
    requires !Store.HasKey(accounts, Store.AccountKey, id)
    ensures Store.ShiftBalance(accounts, id, delta) == accounts
  {
    if accounts != [] {
      assert Store.AccountKey(accounts[0]) != id;
      assert forall i :: 1 <= i < |accounts| ==> accounts[1..][i - 1] == accounts[i];
      ShiftAbsent(accounts[1..], id, delta);
      assert accounts == [accounts[0]] + accounts[1..];
    }
  }

  lemma {:induction false} SetAbsent(accounts: seq<Account>, id: Id, newBalance: int)
    requires !Store.HasKey(accounts, Store.AccountKey, id)
    ensures Store.SetBalance(accounts, id, newBalance) == accounts
  {
    if accounts != [] {
      assert Store.AccountKey(accounts[0]) != id;
      assert forall i :: 1 <= i < |accounts| ==> accounts[1..][i - 1] == accounts[i];
      SetAbsent(accounts[1..], id, newBalance);
      assert accounts == [accounts[0]] + accounts[1..];
    }
  }

  lemma TailDistinct(accounts: seq<Account>)
    requires accounts != [] && Store.DistinctKeys(accounts, Store.AccountKey)
    ensures Store.DistinctKeys(accounts[1..], Store.AccountKey)
    ensures !Store.HasKey(accounts[1..], Store.AccountKey, accounts[0].id)
  {
    assert forall i :: 1 <= i < |accounts| ==> accounts[1..][i - 1] == accounts[i];
  }

  /** Incrementing one account's balance by `delta` moves its owner's total by `delta` and no
      other user's total. */
  lemma {:induction false} TotalAfterShift(accounts: seq<Account>, id: Id, delta: int, userId: UserId)
    requires Store.DistinctKeys(accounts, Store.AccountKey)
    ensures var found := Store.FindAccount(accounts, id);
      GetTotalBalance(Store.ShiftBalance(accounts, id, delta), userId, false)
        == GetTotalBalance(accounts, userId, false) + (if found.Some? && found.value.userId == userId then delta else 0)
  {
    if accounts != [] {
      var a := accounts[0];
      TailDistinct(accounts);
      assert Store.ShiftBalance(accounts, id, delta)[1..] == Store.ShiftBalance(accounts[1..], id, delta);
      if a.id == id {
        ShiftAbsent(accounts[1..], id, delta);
      } else {
        TotalAfterShift(accounts[1..], id, delta, userId);
      }
    }
  }

  /** Setting one account's balance replaces its old balance in its owner's total. */
  lemma {:induction false} TotalAfterSet(accounts: seq<Account>, id: Id, newBalance: int, userId: UserId)
    requires Store.DistinctKeys(accounts, Store.AccountKey)
    ensures var found := Store.FindAccount(accounts, id);
      GetTotalBalance(Store.SetBalance(accounts, id, newBalance), userId, false)
        == GetTotalBalance(accounts, userId, false)
           + (if found.Some? && found.value.userId == userId then newBalance - found.value.balance else 0)
  {
    if accounts != [] {
      var a := accounts[0];
      TailDistinct(accounts);
      assert Store.SetBalance(accounts, id, newBalance)[1..] == Store.SetBalance(accounts[1..], id, newBalance);
      if a.id == id {
        SetAbsent(accounts[1..], id, newBalance);
      } else {
        TotalAfterSet(accounts[1..], id, newBalance, userId);
      }
    }
  }

  /** `createAccount`: insert an account with the given opening balance under the next key.
      `fault` stands for the insert throwing; the error propagates. */
  method CreateAccount(store: Store.Store, name: string, balance: int, userId: UserId, now: int, fault: bool)
    returns (r: Result<Account, StoreError>)
    requires store.Valid()
    modifies store
    ensures store.Valid()
    ensures store.categories == old(store.categories) && store.transactions == old(store.transactions)
    ensures fault ==> r == Err(StoreFailure) && unchanged(store)
    ensures !fault ==>
      && r == Ok(Account(old(store.nextKey), name, balance, userId, now))
      && store.accounts == old(store.accounts) + [r.value]
      && store.nextKey == old(store.nextKey) + 1
  {
    if fault {
      return Err(StoreFailure);
    }
    var account := Account(store.nextKey, name, balance, userId, now);
    Store.InsertAccountConsistent(store.accounts, store.categories, store.transactions, store.nextKey, account);
    store.accounts := store.accounts + [account];
    store.nextKey := store.nextKey + 1;
    r := Ok(account);
  }

  /** `updateAccountBalance`: set the balance to `newBalance`, whatever it was. An unknown key
      makes the update throw; `fault` stands for the store throwing. Either error propagates. */
  method UpdateAccountBalance(store: Store.Store, accountId: Id, newBalance: int, fault: bool)
    returns (r: Result<Account, StoreError>)
    requires store.Valid()
    modifies store
    ensures store.Valid()
    ensures store.categories == old(store.categories) && store.transactions == old(store.transactions)
    ensures store.nextKey == old(store.nextKey)
    ensures fault ==> r == Err(StoreFailure) && unchanged(store)
    ensures !fault && Store.FindAccount(old(store.accounts), accountId).None? ==>
      r == Err(RecordNotFound) && unchanged(store)
    ensures !fault && Store.FindAccount(old(store.accounts), accountId).Some? ==>
      && store.accounts == Store.SetBalance(old(store.accounts), accountId, newBalance)
      && r == Ok(Store.FindAccount(old(store.accounts), accountId).value.(balance := newBalance))
  {
    if fault {
      return Err(StoreFailure);
    }
    var found := Store.FindAccount(store.accounts, accountId);
    if found.None? {
      return Err(RecordNotFound);
    }
    Store.SetConsistent(store.accounts, store.categories, store.transactions, store.nextKey, accountId, newBalance);
    store.accounts := Store.SetBalance(store.accounts, accountId, newBalance);
    r := Ok(found.value.(balance := newBalance));
  }
}
