/** The balance invariant an account is meant to keep: a balance is the opening balance plus
    the signed amounts of the transactions posted against the account (income positive, expense
    negative). Transaction creation keeps it when both of its writes go through; when only the
    insert goes through, it is broken. */
module Ledger {
  import opened Types
  import opened Seqs
  import Store

  function SignedAmount(t: Transaction): int {
    Signed(t.kind, t.amount)
  }

  function OnAccount(id: Id): Transaction -> bool {
    (t: Transaction) => t.accountId == id
  }

  /** The signed amounts posted against account `id`. */
  function Posted(transactions: seq<Transaction>, id: Id): int {
    SumWhere(transactions, OnAccount(id), SignedAmount)
  }

  /** Every account's balance is its opening balance plus what was posted against it. */
  predicate Balanced(accounts: seq<Account>, transactions: seq<Transaction>, opening: map<Id, int>) {
    forall i :: 0 <= i < |accounts| ==>
      accounts[i].id in opening && accounts[i].balance == opening[accounts[i].id] + Posted(transactions, accounts[i].id)
  }

  lemma PostedAppend(transactions: seq<Transaction>, t: Transaction, id: Id)
    ensures Posted(transactions + [t], id) == Posted(transactions, id) + (if t.accountId == id then SignedAmount(t) else 0)
  {
    SumWhereConcat(transactions, [t], OnAccount(id), SignedAmount);
    assert [t][1..] == [];
  }

  /** Both writes of a transaction creation keep the ledger balanced: the insert adds the
      transaction and the increment moves its account by the signed amount. */
  lemma PostingKeepsBalanced(accounts: seq<Account>, transactions: seq<Transaction>, opening: map<Id, int>, t: Transaction)
    requires Balanced(accounts, transactions, opening)
    ensures Balanced(Store.ShiftBalance(accounts, t.accountId, SignedAmount(t)), transactions + [t], opening)
  {
    forall i | 0 <= i < |accounts| {
      PostedAppend(transactions, t, accounts[i].id);
    }
  }

  /** The insert alone breaks the ledger: when the increment fails after the insert, the
      account's balance misses the transaction's amount. */
  lemma InsertAloneUnbalances(accounts: seq<Account>, transactions: seq<Transaction>, opening: map<Id, int>, t: Transaction)
    requires Balanced(accounts, transactions, opening)
    requires Store.HasKey(accounts, Store.AccountKey, t.accountId) && t.amount != 0
    ensures !Balanced(accounts, transactions + [t], opening)
  {
    var i :| 0 <= i < |accounts| && Store.AccountKey(accounts[i]) == t.accountId;
    PostedAppend(transactions, t, accounts[i].id);
  }

  /** No transaction refers to `id`, so nothing is posted against it. */
  lemma {:induction false} NothingPosted(transactions: seq<Transaction>, id: Id)
    requires forall i :: 0 <= i < |transactions| ==> transactions[i].accountId != id
    ensures Posted(transactions, id) == 0
  {
    if transactions != [] {
      assert forall i :: 1 <= i < |transactions| ==> transactions[1..][i - 1] == transactions[i];
      NothingPosted(transactions[1..], id);
    }
  }

  /** Creating an account under a fresh key keeps the ledger balanced, its opening balance being
      the balance it was created with. */
  lemma OpeningKeepsBalanced(accounts: seq<Account>, categories: seq<Category>, transactions: seq<Transaction>,
                             next: Id, opening: map<Id, int>, a: Account)
    requires Store.Consistent(accounts, categories, transactions, next)
    requires Balanced(accounts, transactions, opening)
    requires a.id == next
    ensures Balanced(accounts + [a], transactions, opening[a.id := a.balance])
  {
    forall i | 0 <= i < |transactions| ensures transactions[i].accountId != a.id {
      assert Store.HasKey(accounts, Store.AccountKey, transactions[i].accountId);
      var j :| 0 <= j < |accounts| && Store.AccountKey(accounts[j]) == transactions[i].accountId;
    }
    NothingPosted(transactions, a.id);
    var s := accounts + [a];
    assert forall i :: 0 <= i < |accounts| ==> s[i] == accounts[i] && accounts[i].id != a.id;
  }
}
