/** The persistence gateway: the four tables the services read and write, held in memory.
    Reads are functions of the table contents; writes are the services' methods, which
    reassign the tables of a `Store`. */
module Store {
  import opened Types

  function AccountKey(a: Account): Id { a.id }
  function CategoryKey(c: Category): Id { c.id }
  function TransactionKey(t: Transaction): Id { t.id }

  /** Some record of `s` has key `id`. */
  predicate HasKey<T>(s: seq<T>, key: T -> Id, id: Id) {
    exists i :: 0 <= i < |s| && key(s[i]) == id
  }

  /** The first record whose key is `id`: what a `where: { id }` lookup or an `include` join finds. */
  function FindById<T>(s: seq<T>, key: T -> Id, id: Id): (r: Option<T>)
    ensures r.Some? <==> HasKey(s, key, id)
    ensures r.Some? ==> r.value in s && key(r.value) == id
  {
    if s == [] then None
    else if key(s[0]) == id then Some(s[0])
    else
      var r := FindById(s[1..], key, id);
      assert forall i :: 1 <= i < |s| ==> s[i] == s[1..][i - 1];
      r
  }

  function FindAccount(accounts: seq<Account>, id: Id): Option<Account> {
    FindById(accounts, AccountKey, id)
  }

  function FindCategory(categories: seq<Category>, id: Id): Option<Category> {
    FindById(categories, CategoryKey, id)
  }

  /** Every key is below `next`, the key the store hands out next. */
  predicate KeysBelow<T>(s: seq<T>, key: T -> Id, next: Id) {
    forall i :: 0 <= i < |s| ==> key(s[i]) < next
  }

  predicate DistinctKeys<T>(s: seq<T>, key: T -> Id) {
    forall i, j :: 0 <= i < j < |s| ==> key(s[i]) != key(s[j])
  }

  /** The increment update: every account with key `id` moves by `delta`. */
  function ShiftBalance(accounts: seq<Account>, id: Id, delta: int): (r: seq<Account>)
    ensures |r| == |accounts|
    ensures forall i :: 0 <= i < |r| ==>
      r[i] == if accounts[i].id == id then accounts[i].(balance := accounts[i].balance + delta) else accounts[i]
  {
    if accounts == [] then []
    else
      var a := accounts[0];
      [if a.id == id then a.(balance := a.balance + delta) else a] + ShiftBalance(accounts[1..], id, delta)
  }

  /** The absolute update: every account with key `id` gets `newBalance`. */
  function SetBalance(accounts: seq<Account>, id: Id, newBalance: int): (r: seq<Account>)
    ensures |r| == |accounts|
    ensures forall i :: 0 <= i < |r| ==>
      r[i] == if accounts[i].id == id then accounts[i].(balance := newBalance) else accounts[i]
  {
    if accounts == [] then []
    else
      var a := accounts[0];
      [if a.id == id then a.(balance := newBalance) else a] + SetBalance(accounts[1..], id, newBalance)
  }

  /** Rewriting balances keeps every key where it was. */
  lemma ShiftKeepsKeys(accounts: seq<Account>, id: Id, delta: int)
    ensures forall k :: HasKey(ShiftBalance(accounts, id, delta), AccountKey, k) <==> HasKey(accounts, AccountKey, k)
    ensures forall i :: 0 <= i < |accounts| ==> ShiftBalance(accounts, id, delta)[i].id == accounts[i].id
  {
    var r := ShiftBalance(accounts, id, delta);
    forall k ensures HasKey(r, AccountKey, k) <==> HasKey(accounts, AccountKey, k) {
      if HasKey(accounts, AccountKey, k) {
        var i :| 0 <= i < |accounts| && accounts[i].id == k;
        assert AccountKey(r[i]) == k;
      }
      if HasKey(r, AccountKey, k) {
        var i :| 0 <= i < |r| && r[i].id == k;
        assert AccountKey(accounts[i]) == k;
      }
    }
  }

  lemma SetKeepsKeys(accounts: seq<Account>, id: Id, newBalance: int)
    ensures forall k :: HasKey(SetBalance(accounts, id, newBalance), AccountKey, k) <==> HasKey(accounts, AccountKey, k)
    ensures forall i :: 0 <= i < |accounts| ==> SetBalance(accounts, id, newBalance)[i].id == accounts[i].id
  {
    var r := SetBalance(accounts, id, newBalance);
    forall k ensures HasKey(r, AccountKey, k) <==> HasKey(accounts, AccountKey, k) {
      if HasKey(accounts, AccountKey, k) {
        var i :| 0 <= i < |accounts| && accounts[i].id == k;
        assert AccountKey(r[i]) == k;
      }
      if HasKey(r, AccountKey, k) {
        var i :| 0 <= i < |r| && r[i].id == k;
        assert AccountKey(accounts[i]) == k;
      }
    }
  }

  /** After an increment, a lookup of the incremented key sees the old balance plus `delta`;
      a lookup of any other key sees what it saw before. */
  lemma {:induction false} FindAfterShift(accounts: seq<Account>, id: Id, delta: int, k: Id)
    ensures k != id ==> FindAccount(ShiftBalance(accounts, id, delta), k) == FindAccount(accounts, k)
    ensures k == id ==> FindAccount(ShiftBalance(accounts, id, delta), k).Some? == FindAccount(accounts, k).Some?
    ensures k == id && FindAccount(accounts, k).Some? ==>
      FindAccount(ShiftBalance(accounts, id, delta), k).value
        == FindAccount(accounts, k).value.(balance := FindAccount(accounts, k).value.balance + delta)
  {
    if accounts != [] {
      var a, r, t := accounts[0], ShiftBalance(accounts, id, delta), ShiftBalance(accounts[1..], id, delta);
      assert r == [r[0]] + t;
      assert r[1..] == t;
      if a.id == k {
        assert FindAccount(accounts, k) == Some(a);
        assert FindAccount(r, k) == Some(r[0]);
      } else {
        FindAfterShift(accounts[1..], id, delta, k);
      }
    }
  }

  /** After an absolute update, a lookup of the updated key sees `newBalance`, whatever the
      balance was; a lookup of any other key sees what it saw before. */
  lemma {:induction false} FindAfterSet(accounts: seq<Account>, id: Id, newBalance: int, k: Id)
    ensures k != id ==> FindAccount(SetBalance(accounts, id, newBalance), k) == FindAccount(accounts, k)
    ensures k == id ==> FindAccount(SetBalance(accounts, id, newBalance), k).Some? == FindAccount(accounts, k).Some?
    ensures k == id && FindAccount(accounts, k).Some? ==>
      FindAccount(SetBalance(accounts, id, newBalance), k).value
        == FindAccount(accounts, k).value.(balance := newBalance)
  {
    if accounts != [] {
      var a, r, t := accounts[0], SetBalance(accounts, id, newBalance), SetBalance(accounts[1..], id, newBalance);
      assert r == [r[0]] + t;
      assert r[1..] == t;
      if a.id != k {
        FindAfterSet(accounts[1..], id, newBalance, k);
      }
    }
  }

  /** Every transaction refers to an existing account and an existing category. */
  predicate Referenced(accounts: seq<Account>, categories: seq<Category>, transactions: seq<Transaction>) {
    forall i :: 0 <= i < |transactions| ==>
      HasKey(accounts, AccountKey, transactions[i].accountId) && HasKey(categories, CategoryKey, transactions[i].categoryId)
  }

  /** The tables' invariant: keys below the next key to hand out and distinct, and every
      transaction's references resolvable (the foreign keys of the transaction relations). */
  predicate Consistent(accounts: seq<Account>, categories: seq<Category>, transactions: seq<Transaction>, next: Id) {
    && KeysBelow(accounts, AccountKey, next) && DistinctKeys(accounts, AccountKey)
    && KeysBelow(categories, CategoryKey, next) && DistinctKeys(categories, CategoryKey)
    && KeysBelow(transactions, TransactionKey, next) && DistinctKeys(transactions, TransactionKey)
    && Referenced(accounts, categories, transactions)
  }

  /** Inserting a transaction under the next key whose references resolve keeps the invariant. */
  lemma InsertTransactionConsistent(accounts: seq<Account>, categories: seq<Category>, transactions: seq<Transaction>,
                                    next: Id, t: Transaction)
    requires Consistent(accounts, categories, transactions, next)
    requires t.id == next && HasKey(accounts, AccountKey, t.accountId) && HasKey(categories, CategoryKey, t.categoryId)
    ensures Consistent(accounts, categories, transactions + [t], next + 1)
  {
    var ts := transactions + [t];
    assert forall i :: 0 <= i < |transactions| ==> ts[i] == transactions[i];
  }

  /** Appending an account under the next key keeps the invariant. */
  lemma InsertAccountConsistent(accounts: seq<Account>, categories: seq<Category>, transactions: seq<Transaction>,
                                next: Id, a: Account)
    requires Consistent(accounts, categories, transactions, next)
    requires a.id == next
    ensures Consistent(accounts + [a], categories, transactions, next + 1)
  {
    var s := accounts + [a];
    assert forall i :: 0 <= i < |accounts| ==> s[i] == accounts[i];
    forall i | 0 <= i < |transactions| ensures HasKey(s, AccountKey, transactions[i].accountId) {
      var j :| 0 <= j < |accounts| && AccountKey(accounts[j]) == transactions[i].accountId;
      assert AccountKey(s[j]) == transactions[i].accountId;
    }
  }

  /** Appending categories under the next keys in order keeps the invariant. */
  lemma InsertCategoriesConsistent(accounts: seq<Account>, categories: seq<Category>, transactions: seq<Transaction>,
                                   next: Id, cs: seq<Category>)
    requires Consistent(accounts, categories, transactions, next)
    requires forall i :: 0 <= i < |cs| ==> cs[i].id == next + i
    ensures Consistent(accounts, categories + cs, transactions, next + |cs|)
  {
    var s := categories + cs;
    assert forall i :: 0 <= i < |categories| ==> s[i] == categories[i];
    forall i | 0 <= i < |transactions| ensures HasKey(s, CategoryKey, transactions[i].categoryId) {
      var j :| 0 <= j < |categories| && CategoryKey(categories[j]) == transactions[i].categoryId;
      assert CategoryKey(s[j]) == transactions[i].categoryId;
    }
  }

  /** Moving or setting a balance keeps the invariant: keys do not change. */
  lemma ShiftConsistent(accounts: seq<Account>, categories: seq<Category>, transactions: seq<Transaction>,
                        next: Id, id: Id, delta: int)
    requires Consistent(accounts, categories, transactions, next)
    ensures Consistent(ShiftBalance(accounts, id, delta), categories, transactions, next)
  {
    ShiftKeepsKeys(accounts, id, delta);
  }

  lemma SetConsistent(accounts: seq<Account>, categories: seq<Category>, transactions: seq<Transaction>,
                      next: Id, id: Id, newBalance: int)
    requires Consistent(accounts, categories, transactions, next)
    ensures Consistent(SetBalance(accounts, id, newBalance), categories, transactions, next)
  {
    SetKeepsKeys(accounts, id, newBalance);
  }

  /** The tables. */
  class Store {
    var accounts: seq<Account>
    var categories: seq<Category>
    var transactions: seq<Transaction>
    var nextKey: Id

    ghost predicate Valid()
      reads this
    {
      Consistent(accounts, categories, transactions, nextKey)
    }

    constructor ()
      ensures Valid()
      ensures accounts == [] && categories == [] && transactions == [] && nextKey == 0
    {
      accounts, categories, transactions, nextKey := [], [], [], 0;
    }
  }
}
