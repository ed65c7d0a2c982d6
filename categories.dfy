/** The category service (project/lib/api/categories.ts): the user's categories ordered by name,
    category creation, and the listing that first seeds seven default categories for a user who
    has none. */
module Categories {
  import opened Types
  import opened Seqs
  import Store

  /** Ascending order of names, compared character by character, a prefix first. */
  predicate NameLe(a: string, b: string)
    decreases |a|
  {
    a == [] || (b != [] && (a[0] < b[0] || (a[0] == b[0] && NameLe(a[1..], b[1..]))))
  }

  lemma {:induction false} NameLeTotal(a: string, b: string)
    ensures NameLe(a, b) || NameLe(b, a)
    decreases |a|
  {
    if a != [] && b != [] && a[0] == b[0] {
      NameLeTotal(a[1..], b[1..]);
    }
  }

  lemma {:induction false} NameLeTrans(a: string, b: string, c: string)
    requires NameLe(a, b) && NameLe(b, c)
    ensures NameLe(a, c)
    decreases |a|
  {
    if a != [] && a[0] == b[0] && b[0] == c[0] {
      NameLeTrans(a[1..], b[1..], c[1..]);
    }
  }

  predicate SortedByName(s: seq<Category>) {
    forall i, j :: 0 <= i < j < |s| ==> NameLe(s[i].name, s[j].name)
  }

  lemma BelowSorted(x: string, s: seq<Category>)
    requires SortedByName(s) && s != [] && NameLe(x, s[0].name)
    ensures forall j :: 0 <= j < |s| ==> NameLe(x, s[j].name)
  {
    forall j | 0 <= j < |s| ensures NameLe(x, s[j].name) {
      if j > 0 {
        NameLeTrans(x, s[0].name, s[j].name);
      }
    }
  }

  lemma AllAbove(lo: string, rest: seq<Category>, tail: seq<Category>, c: Category)
    requires multiset(rest) == multiset(tail) + multiset{c}
    requires forall k :: 0 <= k < |tail| ==> NameLe(lo, tail[k].name)
    requires NameLe(lo, c.name)
    ensures forall k :: 0 <= k < |rest| ==> NameLe(lo, rest[k].name)
  {
    forall k | 0 <= k < |rest| ensures NameLe(lo, rest[k].name) {
      assert rest[k] in multiset(rest);
      if rest[k] != c {
        assert rest[k] in multiset(tail);
        var m :| 0 <= m < |tail| && tail[m] == rest[k];
      }
    }
  }

  function InsertByName(c: Category, s: seq<Category>): (r: seq<Category>)
    requires SortedByName(s)
    ensures SortedByName(r)
    ensures multiset(r) == multiset(s) + multiset{c}
  {
    if s == [] then [c]
    else if NameLe(c.name, s[0].name) then
      BelowSorted(c.name, s);
      [c] + s
    else
      NameLeTotal(c.name, s[0].name);
      var rest := InsertByName(c, s[1..]);
      assert s == [s[0]] + s[1..];
      assert forall k :: 0 <= k < |s[1..]| ==> s[1..][k] == s[k + 1];
      AllAbove(s[0].name, rest, s[1..], c);
      [s[0]] + rest
  }

  /** The categories ordered by name. Equal names come in an order the store chooses; this model
      fixes one. */
  function SortByName(s: seq<Category>): (r: seq<Category>)
    ensures SortedByName(r)
    ensures multiset(r) == multiset(s)
  {
    if s == [] then []
    else
      assert s == [s[0]] + s[1..];
      InsertByName(s[0], SortByName(s[1..]))
  }

  function OwnedBy(userId: UserId): Category -> bool {
    (c: Category) => c.userId == userId
  }

  /** `getCategories`: the user's categories ordered by name ascending; [] when the query
      throws (`fails`). Every field the mapping copies is a field of the model's record. */
  function GetCategories(categories: seq<Category>, userId: UserId, fails: bool): (r: seq<Category>)
    ensures fails ==> r == []
    ensures SortedByName(r)
    ensures !fails ==> multiset(r) == multiset(Filter(categories, OwnedBy(userId)))
  {
    if fails then [] else SortByName(Filter(categories, OwnedBy(userId)))
  }

  /** One of the seven presets: name, icon and colour. */
  datatype Preset = Preset(name: string, icon: string, color: string)

  const Presets: seq<Preset> := [
    Preset("Food", "\U{1F354}", "#FF6B6B"),
    Preset("Transport", "\U{1F697}", "#4ECDC4"),
    Preset("Entertainment", "\U{1F3AC}", "#45B7D1"),
    Preset("Shopping", "\U{1F6CD}\U{FE0F}", "#96CEB4"),
    Preset("Utilities", "\U{1F4A1}", "#FFEAA7"),
    Preset("Health", "\U{1F3E5}", "#DDA0DD"),
    Preset("Income", "\U{1F4B0}", "#98D8C8")
  ]

  /** The presets tagged with the user, under the keys `createMany` hands out from `first`. */
  function DefaultsFor(userId: UserId, first: Id): (r: seq<Category>)
    ensures |r| == |Presets|
    ensures forall i :: 0 <= i < |r| ==>
      r[i] == Category(first + i, Presets[i].name, Presets[i].icon, Presets[i].color, userId)
  {
    seq(|Presets|, i requires 0 <= i < |Presets| =>
      Category(first + i, Presets[i].name, Presets[i].icon, Presets[i].color, userId))
  }

  predicate HasOwned(categories: seq<Category>, userId: UserId) {
    exists i :: 0 <= i < |categories| && categories[i].userId == userId
  }

  /** The seeding check (no existing category for the user) holds exactly when the user owns no
      category. */
  lemma NoneOwned(categories: seq<Category>, userId: UserId)
    ensures |Filter(categories, OwnedBy(userId))| == 0 <==> !HasOwned(categories, userId)
  {
    var f := Filter(categories, OwnedBy(userId));
    FilterMember(categories, OwnedBy(userId));
    if HasOwned(categories, userId) {
      var i :| 0 <= i < |categories| && categories[i].userId == userId;
      assert categories[i] in f;
    }
    if |f| > 0 {
      assert f[0] in f;
    }
  }

  /** Seeding a user who owns no category: the user's listing is then exactly the seven presets,
      and the user owns categories, so a later call seeds nothing. */
  lemma SeededListing(categories: seq<Category>, userId: UserId, first: Id)
    requires !HasOwned(categories, userId)
    ensures multiset(GetCategories(categories + DefaultsFor(userId, first), userId, false)) == multiset(DefaultsFor(userId, first))
    ensures HasOwned(categories + DefaultsFor(userId, first), userId)
  {
    var d := DefaultsFor(userId, first);
    FilterConcatMultiset(categories, d, OwnedBy(userId));
    NoneOwned(categories, userId);
    FilterAll(d, OwnedBy(userId));
    assert (categories + d)[|categories|] == d[0];
  }

  /** Seeding one user changes no other user's listing. */
  lemma SeedingIsPrivate(categories: seq<Category>, userId: UserId, first: Id, other: UserId)
    requires other != userId
    ensures multiset(GetCategories(categories + DefaultsFor(userId, first), other, false))
      == multiset(GetCategories(categories, other, false))
  {
    var d := DefaultsFor(userId, first);
    FilterConcatMultiset(categories, d, OwnedBy(other));
    FilterNone(d, OwnedBy(other));
  }

  /** A created category of the user's joins the user's listing, and no other user's. */
  lemma CreatedIsListed(categories: seq<Category>, c: Category, userId: UserId)
    ensures multiset(GetCategories(categories + [c], userId, false))
      == multiset(GetCategories(categories, userId, false)) + (if c.userId == userId then multiset{c} else multiset{})
  {
    FilterConcatMultiset(categories, [c], OwnedBy(userId));
    assert [c][1..] == [];
  }

  /** `createCategory`: insert the category under the next key. `fault` stands for the insert
      throwing; the error propagates. */
  method CreateCategory(store: Store.Store, name: string, icon: string, color: string, userId: UserId, fault: bool)
    returns (r: Result<Category, StoreError>)
    requires store.Valid()
    modifies store
    ensures store.Valid()
    ensures store.accounts == old(store.accounts) && store.transactions == old(store.transactions)
    ensures fault ==> r == Err(StoreFailure) && unchanged(store)
    ensures !fault ==>
      && r == Ok(Category(old(store.nextKey), name, icon, color, userId))
      && store.categories == old(store.categories) + [r.value]
      && store.nextKey == old(store.nextKey) + 1
  {
    if fault {
      return Err(StoreFailure);
    }
    var category := Category(store.nextKey, name, icon, color, userId);
    Store.InsertCategoriesConsistent(store.accounts, store.categories, store.transactions, store.nextKey, [category]);
    store.categories := store.categories + [category];
    store.nextKey := store.nextKey + 1;
    r := Ok(category);
  }

  /** `getDefaultCategories`: when the user owns no category, insert the seven presets for the
      user in one `createMany`; then return the user's listing. `findFault` and `insertFault`
      stand for the lookup and the insert throwing, which the outer catch turns into [];
      `listFault` for the final listing's own query throwing, which it turns into [] itself. */
  method GetDefaultCategories(store: Store.Store, userId: UserId, findFault: bool, insertFault: bool, listFault: bool)
    returns (r: seq<Category>)
    requires store.Valid()
    modifies store
    ensures store.Valid()
    ensures store.accounts == old(store.accounts) && store.transactions == old(store.transactions)
    ensures findFault || HasOwned(old(store.categories), userId) || insertFault ==> unchanged(store)
    ensures !findFault && !HasOwned(old(store.categories), userId) && !insertFault ==>
      && store.categories == old(store.categories) + DefaultsFor(userId, old(store.nextKey))
      && store.nextKey == old(store.nextKey) + |Presets|
    ensures findFault || (!HasOwned(old(store.categories), userId) && insertFault) ==> r == []
    ensures !findFault && (HasOwned(old(store.categories), userId) || !insertFault) ==>
      r == GetCategories(store.categories, userId, listFault)
  {
    if findFault {
      return [];
    }
    var existing := Filter(store.categories, OwnedBy(userId));
    NoneOwned(store.categories, userId);
    if |existing| == 0 {
      if insertFault {
        return [];
      }
      var seeded := DefaultsFor(userId, store.nextKey);
      Store.InsertCategoriesConsistent(store.accounts, store.categories, store.transactions, store.nextKey, seeded);
      store.categories := store.categories + seeded;
      store.nextKey := store.nextKey + |seeded|;
    }
    r := GetCategories(store.categories, userId, listFault);
  }
}
