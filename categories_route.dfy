/** The `/api/categories` handlers (project/app/api/categories/route.ts): GET answers the user's
    categories through the seeding path; POST validates the body and creates a category. */
module CategoriesRoute {
  import opened Types
  import opened Http
  import Store
  import Categories

  /** The POST body as the handler destructures it; every field is required. */
  datatype CategoryBody = CategoryBody(name: Option<string>, icon: Option<string>, color: Option<string>, userId: Option<string>)

  /** The presence check: one of the four fields is absent or the empty string. */
  predicate MissingRequired(b: CategoryBody): (r: bool)
    ensures !r ==> b.name.Some? && b.icon.Some? && b.color.Some? && b.userId.Some?
  {
    !Present(b.name) || !Present(b.icon) || !Present(b.color) || !Present(b.userId)
  }

  /** GET: 400 without a (non-empty) userId, before any store call; otherwise 200 with what the
      seeding listing answers. The seeding listing answers [] on every failure rather than
      throwing, so the 500 branch is never taken. */
  method Get(store: Store.Store, userId: Option<string>, findFault: bool, insertFault: bool, listFault: bool)
    returns (r: Response<seq<Category>>)
    requires store.Valid()
    modifies store
    ensures store.Valid()
    ensures r.status == 400 <==> !Present(userId)
    ensures !Present(userId) ==> r.payload == Failure(UserIdRequired) && unchanged(store)
    ensures store.accounts == old(store.accounts) && store.transactions == old(store.transactions)
    ensures Present(userId) ==> r.status == 200
    ensures Present(userId) && (findFault || (!Categories.HasOwned(old(store.categories), userId.value) && insertFault)) ==>
      r.payload == Data([])
    ensures Present(userId) && !findFault && (Categories.HasOwned(old(store.categories), userId.value) || !insertFault) ==>
      r.payload == Data(Categories.GetCategories(store.categories, userId.value, listFault))
    ensures Present(userId) && !findFault && !Categories.HasOwned(old(store.categories), userId.value) && !insertFault ==>
      && store.categories == old(store.categories) + Categories.DefaultsFor(userId.value, old(store.nextKey))
      && store.nextKey == old(store.nextKey) + |Categories.Presets|
    ensures Present(userId) && (findFault || Categories.HasOwned(old(store.categories), userId.value) || insertFault) ==>
      unchanged(store)
  {
    if !Present(userId) {
      return BadRequest(UserIdRequired);
    }
    var categories := Categories.GetDefaultCategories(store, userId.value, findFault, insertFault, listFault);
    r := Response(200, Data(categories));
  }

  /** POST: 400 when a required field is missing, before any write; otherwise create the
      category and answer 201 with it, or 500 when the insert throws. */
  method Post(store: Store.Store, body: CategoryBody, fault: bool) returns (r: Response<Category>)
    requires store.Valid()
    modifies store
    ensures store.Valid()
    ensures r.status in {201, 400, 500}
    ensures MissingRequired(body) ==> r == BadRequest(MissingFields) && unchanged(store)
    ensures !MissingRequired(body) && fault ==> r == ServerError() && unchanged(store)
    ensures !MissingRequired(body) && !fault ==>
      && r.status == 201
      && r.payload == Data(Category(old(store.nextKey), body.name.value, body.icon.value, body.color.value, body.userId.value))
      && store.categories == old(store.categories) + [r.payload.value]
      && store.accounts == old(store.accounts) && store.transactions == old(store.transactions)
      && store.nextKey == old(store.nextKey) + 1
  {
    if MissingRequired(body) {
      return BadRequest(MissingFields);
    }
    var created := Categories.CreateCategory(store, body.name.value, body.icon.value, body.color.value, body.userId.value, fault);
    if created.Err? {
      return ServerError();
    }
    r := Response(201, Data(created.value));
  }
}
