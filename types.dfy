/** The records of the finance store and the small vocabulary shared by every layer. */
module Types {

  /** Keys of stored records. The store hands them out; their textual form is irrelevant here. */
  type Id = nat

  /** User ids arrive as strings from requests and hook arguments; "" counts as missing. */
  type UserId = string

  /** A calendar day, as an abstract index: day d + 1 follows day d. */
  type Day = int

  datatype Option<+T> = None | Some(value: T)

  datatype Result<+T, +E> = Ok(value: T) | Err(error: E)

  /** The two transaction type tags; the sign of a balance change comes from the tag. */
  datatype TxType = Income | Expense

  /** What the persistence gateway can throw at a write: any failure of the store itself, an
      update of a key no record has, or an insert whose account or category key refers to no
      record (the relations' foreign keys). */
  datatype StoreError = StoreFailure | RecordNotFound | ForeignKeyViolation

  /** Amounts and balances are in cents. */
  datatype Account = Account(id: Id, name: string, balance: int, userId: UserId, createdAt: int)

  datatype Category = Category(id: Id, name: string, icon: string, color: string, userId: UserId)

  datatype Transaction = Transaction(
    id: Id,
    amount: int,
    description: string,
    date: Day,
    kind: TxType,
    categoryId: Id,
    accountId: Id,
    userId: UserId)

  /** An inclusive range of days, as a `gte`/`lte` filter on the date column. */
  datatype Window = Window(first: Day, last: Day)

  predicate InWindow(d: Day, w: Window) {
    w.first <= d <= w.last
  }

  /** The `where` clause of the date-window queries: the user's transactions dated inside `w`. */
  function Matches(userId: UserId, w: Window): Transaction -> bool {
    (t: Transaction) => t.userId == userId && InWindow(t.date, w)
  }

  /** The balance change a transaction of this type and amount causes. */
  function Signed(kind: TxType, amount: int): int {
    if kind == Income then amount else -amount
  }

  /** JavaScript truthiness of an optional string field: present and non-empty. */
  predicate Present(s: Option<string>) {
    s.Some? && s.value != ""
  }
}
