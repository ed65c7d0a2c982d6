# Personal-finance core, modelled in Dafny

This project models the domain layer of a personal-finance dashboard, written in TypeScript. Users keep
accounts with balances, record income and expense transactions against them under categories,
and read analytics: a monthly summary with a per-category expense breakdown, a seven-day series,
and a six-month trend series. The model covers four parts:

- **Services** (`project/lib/api/*.ts`), over an in-memory store. The store is a `Store.Store`
  object that holds the account, category and transaction tables as sequences, plus the next key
  it will hand out.
  - Reads are functions of the tables. They fail soft: a failed query answers `[]` or `0`.
  - Writes are methods that reassign the tables. They fail hard: the error propagates as an
    `Err`.
  - Every way a store call can throw is a boolean parameter (`fails`, `fault`, `insertFault`, ...).
- **Route handlers** (`project/app/api/*/route.ts`). Each one is:
  - a presence check that answers 400 before any write;
  - a call into a service;
  - a 201 or 200 answer, or 500 when the service throws.
- **Client hooks** (`project/lib/hooks/*.ts`).
  - `useTransactions` and `useAccounts` become classes. Their fields are the list, the loading
    flag and the error message, and their methods are the load, add and refetch operations.
  - Each method receives the reply its `fetch` got, as a parameter.
- **The ledger invariant** an account is meant to keep (module `Ledger`): a balance is its
  opening balance plus the signed amounts posted against it. It is kept by the two writes of a
  transaction creation together, and broken by the insert alone.

Representation choices:

- **Amounts and balances** are integers (cents).
- **Dates** are integer day indices. A month is an inclusive window of days, given by an abstract
  calendar (`AnalyticsRoute.Calendar`). A week is given by its first day. Month and weekday
  indices stand for their short labels.
- **Record ids** are natural-number keys.
- **User ids** are strings. An HTTP parameter or body field is an `Option`, and `Types.Present`
  is JavaScript truthiness for strings: present and not empty.
- **The category breakdown** is a list of `(label, amount)` pairs in insertion order, as a
  JavaScript object keeps its string keys (integer-like keys are the exception; see "## Left out").

Three intended behaviours the code does not deliver; the model follows the code:

- A transaction amount is meant to be positive, with the sign carried by the type. The POST handler checks only truthiness, so
  a negative amount passes and is posted (`TransactionsRoute.Post`; zero is rejected).
- The transaction insert and the balance increment are meant to be one unit. The code
  does them as two writes, and a failed increment leaves the inserted transaction in place
  (`Transactions.CreateTransaction`, `Ledger.InsertAloneUnbalances`).
- The weekly series is meant to have seven entries always. On a failed query the code answers
  `[]` (`Analytics.WeeklySeries`).

## Model

| member | source | states |
|---|---|---|
| Analytics.MonthlyAnalytics | project/lib/api/analytics.ts:4-55 | When the query fails: the all-zero summary with an empty breakdown. Otherwise: total income and total expenses are the sums of the user's INCOME and EXPENSE amounts dated inside the inclusive month window; the count includes both types; net income is income minus expenses; the breakdown values add up to total expenses. |
| Analytics.FetchedKindTotal | project/lib/api/analytics.ts:9-28 | Filtering the fetched rows by type and summing them equals the reference sum over the whole table, restricted to the user, the window and the type. |
| Analytics.CategoryLabel | project/lib/api/analytics.ts:33 | The label an expense is filed under is never empty: an empty category name falls back to "Other". |
| Analytics.CategoryLabelShape | project/lib/api/analytics.ts:33 | An expense is filed under "Other" or under the name of a category whose id is its categoryId. |
| Analytics.Upsert | project/lib/api/analytics.ts:34 | One accumulator step keeps every key and adds at most one: the breakdown grows by zero or one entries. |
| Analytics.UpsertSum | project/lib/api/analytics.ts:34 | One accumulator step raises the sum of the breakdown values by exactly the amount added. |
| Analytics.UpsertKeys | project/lib/api/analytics.ts:34 | One accumulator step adds its key to the key set and nothing else. |
| Analytics.UpsertShape | project/lib/api/analytics.ts:34 | A key already present is updated where it stands, keeping every key in place; a new key is appended at the end. |
| Analytics.UpsertUnique | project/lib/api/analytics.ts:34 | One accumulator step keeps the keys of the breakdown unique. |
| Analytics.UpsertLookup | project/lib/api/analytics.ts:34 | After one accumulator step, only the value under its own key has moved, and by the amount added. |
| Analytics.BreakdownOf | project/lib/api/analytics.ts:30-36 | The reduce over the expenses has at most one entry per expense. |
| Analytics.BreakdownSum | project/lib/api/analytics.ts:30-36 | The breakdown of a list of expenses sums to the sum of their amounts. |
| Analytics.BreakdownKeys | project/lib/api/analytics.ts:30-36 | The breakdown has each label once, and its keys are exactly the labels of the expenses. |
| Analytics.BreakdownLookup | project/lib/api/analytics.ts:30-36 | The value under a label is the sum of the amounts of the expenses carrying that label. |
| Analytics.BreakdownShape | project/lib/api/analytics.ts:30-36 | In the monthly summary, every breakdown key appears once and is either "Other" or a category name. |
| Analytics.BreakdownPerLabel | project/lib/api/analytics.ts:30-36 | Each breakdown value is the sum over the whole table of the user's EXPENSE amounts in the month that carry that label; income never contributes. |
| Analytics.BreakdownKeyPresent | project/lib/api/analytics.ts:30-36 | A label is a breakdown key if and only if one of the user's expenses in the month carries it. |
| Analytics.WeeklySeries | project/lib/api/analytics.ts:57-104 | On failure: no entries. Otherwise: exactly 7 entries, and entry i is the day weekStart+i with the user's income and expense dated that day. |
| Analytics.DayOfWeekTotal | project/lib/api/analytics.ts:80-90 | Filtering the week's fetched rows to one day of the week and summing by type gives that day's total over the whole table. |
| Analytics.WeeklyAnalytics | project/lib/api/analytics.ts:57-104 | The seven-iteration loop builds exactly the weekly series. |
| Analytics.SeriesCoversDays | project/lib/api/analytics.ts:75-97 | A series of consecutive day entries adds up, by type, to the total over the window those days cover. |
| Analytics.WeeklySeriesCoversWeek | project/lib/api/analytics.ts:57-99 | The seven daily incomes, and the seven daily expenses, add up to the week window's totals. |
| Analytics.TrendSeries | project/lib/api/analytics.ts:106-126 | `months` entries (none when months is 0 or less), oldest first. Entry k is month current-(months-1-k), so the last entry is the current month. Each entry holds that month's income and expense totals, or zeros when that month's query fails. |
| Analytics.TrendSeriesShape | project/lib/api/analytics.ts:108-119 | The series ends with the current month, its months are consecutive, and every entry holds its month's totals, or zeros for a failed month. |
| Analytics.MonthlyEntry | project/lib/api/analytics.ts:112-117 | A month's trend entry is that month's monthly summary cut down to its income and expense totals. |
| Analytics.MonthlyTrends | project/lib/api/analytics.ts:106-121 | The count-down loop over the months builds exactly the trend series. |
| Transactions.GetTransactions | project/lib/api/transactions.ts:4-36 | On failure: []. Otherwise: the rows are exactly the user's transactions, as a multiset, ordered by date descending. Each row's category is the category the join finds, and absent when none exists. |
| Transactions.ListingIsTheUsers | project/lib/api/transactions.ts:6-13 | A transaction appears in the listing if and only if it is stored and owned by the user. |
| Transactions.GetTransactionsByDateRange | project/lib/api/transactions.ts:77-101 | On failure: []. Otherwise: exactly the user's transactions with start <= date <= end, ordered by date descending, with the category and account joins. |
| Transactions.CreateTransaction | project/lib/api/transactions.ts:38-75 | A failing insert, or an account or category that does not exist: an error, and the store is unchanged. Otherwise: the transaction is appended under the next key, dated with the given date or else now. If the increment then fails: an error, with the transaction kept and the balances unmoved. Otherwise: the account moves by +amount for INCOME or -amount for EXPENSE, and the result carries the joins read at insert time. The store's consistency is kept throughout. |
| Store.FindById | project/lib/api/transactions.ts:8-11 | A lookup by key finds a record exactly when some record has that key, and the record it finds has that key. |
| Store.ShiftBalance | project/lib/api/transactions.ts:60-68 | The increment moves the balance of the account with the given key by delta and leaves every other account as it was. |
| Store.FindAfterShift | project/lib/api/transactions.ts:60-68 | After an increment, the incremented account has its old balance plus delta; every other lookup is unchanged. |
| Store.SetBalance | project/lib/api/accounts.ts:38-43 | The update gives the account with the given key the new balance and leaves every other account as it was. |
| Store.FindAfterSet | project/lib/api/accounts.ts:38-43 | After the update, the account has the new balance whatever it had before; every other lookup is unchanged. |
| Store.ShiftKeepsKeys | project/lib/api/transactions.ts:61-68 | An increment keeps every record's key, and so the set of keys. |
| Store.SetKeepsKeys | project/lib/api/accounts.ts:40-43 | An absolute update keeps every record's key, and so the set of keys. |
| Store.InsertTransactionConsistent | project/lib/api/transactions.ts:48-57 | Inserting a transaction under the next key, whose account and category exist, keeps the store consistent: keys below the next key and distinct, and every transaction's account and category present. |
| Store.InsertAccountConsistent | project/lib/api/accounts.ts:28-31 | Inserting an account under the next key keeps the store consistent. |
| Store.InsertCategoriesConsistent | project/lib/api/categories.ts:57-62 | Inserting categories under consecutive fresh keys keeps the store consistent. |
| Store.ShiftConsistent | project/lib/api/transactions.ts:61-68 | A balance increment keeps the store consistent. |
| Store.SetConsistent | project/lib/api/accounts.ts:40-43 | An absolute balance update keeps the store consistent. |
| Ledger.PostedAppend | project/lib/api/transactions.ts:60 | Appending a transaction adds its signed amount to its own account's posted sum and nothing to any other account's. |
| Ledger.PostingKeepsBalanced | project/lib/api/transactions.ts:48-68 | When both writes go through, a ledger where every balance is its opening balance plus its posted signed amounts stays that way. |
| Ledger.InsertAloneUnbalances | project/lib/api/transactions.ts:48-74 | When the insert goes through and the increment fails, the ledger is no longer balanced, for any non-zero amount on an existing account. |
| Ledger.NothingPosted | project/lib/api/transactions.ts:60-68 | An account no transaction refers to has nothing posted against it. |
| Ledger.OpeningKeepsBalanced | project/lib/api/accounts.ts:23-36 | Creating an account under a fresh key keeps the ledger balanced, with its creation balance as its opening balance. |
| Accounts.NewestFirst | project/lib/api/accounts.ts:6-9 | The user's accounts, as a multiset, ordered by creation time with the newest first. |
| Accounts.GetAccounts | project/lib/api/accounts.ts:4-21 | On failure: []. Otherwise: one view per account of the user's, in newest-first order, with the creation time dropped. |
| Accounts.GetTotalBalance | project/lib/api/accounts.ts:50-62 | On failure: 0. Otherwise: the sum of the balances of the user's accounts, which is 0 for none. |
| Accounts.SumMapBalance | project/lib/api/accounts.ts:11-16 | Mapping accounts to views keeps the sum of their balances. |
| Accounts.ListingAddsUpToTotal | project/lib/api/accounts.ts:50-62 | The balances the account listing shows add up to the total balance. |
| Accounts.ShiftAbsent | project/lib/api/transactions.ts:61-68 | An increment of a key that no account has changes nothing. |
| Accounts.SetAbsent | project/lib/api/accounts.ts:40-43 | An absolute update of a key that no account has changes nothing. |
| Accounts.TotalAfterShift | project/lib/api/transactions.ts:60-68 | A transaction's balance increment moves its owner's total balance by the signed amount, and no other user's total. |
| Accounts.TotalAfterSet | project/lib/api/accounts.ts:38-43 | An absolute update replaces the account's old balance with the new one in its owner's total, and changes no other user's total. |
| Accounts.CreateAccount | project/lib/api/accounts.ts:23-36 | On a fault: an error, and the store is unchanged. Otherwise: exactly one account is appended, under the next key, with the given name, balance and user; the other tables are unchanged. |
| Accounts.UpdateAccountBalance | project/lib/api/accounts.ts:38-48 | On a fault, or an unknown key: an error, and the store is unchanged. Otherwise: the account's balance becomes the new value (absolute, not a delta), other accounts are unchanged, and the updated account is returned. |
| Categories.NameLeTotal | project/lib/api/categories.ts:8 | The name order is total. |
| Categories.NameLeTrans | project/lib/api/categories.ts:8 | The name order is transitive. |
| Categories.SortByName | project/lib/api/categories.ts:6-9 | The result is ordered by name ascending and is a permutation of its input. |
| Categories.GetCategories | project/lib/api/categories.ts:4-22 | On failure: []. Otherwise: exactly the user's categories, as a multiset, ordered by name ascending. |
| Categories.DefaultsFor | project/lib/api/categories.ts:41-62 | The seven presets, in order, with their names, icons and colours, each tagged with the user, under consecutive fresh keys. |
| Categories.NoneOwned | project/lib/api/categories.ts:52-56 | The seeding check finds no existing categories if and only if the user owns no category. |
| Categories.SeededListing | project/lib/api/categories.ts:56-65 | After seeding a user who had no category, the user's listing is exactly the seven presets, and the user now owns categories, so a second call seeds nothing. |
| Categories.SeedingIsPrivate | project/lib/api/categories.ts:57-62 | Seeding one user leaves every other user's listing as it was. |
| Categories.CreatedIsListed | project/lib/api/categories.ts:24-38 | A created category joins its owner's listing, and no other user's. |
| Categories.CreateCategory | project/lib/api/categories.ts:24-38 | On a fault: an error, and the store is unchanged. Otherwise: exactly one category is appended, under the next key, with the given fields. |
| Categories.GetDefaultCategories | project/lib/api/categories.ts:40-70 | The seven presets are inserted only when the lookup succeeds, the user owns no category and the insert succeeds; in every other case the store is unchanged. A failed lookup or insert answers []; otherwise the answer is the user's full sorted listing. |
| Http.ReplyOf | project/lib/hooks/useTransactions.ts:20-24 | A client sees a success exactly when the status is 2xx and the body is data. |
| TransactionsRoute.MissingRequired | project/app/api/transactions/route.ts:26 | A zero amount is missing. A body that passes has every field the handler goes on to read: amount, description, type, categoryId, accountId and userId. |
| TransactionsRoute.ParseKind | project/app/api/transactions/route.ts:33 | A type string is accepted as INCOME exactly when it is "INCOME", and as EXPENSE exactly when it is "EXPENSE"; any other string is refused, as the store's enum column is assumed to refuse it. |
| TransactionsRoute.Get | project/app/api/transactions/route.ts:4-19 | 400 "User ID is required" if and only if the userId is absent or empty; otherwise 200 with the user's listing; never 500. |
| TransactionsRoute.Post | project/app/api/transactions/route.ts:21-45 | 400 "Missing required fields" if and only if a required field is missing or falsy, including a zero amount, and the store is then untouched. Past the presence check every answer other than 201 is 500 "Internal server error". An unknown type: 500, and the store is untouched. Otherwise the creation runs with the given date, or else now. 201 with the created transaction exactly when both writes go through, and the account is then moved by the signed amount. Any failure: 500 "Internal server error", with balances unmoved. A negative amount passes. |
| AccountsRoute.MissingRequired | project/app/api/accounts/route.ts:26 | A zero balance with a name and a userId passes. A body that passes has a name, a balance and a userId. |
| AccountsRoute.Get | project/app/api/accounts/route.ts:4-19 | 400 if and only if the userId is absent or empty; otherwise 200 with the user's accounts; never 500. |
| AccountsRoute.Post | project/app/api/accounts/route.ts:21-41 | A falsy name or userId, or an undefined balance: 400, and the store is untouched. A zero balance is accepted. A fault: 500, and the store is untouched. Otherwise: 201 with the account created with the parsed balance, and only that account added. |
| CategoriesRoute.Get | project/app/api/categories/route.ts:4-19 | 400 if and only if the userId is absent or empty, before any store call. Otherwise 200. A failed lookup, or a failed insert for a user with no categories: `[]`. Otherwise the listing after seeding. For a user with none, when nothing fails, the seven presets are added under the next seven keys. Accounts and transactions are never touched, and the store is unchanged whenever nothing is seeded. |
| CategoriesRoute.MissingRequired | project/app/api/categories/route.ts:26 | A body that passes has a name, an icon, a color and a userId. |
| CategoriesRoute.Post | project/app/api/categories/route.ts:21-42 | Any of name, icon, color or userId falsy: 400, and no category is created. A fault: 500, and nothing is created. Otherwise: 201 with the one category created. |
| AnalyticsRoute.Get | project/app/api/analytics/route.ts:4-36 | 400 if and only if the userId is absent or empty; otherwise 200. "weekly" answers the weekly series of the target day's week. "trends" answers the six-month trend series ending with the current month, ignoring the date. Any other type, including an absent or empty one, answers the monthly summary of the target day's month. The target day is the date parameter, or else today. |
| Cache.RefetchedAsWritten | project/lib/hooks/useTransactions.ts:63-76 | As written, a refetch leaves the state a list of rows exactly when the reply is not an HTTP error. |
| Cache.RefetchStoresEnvelope | project/lib/hooks/useTransactions.ts:63-76 | As written, a refetch answered 400 with an error envelope replaces the list with the envelope. |
| Cache.AsWrittenDiffersOnHttpError | project/lib/hooks/useAccounts.ts:66-79 | As written, refetch leaves the list the load would leave if and only if the reply is not an HTTP error. |
| UseTransactions.TransactionsHook.constructor | project/lib/hooks/useTransactions.ts:7-9 | The hook starts with an empty list, loading, and no error. |
| UseTransactions.TransactionsHook.Load | project/lib/hooks/useTransactions.ts:11-34 | Without a userId, nothing is fetched and only loading drops. A success replaces the list. A non-ok response records "Failed to fetch transactions", and a rejection records its own message; in both cases the list is kept. Loading ends false. |
| UseTransactions.TransactionsHook.Add | project/lib/hooks/useTransactions.ts:36-56 | The body sent carries the hook's userId, overriding the data's. A success puts the new row in front of the old list and returns it. A non-ok response fails with "Failed to create transaction", and a rejection fails with its message; in both cases the list is unchanged. |
| UseTransactions.TransactionsHook.Refetch | project/lib/hooks/useTransactions.ts:63-76 | Without a userId, nothing happens. Otherwise only a success replaces the list; loading and error are untouched. |
| UseAccounts.AccountsHook.TotalBalance | project/lib/hooks/useAccounts.ts:58 | The total over no accounts is 0; UseAccounts.TotalAppend and UseAccounts.LoadedTotalIsServerTotal give how it moves and what it equals after a load. |
| UseAccounts.TotalAppend | project/lib/hooks/useAccounts.ts:58 | Appending an account row raises the total balance by that row's balance. |
| UseAccounts.LoadedTotalIsServerTotal | project/lib/hooks/useAccounts.ts:58 | The total of a freshly loaded listing equals the server's total balance for the user. |
| UseAccounts.AccountsHook.constructor | project/lib/hooks/useAccounts.ts:7-9 | The hook starts with an empty list, loading, and no error. |
| UseAccounts.AccountsHook.Load | project/lib/hooks/useAccounts.ts:11-34 | Without a userId, nothing is fetched and only loading drops. A success replaces the list. A non-ok response records "Failed to fetch accounts", and a rejection records its own message; in both cases the list is kept. Loading ends false. |
| UseAccounts.AccountsHook.Add | project/lib/hooks/useAccounts.ts:36-56 | The body sent carries the hook's userId. A success appends the new account after the old list, raises the total balance by its balance, and returns it. A non-ok response or a rejection fails, and the list is unchanged. |
| UseAccounts.AccountsHook.Refetch | project/lib/hooks/useAccounts.ts:66-79 | Without a userId, nothing happens. Otherwise only a success replaces the list. |

## Left out

- The relational store, the ORM's query engine and its joins are modelled as sequences of records. Foreign keys on a transaction's account and category are assumed enforced: the insert fails otherwise. A foreign key to a users table is not modelled.
- Ties in `orderBy` (equal dates, creation times or names) come in an order the store chooses. The model fixes one.
- Names are ordered by character code, not by the database's collation.
- Calendar arithmetic is abstract: start and end of month and week, the week-start convention, `subMonths`, and the short month and weekday labels.
- Amounts are integers, not floating point. `parseFloat` of a string, `NaN`, and a `null` balance are not modelled; the model takes the number the parse yields.
- Id fields in a request body are either absent or a key; an empty-string id is not modelled. The POST amount's truthiness is tested on the parsed number, not on the string the client sent (a string "0" is truthy in the source).
- JavaScript object-key quirks in the breakdown are not modelled: a key such as `__proto__`, and integer-like keys (a category named "2024"), which an object enumerates first in ascending numeric order rather than in insertion order.
- Concurrency is not modelled: the race between two seedings, and concurrent increments of one balance. The model is single-threaded.
- Logging (`console.error`) is not modelled.
- The query string is not URL-encoded. `#` and `&` in a userId change what the server reads; the model takes the userId the server sees.
- The hook effect re-running when the userId changes is not modelled. Each load is one call of `Load`.
- A rejection whose value is not an `Error` (the fallback message "An error occurred") is not modelled; a rejection always carries a message.
- The hooks' transaction cache keeps a created row's record and category. The account join in the POST answer is not kept.
- The 500 branches of the GET handlers are never taken. Every service they call answers a default on failure, and request parsing is not modelled. The same holds for the trends function's outer catch, since the monthly summary it calls never throws.
- Prisma's `Decimal`/`Float` column types and their rounding are not modelled.
- TransactionsRoute.ParseKind: assumes the store's `type` column is an enum of INCOME and EXPENSE, so an insert with any other type throws and the POST answers 500 with nothing written. The schema is not part of this model; the two tags are the ones the client's `TransactionType` names. With a plain string column the insert would go through, the amount would be debited as an expense (any type other than INCOME posts `-amount`), and the answer would be 201.
- The landing page, the add-transaction dialog and the user context are UI, and are not part of this model.

## Findings

| source | as written | input that shows it | evidently intended | confidence | as-written member | corrected member |
|---|---|---|---|---|---|---|
| project/lib/hooks/useTransactions.ts:63-76 | `refetch` stores the parsed body without checking `response.ok`, unlike the load. | A userId such as "#1", which the unencoded query string turns into an empty userId: GET answers 400 with `{ error }`, and the list becomes that object. | Keep the list unless the response is ok, as the load does. | not executed | Cache.RefetchStoresEnvelope | UseTransactions.TransactionsHook.Refetch |
| project/lib/hooks/useAccounts.ts:66-79 | The same: an error response's body replaces the account list, and the total balance then reduces over a non-list. | The same 400 answer for a userId starting with "#". | Keep the list unless the response is ok. | not executed | Cache.AsWrittenDiffersOnHttpError | UseAccounts.AccountsHook.Refetch |
