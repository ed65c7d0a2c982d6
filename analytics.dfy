/** Analytics aggregation (project/lib/api/analytics.ts): monthly totals with a per-category
    expense breakdown, a seven-day series and a series of monthly trends, each computed from the
    transactions one query returns for a user and a window of days.

    The calendar is abstract: a month is given by its inclusive window of days, a week by the
    day it starts on, and a month index stands for its short label. */
module Analytics {
  import opened Types
  import opened Seqs
  import Store

  function AmountOf(t: Transaction): int { t.amount }

  function IsKind(kind: TxType): Transaction -> bool {
    (t: Transaction) => t.kind == kind
  }

  function OnDay(d: Day): Transaction -> bool {
    (t: Transaction) => t.date == d
  }

  /** What `findMany` returns for the user and the window, in table order. */
  function Fetch(txs: seq<Transaction>, userId: UserId, w: Window): seq<Transaction> {
    Filter(txs, Matches(userId, w))
  }

  /** The amounts of the rows of type `kind`, summed. */
  function KindTotal(s: seq<Transaction>, kind: TxType): int {
    Sum(Filter(s, IsKind(kind)), AmountOf)
  }

  /* Reference definitions, stated over the whole table rather than over a query result. */

  function WindowFilter(userId: UserId, w: Window, kind: TxType): Transaction -> bool {
    (t: Transaction) => t.userId == userId && InWindow(t.date, w) && t.kind == kind
  }

  /** The amounts of the user's transactions of type `kind` dated inside `w`, summed. */
  function WindowTotal(txs: seq<Transaction>, userId: UserId, w: Window, kind: TxType): int {
    SumWhere(txs, WindowFilter(userId, w, kind), AmountOf)
  }

  /** The number of the user's transactions dated inside `w`, of either type. */
  function WindowCount(txs: seq<Transaction>, userId: UserId, w: Window): int {
    SumWhere(txs, Matches(userId, w), One)
  }

  function DayTotal(txs: seq<Transaction>, userId: UserId, d: Day, kind: TxType): int {
    WindowTotal(txs, userId, Window(d, d), kind)
  }

  /** Fetching the window and then filtering by type and summing gives the window total. */
  lemma FetchedKindTotal(txs: seq<Transaction>, userId: UserId, w: Window, kind: TxType)
    ensures KindTotal(Fetch(txs, userId, w), kind) == WindowTotal(txs, userId, w, kind)
  {
    FilterSum(Fetch(txs, userId, w), IsKind(kind), AmountOf);
    SumWhereFilter(txs, Matches(userId, w), IsKind(kind), AmountOf);
    SumWhereExt(txs, Both(Matches(userId, w), IsKind(kind)), WindowFilter(userId, w, kind), AmountOf);
  }

  // ---------------------------------------------------------------------------------------------
  // The category breakdown: a JavaScript object built by a reduce. Its keys keep insertion order,
  // so it is modelled as a sequence of (key, value) entries.

  type Breakdown = seq<(string, int)>

  function EntryValue(e: (string, int)): int { e.1 }

  /** The value under key `k`, 0 when the key is absent. */
  function Lookup(m: Breakdown, k: string): int {
    if m == [] then 0 else if m[0].0 == k then m[0].1 else Lookup(m[1..], k)
  }

  function Keys(m: Breakdown): (r: set<string>)
    ensures forall k :: k in r <==> exists i :: 0 <= i < |m| && m[i].0 == k
  {
    if m == [] then {}
    else
      assert forall i :: 1 <= i < |m| ==> m[i] == m[1..][i - 1];
      {m[0].0} + Keys(m[1..])
  }

  predicate UniqueKeys(m: Breakdown) {
    forall i, j :: 0 <= i < j < |m| ==> m[i].0 != m[j].0
  }

  /** Adding `a` under key `k`: an existing key keeps its place, a new key goes last. */
  function Upsert(m: Breakdown, k: string, a: int): (r: Breakdown)
    ensures |m| <= |r| <= |m| + 1
  {
    if m == [] then [(k, a)]
    else if m[0].0 == k then [(k, m[0].1 + a)] + m[1..]
    else [m[0]] + Upsert(m[1..], k, a)
  }

  lemma {:induction false} UpsertSum(m: Breakdown, k: string, a: int)
    ensures Sum(Upsert(m, k, a), EntryValue) == Sum(m, EntryValue) + a
  {
    if m != [] && m[0].0 != k {
      UpsertSum(m[1..], k, a);
      assert ([m[0]] + Upsert(m[1..], k, a))[1..] == Upsert(m[1..], k, a);
    } else if m != [] {
      assert ([(k, m[0].1 + a)] + m[1..])[1..] == m[1..];
    } else {
      assert [(k, a)][1..] == [];
    }
  }

  lemma {:induction false} UpsertKeys(m: Breakdown, k: string, a: int)
    ensures Keys(Upsert(m, k, a)) == Keys(m) + {k}
  {
    var r := Upsert(m, k, a);
    if m == [] {
      assert Keys(r) == {k} + Keys([]);
    } else if m[0].0 == k {
      assert r == [(k, m[0].1 + a)] + m[1..];
      assert forall i :: 0 <= i < |r| ==> r[i].0 == m[i].0;
    } else {
      UpsertKeys(m[1..], k, a);
      assert r == [m[0]] + Upsert(m[1..], k, a);
      assert r[1..] == Upsert(m[1..], k, a);
    }
  }

  /** Adding under a present key keeps every entry's key in place; adding under a new key
      appends one entry. */
  lemma {:induction false} UpsertShape(m: Breakdown, k: string, a: int)
    ensures k in Keys(m) ==> |Upsert(m, k, a)| == |m| && forall i :: 0 <= i < |m| ==> Upsert(m, k, a)[i].0 == m[i].0
    ensures k !in Keys(m) ==> Upsert(m, k, a) == m + [(k, a)]
  {
    if m != [] && m[0].0 != k {
      var rest := Upsert(m[1..], k, a);
      assert forall i :: 1 <= i < |m| ==> m[1..][i - 1] == m[i];
      assert k in Keys(m) <==> k in Keys(m[1..]);
      UpsertShape(m[1..], k, a);
      assert Upsert(m, k, a) == [m[0]] + rest;
      if k !in Keys(m) {
        assert m == [m[0]] + m[1..];
      }
    }
  }

  lemma UpsertUnique(m: Breakdown, k: string, a: int)
    requires UniqueKeys(m)
    ensures UniqueKeys(Upsert(m, k, a))
  {
    UpsertShape(m, k, a);
    var r := Upsert(m, k, a);
    if k !in Keys(m) {
      forall i | 0 <= i < |m| ensures r[i].0 != r[|m|].0 {
        assert r[i] == m[i];
      }
    }
  }

  lemma {:induction false} UpsertLookup(m: Breakdown, k: string, a: int, j: string)
    ensures Lookup(Upsert(m, k, a), j) == Lookup(m, j) + (if j == k then a else 0)
  {
    if m != [] && m[0].0 != k {
      UpsertLookup(m[1..], k, a, j);
      assert ([m[0]] + Upsert(m[1..], k, a))[1..] == Upsert(m[1..], k, a);
    } else if m != [] {
      assert ([(k, m[0].1 + a)] + m[1..])[1..] == m[1..];
    } else {
      assert [(k, a)][1..] == [];
    }
  }

  /** The label an expense is filed under: the joined category's name, or "Other" when
      there is no joined category or its name is empty. */
  function CategoryLabel(categories: seq<Category>, t: Transaction): (r: string)
    ensures r != ""
  {
    var c := Store.FindCategory(categories, t.categoryId);
    if c.Some? && c.value.name != "" then c.value.name else "Other"
  }

  /** A label is "Other" or the name of the category the expense refers to. */
  lemma CategoryLabelShape(categories: seq<Category>, t: Transaction)
    ensures var r := CategoryLabel(categories, t);
      r == "Other" || exists c :: c in categories && c.id == t.categoryId && c.name == r
  {
    var c := Store.FindCategory(categories, t.categoryId);
    if c.Some? && c.value.name != "" {
      assert c.value in categories;
    }
  }

  function HasLabel(categories: seq<Category>, k: string): Transaction -> bool {
    (t: Transaction) => CategoryLabel(categories, t) == k
  }

  /** The breakdown reduce over the expenses, left to right. */
  function BreakdownOf(expenses: seq<Transaction>, categories: seq<Category>): (r: Breakdown)
    ensures |r| <= |expenses|
    decreases |expenses|
  {
    if expenses == [] then []
    else
      var n := |expenses| - 1;
      Upsert(BreakdownOf(expenses[..n], categories), CategoryLabel(categories, expenses[n]), expenses[n].amount)
  }

  /** The breakdown's values add up to the summed amounts it was built from. */
  lemma {:induction false} BreakdownSum(expenses: seq<Transaction>, categories: seq<Category>)
    ensures Sum(BreakdownOf(expenses, categories), EntryValue) == Sum(expenses, AmountOf)
  {
    if expenses != [] {
      var n := |expenses| - 1;
      BreakdownSum(expenses[..n], categories);
      UpsertSum(BreakdownOf(expenses[..n], categories), CategoryLabel(categories, expenses[n]), expenses[n].amount);
      SplitLast(expenses);
      SumConcat(expenses[..n], [expenses[n]], AmountOf);
      SumSingleton(expenses[n], AmountOf);
    }
  }

  /** The labels the expenses carry. */
  function Labels(expenses: seq<Transaction>, categories: seq<Category>): set<string> {
    set i | 0 <= i < |expenses| :: CategoryLabel(categories, expenses[i])
  }

  lemma LabelsSnoc(expenses: seq<Transaction>, categories: seq<Category>)
    requires expenses != []
    ensures Labels(expenses, categories)
      == Labels(expenses[..|expenses| - 1], categories) + {CategoryLabel(categories, expenses[|expenses| - 1])}
  {
    var n := |expenses| - 1;
    var front := expenses[..n];
    assert forall i :: 0 <= i < n ==> front[i] == expenses[i];
    forall x | x in Labels(expenses, categories)
      ensures x in Labels(front, categories) + {CategoryLabel(categories, expenses[n])}
    {
      var i :| 0 <= i < |expenses| && CategoryLabel(categories, expenses[i]) == x;
      if i < n {
        assert CategoryLabel(categories, front[i]) == x;
      }
    }
    forall x | x in Labels(front, categories) ensures x in Labels(expenses, categories) {
      var i :| 0 <= i < n && CategoryLabel(categories, front[i]) == x;
      assert CategoryLabel(categories, expenses[i]) == x;
    }
  }

  /** The keys are exactly the labels of the expenses, each once. */
  lemma {:induction false} BreakdownKeys(expenses: seq<Transaction>, categories: seq<Category>)
    ensures UniqueKeys(BreakdownOf(expenses, categories))
    ensures Keys(BreakdownOf(expenses, categories)) == Labels(expenses, categories)
  {
    if expenses != [] {
      var n := |expenses| - 1;
      BreakdownKeys(expenses[..n], categories);
      UpsertKeys(BreakdownOf(expenses[..n], categories), CategoryLabel(categories, expenses[n]), expenses[n].amount);
      UpsertUnique(BreakdownOf(expenses[..n], categories), CategoryLabel(categories, expenses[n]), expenses[n].amount);
      LabelsSnoc(expenses, categories);
    }
  }

  /** The value under key `k` is the sum of the amounts of the expenses labelled `k`. */
  lemma {:induction false} BreakdownLookup(expenses: seq<Transaction>, categories: seq<Category>, k: string)
    ensures Lookup(BreakdownOf(expenses, categories), k) == SumWhere(expenses, HasLabel(categories, k), AmountOf)
  {
    if expenses != [] {
      var n := |expenses| - 1;
      var front, x := expenses[..n], expenses[n];
      var p := HasLabel(categories, k);
      BreakdownLookup(front, categories, k);
      var b, name := BreakdownOf(front, categories), CategoryLabel(categories, x);
      assert BreakdownOf(expenses, categories) == Upsert(b, name, x.amount);
      UpsertLookup(b, name, x.amount, k);
      assert p(x) <==> name == k;
      assert SumWhere(expenses, p, AmountOf) == SumWhere(front, p, AmountOf) + (if p(x) then x.amount else 0) by {
        SplitLast(expenses);
        SumWhereConcat(front, [x], p, AmountOf);
        assert [x][1..] == [];
      }
    }
  }

  // ---------------------------------------------------------------------------------------------
  // getMonthlyAnalytics

  datatype MonthlySummary = MonthlySummary(
    totalIncome: int,
    totalExpenses: int,
    netIncome: int,
    categoryBreakdown: Breakdown,
    transactionCount: int)

  /** The monthly summary for the month whose inclusive window is `month`. `fails` stands for the
      query throwing; the error is swallowed and the all-zero summary returned. */
  function MonthlyAnalytics(txs: seq<Transaction>, categories: seq<Category>, userId: UserId, month: Window, fails: bool)
    : (r: MonthlySummary)
    ensures fails ==> r == MonthlySummary(0, 0, 0, [], 0)
    ensures !fails ==> r.totalIncome == WindowTotal(txs, userId, month, Income)
    ensures !fails ==> r.totalExpenses == WindowTotal(txs, userId, month, Expense)
    ensures !fails ==> r.transactionCount == WindowCount(txs, userId, month)
    ensures r.netIncome == r.totalIncome - r.totalExpenses
    ensures Sum(r.categoryBreakdown, EntryValue) == r.totalExpenses
  {
    if fails then MonthlySummary(0, 0, 0, [], 0)
    else
      var fetched := Fetch(txs, userId, month);
      var totalIncome := KindTotal(fetched, Income);
      var totalExpenses := KindTotal(fetched, Expense);
      var expenses := Filter(fetched, IsKind(Expense));
      var breakdown := BreakdownOf(expenses, categories);
      FetchedKindTotal(txs, userId, month, Income);
      FetchedKindTotal(txs, userId, month, Expense);
      BreakdownSum(expenses, categories);
      FilterLength(txs, Matches(userId, month));
      MonthlySummary(totalIncome, totalExpenses, totalIncome - totalExpenses, breakdown, |fetched|)
  }

  function ExpenseLabelFilter(categories: seq<Category>, userId: UserId, w: Window, k: string): Transaction -> bool {
    (t: Transaction) => t.userId == userId && InWindow(t.date, w) && t.kind == Expense && CategoryLabel(categories, t) == k
  }

  /** The breakdown has each key once, and every key is a category name or "Other". */
  lemma BreakdownShape(txs: seq<Transaction>, categories: seq<Category>, userId: UserId, month: Window, fails: bool)
    ensures var m := MonthlyAnalytics(txs, categories, userId, month, fails).categoryBreakdown;
      && UniqueKeys(m)
      && forall k :: k in Keys(m) ==> k == "Other" || exists c :: c in categories && c.name == k
  {
    if !fails {
      var expenses := Filter(Fetch(txs, userId, month), IsKind(Expense));
      BreakdownKeys(expenses, categories);
      forall k | k in Labels(expenses, categories) ensures k == "Other" || exists c :: c in categories && c.name == k {
        var i :| 0 <= i < |expenses| && CategoryLabel(categories, expenses[i]) == k;
        CategoryLabelShape(categories, expenses[i]);
      }
    }
  }

  /** Each breakdown value is the sum of the user's expenses in the month that carry that label;
      income never contributes. */
  lemma BreakdownPerLabel(txs: seq<Transaction>, categories: seq<Category>, userId: UserId, month: Window, k: string)
    ensures Lookup(MonthlyAnalytics(txs, categories, userId, month, false).categoryBreakdown, k)
      == SumWhere(txs, ExpenseLabelFilter(categories, userId, month, k), AmountOf)
  {
    var fetched := Fetch(txs, userId, month);
    var expenses := Filter(fetched, IsKind(Expense));
    BreakdownLookup(expenses, categories, k);
    SumWhereFilter(fetched, IsKind(Expense), HasLabel(categories, k), AmountOf);
    SumWhereFilter(txs, Matches(userId, month), Both(IsKind(Expense), HasLabel(categories, k)), AmountOf);
    SumWhereExt(txs, Both(Matches(userId, month), Both(IsKind(Expense), HasLabel(categories, k))),
      ExpenseLabelFilter(categories, userId, month, k), AmountOf);
  }

  lemma ExpenseLabels(txs: seq<Transaction>, categories: seq<Category>, userId: UserId, month: Window, k: string)
    ensures k in Labels(Filter(Fetch(txs, userId, month), IsKind(Expense)), categories)
      <==> exists t :: t in txs && ExpenseLabelFilter(categories, userId, month, k)(t)
  {
    var fetched := Fetch(txs, userId, month);
    var expenses := Filter(fetched, IsKind(Expense));
    FilterMember(txs, Matches(userId, month));
    FilterMember(fetched, IsKind(Expense));
    if k in Labels(expenses, categories) {
      var i :| 0 <= i < |expenses| && CategoryLabel(categories, expenses[i]) == k;
      assert expenses[i] in txs && ExpenseLabelFilter(categories, userId, month, k)(expenses[i]);
    }
    if t :| t in txs && ExpenseLabelFilter(categories, userId, month, k)(t) {
      assert t in expenses;
      var i :| 0 <= i < |expenses| && expenses[i] == t;
      assert CategoryLabel(categories, expenses[i]) == k;
    }
  }

  /** A label is a key of the breakdown exactly when one of the user's expenses in the month
      carries it. */
  lemma BreakdownKeyPresent(txs: seq<Transaction>, categories: seq<Category>, userId: UserId, month: Window, k: string)
    ensures k in Keys(MonthlyAnalytics(txs, categories, userId, month, false).categoryBreakdown)
      <==> exists t :: t in txs && ExpenseLabelFilter(categories, userId, month, k)(t)
  {
    BreakdownKeys(Filter(Fetch(txs, userId, month), IsKind(Expense)), categories);
    ExpenseLabels(txs, categories, userId, month, k);
  }

  // ---------------------------------------------------------------------------------------------
  // getWeeklyAnalytics

  /** One day of the weekly series; the day index stands for its short weekday label. */
  datatype DayEntry = DayEntry(day: Day, income: int, expense: int)

  function WeekOf(weekStart: Day): Window {
    Window(weekStart, weekStart + 6)
  }

  /** The entry for day `d`: the user's income and expense dated that day. */
  function DayEntryFor(txs: seq<Transaction>, userId: UserId, d: Day): DayEntry {
    DayEntry(d, DayTotal(txs, userId, d, Income), DayTotal(txs, userId, d, Expense))
  }

  /** Specification of the weekly series: seven days from `weekStart`, each with the user's income
      and expense dated that day; the empty list when the query fails. */
  function WeeklySeries(txs: seq<Transaction>, userId: UserId, weekStart: Day, fails: bool): (r: seq<DayEntry>)
    ensures |r| == if fails then 0 else 7
    ensures forall i :: 0 <= i < |r| ==> r[i] == DayEntryFor(txs, userId, weekStart + i)
  {
    if fails then []
    else
      var r := seq(7, i => DayEntryFor(txs, userId, weekStart + i));
      assert forall i :: 0 <= i < 7 ==> r[i] == DayEntryFor(txs, userId, weekStart + i);
      r
  }

  /** Filtering the week's query result to one day of the week, then by type, gives that day's total. */
  lemma DayOfWeekTotal(txs: seq<Transaction>, userId: UserId, weekStart: Day, d: Day, kind: TxType)
    requires weekStart <= d <= weekStart + 6
    ensures KindTotal(Filter(Fetch(txs, userId, WeekOf(weekStart)), OnDay(d)), kind) == DayTotal(txs, userId, d, kind)
  {
    var m := Matches(userId, WeekOf(weekStart));
    FilterSum(Filter(Filter(txs, m), OnDay(d)), IsKind(kind), AmountOf);
    SumWhereFilter(Filter(txs, m), OnDay(d), IsKind(kind), AmountOf);
    SumWhereFilter(txs, m, Both(OnDay(d), IsKind(kind)), AmountOf);
    SumWhereExt(txs, Both(m, Both(OnDay(d), IsKind(kind))), WindowFilter(userId, Window(d, d), kind), AmountOf);
  }

  /** The loop of getWeeklyAnalytics: one entry per day, pushed in day order. */
  method WeeklyAnalytics(txs: seq<Transaction>, userId: UserId, weekStart: Day, fails: bool) returns (r: seq<DayEntry>)
    ensures r == WeeklySeries(txs, userId, weekStart, fails)
  {
    if fails {
      return [];
    }
    var fetched := Fetch(txs, userId, WeekOf(weekStart));
    var dailyData: seq<DayEntry> := [];
    var i := 0;
    while i < 7
      invariant 0 <= i <= 7
      invariant dailyData == WeeklySeries(txs, userId, weekStart, false)[..i]
    {
      var day := weekStart + i;
      var dayTransactions := Filter(fetched, OnDay(day));
      var income := KindTotal(dayTransactions, Income);
      var expense := KindTotal(dayTransactions, Expense);
      DayOfWeekTotal(txs, userId, weekStart, day, Income);
      DayOfWeekTotal(txs, userId, weekStart, day, Expense);
      dailyData := dailyData + [DayEntry(day, income, expense)];
      i := i + 1;
    }
    r := dailyData;
  }

  function EntryTotal(e: DayEntry, kind: TxType): int {
    if kind == Income then e.income else e.expense
  }

  function SeriesTotal(r: seq<DayEntry>, kind: TxType): int {
    if r == [] then 0 else EntryTotal(r[0], kind) + SeriesTotal(r[1..], kind)
  }

  lemma {:induction false} EmptyWindowTotal(txs: seq<Transaction>, userId: UserId, w: Window, kind: TxType)
    requires w.first > w.last
    ensures WindowTotal(txs, userId, w, kind) == 0
  {
    if txs != [] {
      EmptyWindowTotal(txs[1..], userId, w, kind);
    }
  }

  /** A window splits into its first day and the rest. */
  lemma WindowSplitFirst(txs: seq<Transaction>, userId: UserId, first: Day, last: Day, kind: TxType)
    requires first <= last
    ensures WindowTotal(txs, userId, Window(first, last), kind)
      == DayTotal(txs, userId, first, kind) + WindowTotal(txs, userId, Window(first + 1, last), kind)
  {
    var p, q := WindowFilter(userId, Window(first, first), kind), WindowFilter(userId, Window(first + 1, last), kind);
    SumWhereSplit(txs, p, q, AmountOf);
    SumWhereExt(txs, Either(p, q), WindowFilter(userId, Window(first, last), kind), AmountOf);
  }

  /** Day entries covering consecutive days add up to the total over those days. */
  lemma {:induction false} SeriesCoversDays(txs: seq<Transaction>, userId: UserId, r: seq<DayEntry>, start: Day, kind: TxType)
    requires forall i :: 0 <= i < |r| ==> EntryTotal(r[i], kind) == DayTotal(txs, userId, start + i, kind)
    ensures SeriesTotal(r, kind) == WindowTotal(txs, userId, Window(start, start + |r| - 1), kind)
  {
    if r == [] {
      EmptyWindowTotal(txs, userId, Window(start, start - 1), kind);
    } else {
      SeriesCoversDays(txs, userId, r[1..], start + 1, kind);
      WindowSplitFirst(txs, userId, start, start + |r| - 1, kind);
    }
  }

  /** The seven days of the weekly series partition the week: their incomes (expenses) add up to
      the week's income (expense). */
  lemma WeeklySeriesCoversWeek(txs: seq<Transaction>, userId: UserId, weekStart: Day)
    ensures SeriesTotal(WeeklySeries(txs, userId, weekStart, false), Income) == WindowTotal(txs, userId, WeekOf(weekStart), Income)
    ensures SeriesTotal(WeeklySeries(txs, userId, weekStart, false), Expense) == WindowTotal(txs, userId, WeekOf(weekStart), Expense)
  {
    SeriesCoversDays(txs, userId, WeeklySeries(txs, userId, weekStart, false), weekStart, Income);
    SeriesCoversDays(txs, userId, WeeklySeries(txs, userId, weekStart, false), weekStart, Expense);
  }

  // ---------------------------------------------------------------------------------------------
  // getMonthlyTrends

  /** One month of the trend series; the month index stands for its short month label. */
  datatype TrendEntry = TrendEntry(month: int, income: int, expense: int)

  /** The entry for month `m`: its income and expense totals, or zeros when the month's query
      fails (`m` in `failing`). */
  function TrendEntryFor(txs: seq<Transaction>, userId: UserId, monthWindow: int -> Window, failing: set<int>, m: int)
    : TrendEntry
  {
    if m in failing then TrendEntry(m, 0, 0)
    else TrendEntry(m, WindowTotal(txs, userId, monthWindow(m), Income), WindowTotal(txs, userId, monthWindow(m), Expense))
  }

  /** Specification of the trend series: `months` consecutive months ending with the current one,
      oldest first, each carrying its monthly income and expense totals. */
  function TrendSeries(txs: seq<Transaction>, userId: UserId, months: int,
                       currentMonth: int, monthWindow: int -> Window, failing: set<int>): (r: seq<TrendEntry>)
    ensures |r| == if months > 0 then months else 0
    ensures forall k :: 0 <= k < |r| ==> r[k] == TrendEntryFor(txs, userId, monthWindow, failing, currentMonth - (|r| - 1 - k))
    decreases months
  {
    if months <= 0 then []
    else
      var rest := TrendSeries(txs, userId, months - 1, currentMonth, monthWindow, failing);
      [TrendEntryFor(txs, userId, monthWindow, failing, currentMonth - (months - 1))] + rest
  }

  /** The trend series ends with the current month, its months are consecutive, and each entry
      holds that month's totals, or zeros when that month's query failed. */
  lemma TrendSeriesShape(txs: seq<Transaction>, userId: UserId, months: int,
                         currentMonth: int, monthWindow: int -> Window, failing: set<int>)
    ensures var r := TrendSeries(txs, userId, months, currentMonth, monthWindow, failing);
      && (|r| > 0 ==> r[|r| - 1].month == currentMonth)
      && (forall k :: 0 <= k < |r| - 1 ==> r[k].month + 1 == r[k + 1].month)
      && (forall k :: 0 <= k < |r| && r[k].month !in failing ==>
            r[k].income == WindowTotal(txs, userId, monthWindow(r[k].month), Income) &&
            r[k].expense == WindowTotal(txs, userId, monthWindow(r[k].month), Expense))
      && (forall k :: 0 <= k < |r| && r[k].month in failing ==> r[k].income == 0 && r[k].expense == 0)
  {
  }

  /** A month's summary, cut down to its totals, is that month's entry of the trend series. */
  lemma MonthlyEntry(txs: seq<Transaction>, categories: seq<Category>, userId: UserId,
                     monthWindow: int -> Window, failing: set<int>, m: int)
    ensures var a := MonthlyAnalytics(txs, categories, userId, monthWindow(m), m in failing);
      TrendEntry(m, a.totalIncome, a.totalExpenses) == TrendEntryFor(txs, userId, monthWindow, failing, m)
  {
  }

  lemma TrendSeriesStep(txs: seq<Transaction>, userId: UserId, n: int,
                        currentMonth: int, monthWindow: int -> Window, failing: set<int>)
    requires n > 0
    ensures TrendSeries(txs, userId, n, currentMonth, monthWindow, failing)
      == [TrendEntryFor(txs, userId, monthWindow, failing, currentMonth - (n - 1))]
         + TrendSeries(txs, userId, n - 1, currentMonth, monthWindow, failing)
  {
  }

  /** The loop of getMonthlyTrends: i counts down from months - 1 to 0, month `current - i` each time. */
  method MonthlyTrends(txs: seq<Transaction>, categories: seq<Category>, userId: UserId, months: int,
                       currentMonth: int, monthWindow: int -> Window, failing: set<int>) returns (r: seq<TrendEntry>)
    ensures r == TrendSeries(txs, userId, months, currentMonth, monthWindow, failing)
  {
    var trends: seq<TrendEntry> := [];
    var i := months - 1;
    while i >= 0
      invariant trends + TrendSeries(txs, userId, i + 1, currentMonth, monthWindow, failing)
        == TrendSeries(txs, userId, months, currentMonth, monthWindow, failing)
    {
      var analytics := MonthlyAnalytics(txs, categories, userId, monthWindow(currentMonth - i), currentMonth - i in failing);
      var entry := TrendEntry(currentMonth - i, analytics.totalIncome, analytics.totalExpenses);
      MonthlyEntry(txs, categories, userId, monthWindow, failing, currentMonth - i);
      TrendSeriesStep(txs, userId, i + 1, currentMonth, monthWindow, failing);
      ConcatAssoc(trends, [entry], TrendSeries(txs, userId, i, currentMonth, monthWindow, failing));
      trends := trends + [entry];
      i := i - 1;
    }
    r := trends;
  }
}
