/** The `/api/analytics` handler (project/app/api/analytics/route.ts): a userId check, then a
    dispatch on the `type` parameter to the monthly summary, the weekly series or the six-month
    trend series. */
module AnalyticsRoute {
  import opened Types
  import opened Http
  import Analytics

  /** The calendar the date library supplies: the month a day falls in, the inclusive window of
      days of a month, and the first day of the week a day falls in. */
  datatype Calendar = Calendar(monthOf: Day -> int, monthWindow: int -> Window, weekStart: Day -> Day)

  /** The query parameters. `kind` is `type`; a date is None when absent or empty. */
  datatype AnalyticsQuery = AnalyticsQuery(userId: Option<string>, kind: Option<string>, date: Option<Day>)

  /** What each branch of the dispatch answers. */
  datatype AnalyticsData =
    | Monthly(summary: Analytics.MonthlySummary)
    | Weekly(days: seq<Analytics.DayEntry>)
    | Trends(entries: seq<Analytics.TrendEntry>)

  /** The number of months the handler asks the trend series for. */
  const TrendMonths: int := 6

  /** The requested report: the `type` parameter, "monthly" when it is absent or empty. */
  function ReportKind(q: AnalyticsQuery): string {
    if Present(q.kind) then q.kind.value else "monthly"
  }

  /** The day the report is about: the given date, or today. */
  function TargetDay(q: AnalyticsQuery, today: Day): Day {
    if q.date.Some? then q.date.value else today
  }

  /** GET: 400 without a (non-empty) userId, before anything is computed. Otherwise "weekly"
      answers the week of the target day, "trends" the six months ending with the current
      month (the date parameter plays no part), and any other type the month of the target day.
      The three reports answer an empty or zero result on failure instead of throwing, so the
      answer is always 200; the 500 branch is never taken. The failure flags stand for the
      store's queries throwing: one for the month, one for the week, and the set of months of
      the trend series whose query throws. */
  method Get(txs: seq<Transaction>, categories: seq<Category>, q: AnalyticsQuery, today: Day, cal: Calendar,
             monthFails: bool, weekFails: bool, trendFailing: set<int>)
    returns (r: Response<AnalyticsData>)
    ensures r.status == 400 <==> !Present(q.userId)
    ensures r.status != 400 ==> r.status == 200
    ensures !Present(q.userId) ==> r.payload == Failure(UserIdRequired)
    ensures Present(q.userId) && ReportKind(q) == "weekly" ==>
      r.payload == Data(Weekly(Analytics.WeeklySeries(txs, q.userId.value, cal.weekStart(TargetDay(q, today)), weekFails)))
    ensures Present(q.userId) && ReportKind(q) == "trends" ==>
      r.payload == Data(Trends(Analytics.TrendSeries(txs, q.userId.value, TrendMonths, cal.monthOf(today), cal.monthWindow, trendFailing)))
    ensures Present(q.userId) && ReportKind(q) != "weekly" && ReportKind(q) != "trends" ==>
      r.payload == Data(Monthly(Analytics.MonthlyAnalytics(txs, categories, q.userId.value,
                                  cal.monthWindow(cal.monthOf(TargetDay(q, today))), monthFails)))
  {
    if !Present(q.userId) {
      return BadRequest(UserIdRequired);
    }
    var userId := q.userId.value;
    var target := TargetDay(q, today);
    var kind := ReportKind(q);
    var data: AnalyticsData;
    if kind == "weekly" {
      var days := Analytics.WeeklyAnalytics(txs, userId, cal.weekStart(target), weekFails);
      data := Weekly(days);
    } else if kind == "trends" {
      var entries := Analytics.MonthlyTrends(txs, categories, userId, TrendMonths, cal.monthOf(today), cal.monthWindow, trendFailing);
      data := Trends(entries);
    } else {
      data := Monthly(Analytics.MonthlyAnalytics(txs, categories, userId, cal.monthWindow(cal.monthOf(target)), monthFails));
    }
    r := Response(200, Data(data));
  }
}
