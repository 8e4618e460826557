/** The report service: daily, weekly, monthly and range summaries of one
    user's expenses. Each report is a `$match` stage on the user and a
    half-open window of dates followed by a `$group` stage; the reports
    differ in the window and in how the grouped rows are shaped. */
module Reports {
  import opened Wrappers
  import opened Calendar
  import opened DateFormat
  import opened Schemas
  import opened Windows
  import opened Aggregation

  /** The largest year a Python `datetime` can hold. */
  const MaxYear: int := 9999

  /** The result of the `$match` and `$group` stages shaped as every
      report shapes them: `sum` of the group totals, `sum` of the group
      counts and the category-to-total comprehension. */
  datatype RangeSummary = RangeSummary(totalAmount: real, expensesCount: nat, categories: map<Category, real>)

  /** Groups the matched records by category and shapes the groups: the
      total and count cover every record, and the categories map holds
      each present category's sum. */
  function Summarise(xs: seq<ExpenseRecord>): (r: RangeSummary)
    ensures r.totalAmount == SumAmounts(xs) && r.expensesCount == |xs| && r.categories == CategoryTotals(xs)
  {
    var results := GroupBy(xs, CategoryKey);
    GroupedSummary(xs);
    RangeSummary(SumTotals(results), SumCounts(results), CategoryMap(results))
  }

  // ---------------------------------------------------------------------
  // Daily report

  /** The daily report: the categories map holds each category's sum, and
      the total and count cover every record of the user dated on that
      calendar day. */
  function GetDailyReport(store: seq<ExpenseRecord>, userId: string, date: Instant): (r: DailyReport)
    ensures r.date == DateLabel(date)
    ensures var xs := Matching(store, userId, DayWindow(date));
      r.totalAmount == SumAmounts(xs) && r.expensesCount == |xs| && r.categories == CategoryTotals(xs)
  {
    var w := DayWindow(date);
    var s := Summarise(Matching(store, userId, w));
    DailyReport(DateLabel(w.start), s.totalAmount, s.expensesCount, s.categories)
  }

  /** A record is counted in the daily report exactly when it belongs to the
      user and its date is the report's calendar date. */
  lemma DailyReportSelects(store: seq<ExpenseRecord>, userId: string, date: Instant, x: ExpenseRecord)
    ensures x in Matching(store, userId, DayWindow(date))
        <==> x in store && x.userId == userId && DateOf(x.date) == DateOf(date)
  {
    FilterMembers(store, OwnedWithin(userId, DayWindow(date)), x);
    DayWindowIsDate(date, x.date);
  }

  /** The categories of a daily report add up to its total. */
  lemma DailyCategoriesAddUp(store: seq<ExpenseRecord>, userId: string, date: Instant)
    ensures SumValues(GetDailyReport(store, userId, date).categories) == GetDailyReport(store, userId, date).totalAmount
  {
    CategoryTotalsSum(Matching(store, userId, DayWindow(date)));
  }

  // ---------------------------------------------------------------------
  // Monthly report

  /** The monthly report, or `None` where building the month's first or
      next-month datetime raises: a year outside 1..9999, or December of
      year 9999. The route admits only months 1..12. The average spreads
      the month's total evenly over its days. */
  function GetMonthlyReport(store: seq<ExpenseRecord>, userId: string, year: int, month: int): (r: Option<MonthlyReport>)
    requires 1 <= month <= 12
    ensures r.Some? <==> 1 <= year <= MaxYear && !(year == MaxYear && month == 12)
    ensures r.Some? ==> r.value.month == MonthName(month) && r.value.year == year
    ensures r.Some? ==> var xs := Matching(store, userId, MonthWindow(year, month));
      && r.value.totalAmount == SumAmounts(xs) && r.value.expensesCount == |xs|
      && r.value.categories == CategoryTotals(xs)
    ensures r.Some? ==> r.value.dailyAverage == DailyAverage(r.value.totalAmount, DaysInMonth(year, month))
  {
    if !(1 <= year <= MaxYear) || (year == MaxYear && month == 12) then None
    else
      var w := MonthWindow(year, month);
      var s := Summarise(Matching(store, userId, w));
      var daysInMonth := WholeDays(w);
      MonthWholeDays(year, month);
      var average := DailyAverage(s.totalAmount, daysInMonth);
      Some(MonthlyReport(MonthName(month), year, s.totalAmount, s.expensesCount, s.categories, average))
  }

  /** `(end_date - start_date).days`: the whole days a window spans. */
  function WholeDays(w: Window): int {
    (w.end - w.start) / Day
  }

  /** A monthly window spans as many whole days as the month has. */
  lemma MonthWholeDays(year: int, month: int)
    requires year >= 1 && 1 <= month <= 12
    ensures WholeDays(MonthWindow(year, month)) == DaysInMonth(year, month)
  {
    DivDay(DaysInMonth(year, month), 0);
  }

  /** `total_amount / days_in_month if days_in_month > 0 else 0`: spread
      evenly over the days, the average gives back the total. */
  function DailyAverage(total: real, days: int): (a: real)
    ensures days > 0 ==> a * days as real == total
    ensures days <= 0 ==> a == 0.0
  {
    if days > 0 then total / days as real else 0.0
  }

  /** An average that, times the days, gives back the total. */
  predicate SpreadsOver(r: Option<MonthlyReport>, days: int) {
    r.Some? ==> r.value.dailyAverage * days as real == r.value.totalAmount
  }

  /** The monthly `daily_average`, times the days of the month, gives back
      the month's total. */
  lemma MonthlyAverageSpread(store: seq<ExpenseRecord>, userId: string, year: int, month: int)
    requires 1 <= month <= 12
    ensures SpreadsOver(GetMonthlyReport(store, userId, year, month), DaysInMonth(year, month))
  {
    ReportAverageSpread(GetMonthlyReport(store, userId, year, month), DaysInMonth(year, month));
  }

  lemma ReportAverageSpread(r: Option<MonthlyReport>, days: int)
    requires days > 0 && (r.Some? ==> r.value.dailyAverage == DailyAverage(r.value.totalAmount, days))
    ensures SpreadsOver(r, days)
  {
  }

  /** A record is counted in the monthly report exactly when it belongs to
      the user and is dated in that year and month. */
  lemma MonthlyReportSelects(store: seq<ExpenseRecord>, userId: string, year: int, month: int, x: ExpenseRecord)
    requires year >= 1 && 1 <= month <= 12
    ensures x in Matching(store, userId, MonthWindow(year, month))
        <==> x in store && x.userId == userId && DateOf(x.date).year == year && DateOf(x.date).month == month
  {
    FilterMembers(store, OwnedWithin(userId, MonthWindow(year, month)), x);
    MonthWindowIsMonth(year, month, x.date);
  }

  // ---------------------------------------------------------------------
  // Range summary

  /** The summary of the user's records dated in `[start, end)`. */
  function GetExpensesSummary(store: seq<ExpenseRecord>, userId: string, start: Instant, end: Instant): (r: RangeSummary)
    ensures var xs := Matching(store, userId, Window(start, end));
      r.totalAmount == SumAmounts(xs) && r.expensesCount == |xs| && r.categories == CategoryTotals(xs)
  {
    Summarise(Matching(store, userId, Window(start, end)))
  }

  /** A range that ends where it starts, or before, matches no record. */
  lemma EmptyRangeSummary(store: seq<ExpenseRecord>, userId: string, start: Instant, end: Instant)
    requires end <= start
    ensures GetExpensesSummary(store, userId, start, end) == RangeSummary(0.0, 0, map[])
  {
    EmptyWindowMatchesNothing(store, userId, Window(start, end));
  }

  /** Splitting a range at any instant splits its total and its count. */
  lemma RangeSummarySplit(store: seq<ExpenseRecord>, userId: string, a: Instant, mid: Instant, b: Instant)
    requires a <= mid <= b
    ensures GetExpensesSummary(store, userId, a, b).totalAmount
         == GetExpensesSummary(store, userId, a, mid).totalAmount + GetExpensesSummary(store, userId, mid, b).totalAmount
    ensures GetExpensesSummary(store, userId, a, b).expensesCount
         == GetExpensesSummary(store, userId, a, mid).expensesCount + GetExpensesSummary(store, userId, mid, b).expensesCount
  {
    MatchingSplit(store, userId, a, mid, b);
  }

  /** The daily report is the range summary of its day. */
  lemma DailyIsRangeSummary(store: seq<ExpenseRecord>, userId: string, date: Instant)
    ensures var d, w := GetDailyReport(store, userId, date), DayWindow(date);
      RangeSummary(d.totalAmount, d.expensesCount, d.categories) == GetExpensesSummary(store, userId, w.start, w.end)
  {
  }
}
