/** The weekly report: the week's records grouped by date label and
    category, folded into per-date entries and per-category totals, and laid
    out as one entry per day from Monday to Sunday.

    `$dateToString` and `strftime` both print `%Y-%m-%d`. The two loops only
    rely on the label telling days apart, so `BuildWeeklyReport` takes the
    label function as a parameter and `GetWeeklyReport` supplies `DateLabel`. */
module Weekly {
  import opened Calendar
  import opened DateFormat
  import opened Schemas
  import opened Windows
  import opened Aggregation
  import opened Reports

  /** The `_id` of the weekly `$group` stage. */
  datatype DayCategory = DayCategory(day: string, category: Category)

  /** The weekly `$group` key: the label of the record's date and its category. */
  function DayKey(dayOf: Instant -> string): ExpenseRecord -> DayCategory {
    (x: ExpenseRecord) => DayCategory(dayOf(x.date), x.category)
  }

  /** `dayOf` gives two instants the same label exactly on the same day. */
  ghost predicate DayKeyed(dayOf: Instant -> string) {
    forall s: Instant, t: Instant :: dayOf(s) == dayOf(t) <==> s / Day == t / Day
  }

  /** One value of `daily_data`. */
  datatype DayTotals = DayTotals(totalAmount: real, expensesCount: nat, categories: map<Category, real>)

  /** The default of `daily_data` for a date no group mentions. */
  const NoExpenses: DayTotals := DayTotals(0.0, 0, map[])

  function LookupDay(daily: map<string, DayTotals>, day: string): DayTotals {
    if day in daily then daily[day] else NoExpenses
  }

  /** `daily_data` after the first loop has gone through the groups `gs`:
      each group adds its total and count to its date's entry and sets its
      category there. */
  function FoldDaily(gs: seq<Group<DayCategory>>): map<string, DayTotals>
    decreases |gs|
  {
    if |gs| == 0 then map[]
    else
      var daily, g := FoldDaily(gs[..|gs| - 1]), gs[|gs| - 1];
      var d := LookupDay(daily, g.key.day);
      daily[g.key.day := DayTotals(d.totalAmount + g.total, d.expensesCount + g.count,
                                   d.categories[g.key.category := g.total])]
  }

  /** `overall_categories` after the first loop has gone through `gs`. */
  function FoldOverall(gs: seq<Group<DayCategory>>): map<Category, real>
    decreases |gs|
  {
    if |gs| == 0 then map[]
    else
      var overall, g := FoldOverall(gs[..|gs| - 1]), gs[|gs| - 1];
      overall[g.key.category := Get(overall, g.key.category) + g.total]
  }

  function OnDay(day: string): DayCategory -> bool {
    (k: DayCategory) => k.day == day
  }

  function WithCategory(c: Category): DayCategory -> bool {
    (k: DayCategory) => k.category == c
  }

  /** The category totals the groups of `day` leave in that date's entry. */
  function DayCategories(gs: seq<Group<DayCategory>>, day: string): map<Category, real>
    decreases |gs|
  {
    if |gs| == 0 then map[]
    else
      var m, g := DayCategories(gs[..|gs| - 1], day), gs[|gs| - 1];
      if g.key.day == day then m[g.key.category := g.total] else m
  }

  /** The entry of `daily_data` for a date holds the sums of that date's groups. */
  lemma {:induction false} FoldDailyAt(gs: seq<Group<DayCategory>>, day: string)
    ensures LookupDay(FoldDaily(gs), day)
         == DayTotals(TotalWhere(gs, OnDay(day)), CountWhere(gs, OnDay(day)), DayCategories(gs, day))
    decreases |gs|
  {
    if |gs| > 0 {
      FoldDailyAt(gs[..|gs| - 1], day);
    }
  }

  /** With distinct keys, a date's category map holds the one group of that
      date and category. */
  lemma {:induction false} DayCategoriesValues(gs: seq<Group<DayCategory>>, day: string, c: Category)
    requires DistinctKeys(gs)
    ensures c in DayCategories(gs, day) <==> DayCategory(day, c) in Keys(gs)
    ensures c in DayCategories(gs, day) ==> DayCategories(gs, day)[c] == TotalWhere(gs, IsKey(DayCategory(day, c)))
    decreases |gs|
  {
    if |gs| > 0 {
      var init, g := gs[..|gs| - 1], gs[|gs| - 1];
      DayCategoriesValues(init, day, c);
      if g.key == DayCategory(day, c) {
        TotalWhereNone(init, IsKey(DayCategory(day, c)));
      }
    }
  }

  /** `overall_categories` holds, per category, the sum of that category's groups. */
  lemma {:induction false} FoldOverallAt(gs: seq<Group<DayCategory>>, c: Category)
    ensures c in FoldOverall(gs) <==> exists k :: k in Keys(gs) && k.category == c
    ensures Get(FoldOverall(gs), c) == TotalWhere(gs, WithCategory(c))
    decreases |gs|
  {
    if |gs| > 0 {
      var init, g := gs[..|gs| - 1], gs[|gs| - 1];
      FoldOverallAt(init, c);
      if g.key.category == c {
        assert g.key in Keys(gs);
      }
    }
  }

  function LabelIs(dayOf: Instant -> string, day: string): ExpenseRecord -> bool {
    (x: ExpenseRecord) => dayOf(x.date) == day
  }

  function LabelAndCategory(dayOf: Instant -> string, day: string, c: Category): ExpenseRecord -> bool {
    (x: ExpenseRecord) => dayOf(x.date) == day && x.category == c
  }

  /** The entry the first loop builds for a date summarises the records
      carrying that date label. */
  lemma DayEntry(xs: seq<ExpenseRecord>, dayOf: Instant -> string, day: string)
    ensures var ys := Filter(xs, LabelIs(dayOf, day));
      LookupDay(FoldDaily(GroupBy(xs, DayKey(dayOf))), day) == DayTotals(SumAmounts(ys), |ys|, CategoryTotals(ys))
  {
    FoldDailyAt(GroupBy(xs, DayKey(dayOf)), day);
    GroupBySums(xs, DayKey(dayOf), OnDay(day), LabelIs(dayOf, day));
    DayCategoriesTotals(xs, dayOf, day);
  }

  /** The categories a date's entry collects are the per-category breakdown
      of that date's records. */
  lemma DayCategoriesTotals(xs: seq<ExpenseRecord>, dayOf: Instant -> string, day: string)
    ensures DayCategories(GroupBy(xs, DayKey(dayOf)), day) == CategoryTotals(Filter(xs, LabelIs(dayOf, day)))
  {
    var gs := GroupBy(xs, DayKey(dayOf));
    var ys := Filter(xs, LabelIs(dayOf, day));
    forall c: Category
      ensures c in DayCategories(gs, day) <==> c in CategoryTotals(ys)
      ensures c in DayCategories(gs, day) ==> DayCategories(gs, day)[c] == CategoryTotals(ys)[c]
    {
      DayEntryCategory(xs, dayOf, day, c);
    }
  }

  lemma DayEntryCategory(xs: seq<ExpenseRecord>, dayOf: Instant -> string, day: string, c: Category)
    ensures var gs, ys := GroupBy(xs, DayKey(dayOf)), Filter(xs, LabelIs(dayOf, day));
      && (c in DayCategories(gs, day) <==> c in CategoriesOf(ys))
      && (c in DayCategories(gs, day) ==> DayCategories(gs, day)[c] == SumAmounts(Filter(ys, OfCategory(c))))
  {
    var key := DayKey(dayOf);
    var gs, ys := GroupBy(xs, key), Filter(xs, LabelIs(dayOf, day));
    var k := DayCategory(day, c);
    DayCategoriesValues(gs, day, c);
    GroupByKeys(xs, key, k);
    if c in CategoriesOf(ys) {
      var y :| y in ys && y.category == c;
      FilterMembers(xs, LabelIs(dayOf, day), y);
      assert y in xs && key(y) == k;
    }
    if k in Keys(gs) {
      var x :| x in xs && key(x) == k;
      FilterMembers(xs, LabelIs(dayOf, day), x);
      assert x in ys;
    }
    GroupBySums(xs, key, IsKey(k), LabelAndCategory(dayOf, day, c));
    FilterFilter(xs, LabelIs(dayOf, day), OfCategory(c), LabelAndCategory(dayOf, day, c));
  }

  /** `overall_categories` is the per-category breakdown of the whole week. */
  lemma WeekCategories(xs: seq<ExpenseRecord>, dayOf: Instant -> string)
    ensures FoldOverall(GroupBy(xs, DayKey(dayOf))) == CategoryTotals(xs)
  {
    forall c: Category
      ensures c in FoldOverall(GroupBy(xs, DayKey(dayOf))) <==> c in CategoryTotals(xs)
      ensures c in CategoryTotals(xs) ==> FoldOverall(GroupBy(xs, DayKey(dayOf)))[c] == CategoryTotals(xs)[c]
    {
      WeekCategory(xs, dayOf, c);
    }
  }

  lemma WeekCategory(xs: seq<ExpenseRecord>, dayOf: Instant -> string, c: Category)
    ensures c in FoldOverall(GroupBy(xs, DayKey(dayOf))) <==> c in CategoriesOf(xs)
    ensures Get(FoldOverall(GroupBy(xs, DayKey(dayOf))), c) == SumAmounts(Filter(xs, OfCategory(c)))
  {
    var key := DayKey(dayOf);
    var gs := GroupBy(xs, key);
    FoldOverallAt(gs, c);
    GroupBySums(xs, key, WithCategory(c), OfCategory(c));
    if c in CategoriesOf(xs) {
      var x :| x in xs && x.category == c;
      GroupByKeys(xs, key, key(x));
    }
    if c in FoldOverall(gs) {
      var k: DayCategory :| k in Keys(gs) && k.category == c;
      GroupByKeys(xs, key, k);
    }
  }

  /** Within a week starting at midnight `start`, the records labelled with
      the date of day `i`, which starts at `m`, are the records of that day. */
  lemma WeekDayRecords(store: seq<ExpenseRecord>, userId: string, dayOf: Instant -> string,
                       start: Instant, i: nat, m: Instant)
    requires start % Day == 0 && i < 7 && m == start + i * Day
    requires DayKeyed(dayOf)
    ensures Filter(Matching(store, userId, Window(start, start + 7 * Day)), LabelIs(dayOf, dayOf(m)))
         == Matching(store, userId, Window(m, m + Day))
  {
    var w := Window(start, start + 7 * Day);
    forall x | x in store
      ensures (OwnedWithin(userId, w)(x) && LabelIs(dayOf, dayOf(m))(x)) == OwnedWithin(userId, Window(m, m + Day))(x)
    {
      DayIndexAfter(start, i, x.date);
    }
    FilterFilter(store, OwnedWithin(userId, w), LabelIs(dayOf, dayOf(m)), OwnedWithin(userId, Window(m, m + Day)));
  }

  /** The report of the day starting at midnight `m`, labelled by `dayOf`. */
  function LabelledDay(store: seq<ExpenseRecord>, userId: string, dayOf: Instant -> string, m: Instant): DailyReport {
    var ys := Matching(store, userId, Window(m, m + Day));
    DailyReport(dayOf(m), SumAmounts(ys), |ys|, CategoryTotals(ys))
  }

  /** A breakdown entry as the second loop writes it from `daily_data`. */
  function BreakdownEntry(daily: map<string, DayTotals>, dayOf: Instant -> string, m: Instant): DailyReport {
    var d := LookupDay(daily, dayOf(m));
    DailyReport(dayOf(m), d.totalAmount, d.expensesCount, d.categories)
  }

  /** The entry the second loop writes for day `i` of the week, which starts
      at `m`, is the report of that day. */
  lemma BreakdownIsDaily(store: seq<ExpenseRecord>, userId: string, dayOf: Instant -> string,
                         start: Instant, i: nat, m: Instant)
    requires start % Day == 0 && i < 7 && m == start + i * Day
    requires DayKeyed(dayOf)
    ensures BreakdownEntry(FoldDaily(GroupBy(Matching(store, userId, Window(start, start + 7 * Day)), DayKey(dayOf))), dayOf, m)
         == LabelledDay(store, userId, dayOf, m)
  {
    DayEntry(Matching(store, userId, Window(start, start + 7 * Day)), dayOf, dayOf(m));
    WeekDayRecords(store, userId, dayOf, start, i, m);
  }

  /** The reports of the `n` days from midnight `start`, labelled by `dayOf`. */
  function LabelledDays(store: seq<ExpenseRecord>, userId: string, dayOf: Instant -> string, start: Instant, n: nat)
    : (r: seq<DailyReport>)
    ensures |r| == n
    decreases n
  {
    if n == 0 then []
    else LabelledDays(store, userId, dayOf, start, n - 1) + [LabelledDay(store, userId, dayOf, start + (n - 1) * Day)]
  }

  /** The entries the second loop writes for the first `n` days from `start`. */
  function Entries(daily: map<string, DayTotals>, dayOf: Instant -> string, start: Instant, n: nat): (r: seq<DailyReport>)
    ensures |r| == n
    decreases n
  {
    if n == 0 then []
    else Entries(daily, dayOf, start, n - 1) + [BreakdownEntry(daily, dayOf, start + (n - 1) * Day)]
  }

  /** Within a week, the entries the second loop writes from the first
      loop's `daily_data` are the reports of the week's days. */
  lemma {:induction false} EntriesAreDays(store: seq<ExpenseRecord>, userId: string, dayOf: Instant -> string,
                                          start: Instant, n: nat)
    requires start % Day == 0 && n <= 7 && DayKeyed(dayOf)
    ensures Entries(FoldDaily(GroupBy(Matching(store, userId, Window(start, start + 7 * Day)), DayKey(dayOf))), dayOf, start, n)
         == LabelledDays(store, userId, dayOf, start, n)
    decreases n
  {
    if n > 0 {
      EntriesAreDays(store, userId, dayOf, start, n - 1);
      BreakdownIsDaily(store, userId, dayOf, start, n - 1, start + (n - 1) * Day);
    }
  }

  /** The daily entries' totals, added up. */
  function SumDailyTotals(bs: seq<DailyReport>): real
    decreases |bs|
  {
    if |bs| == 0 then 0.0 else SumDailyTotals(bs[..|bs| - 1]) + bs[|bs| - 1].totalAmount
  }

  /** The daily entries' counts, added up. */
  function SumDailyCounts(bs: seq<DailyReport>): nat
    decreases |bs|
  {
    if |bs| == 0 then 0 else SumDailyCounts(bs[..|bs| - 1]) + bs[|bs| - 1].expensesCount
  }

  /** The reports of `n` consecutive days add up to the summary of the
      `n`-day window. */
  lemma {:induction false} DaysSum(store: seq<ExpenseRecord>, userId: string, dayOf: Instant -> string,
                                   start: Instant, n: nat)
    ensures SumDailyTotals(LabelledDays(store, userId, dayOf, start, n))
         == SumAmounts(Matching(store, userId, Window(start, start + n * Day)))
    ensures SumDailyCounts(LabelledDays(store, userId, dayOf, start, n))
         == |Matching(store, userId, Window(start, start + n * Day))|
    decreases n
  {
    if n == 0 {
      EmptyWindowMatchesNothing(store, userId, Window(start, start));
    } else {
      DaysSum(store, userId, dayOf, start, n - 1);
      DayAdded(store, userId, dayOf, start, n, start + (n - 1) * Day);
    }
  }

  /** The step of `DaysSum`: the report of the day starting at `m` extends
      the sums to one more day. */
  lemma DayAdded(store: seq<ExpenseRecord>, userId: string, dayOf: Instant -> string, start: Instant, n: nat, m: Instant)
    requires 0 < n && m == start + (n - 1) * Day
    requires SumDailyTotals(LabelledDays(store, userId, dayOf, start, n - 1)) == SumAmounts(Matching(store, userId, Window(start, m)))
    requires SumDailyCounts(LabelledDays(store, userId, dayOf, start, n - 1)) == |Matching(store, userId, Window(start, m))|
    ensures SumDailyTotals(LabelledDays(store, userId, dayOf, start, n))
         == SumAmounts(Matching(store, userId, Window(start, start + n * Day)))
    ensures SumDailyCounts(LabelledDays(store, userId, dayOf, start, n))
         == |Matching(store, userId, Window(start, start + n * Day))|
  {
    var bs := LabelledDays(store, userId, dayOf, start, n);
    assert bs[..n - 1] == LabelledDays(store, userId, dayOf, start, n - 1);
    assert m + Day == start + n * Day;
    MatchingSplit(store, userId, start, m, m + Day);
  }

  /** The first loop of the weekly report: each group adds its total and
      count to its date's entry of `daily_data`, sets its category there, and
      adds its total to `overall_categories`. */
  method FoldGroups(results: seq<Group<DayCategory>>) returns (dailyData: map<string, DayTotals>, overall: map<Category, real>)
    ensures dailyData == FoldDaily(results) && overall == FoldOverall(results)
  {
    dailyData, overall := map[], map[];
    for k := 0 to |results|
      invariant dailyData == FoldDaily(results[..k])
      invariant overall == FoldOverall(results[..k])
    {
      var g := results[k];
      assert results[..k + 1][..k] == results[..k];
      var day := g.key.day;
      var current := if day in dailyData then dailyData[day] else NoExpenses;
      dailyData := dailyData[day := DayTotals(current.totalAmount + g.total, current.expensesCount + g.count,
                                              current.categories[g.key.category := g.total])];
      var sofar := if g.key.category in overall then overall[g.key.category] else 0.0;
      overall := overall[g.key.category := sofar + g.total];
    }
    assert results[..|results|] == results;
  }

  /** The second loop of the weekly report: one entry per day from `start`,
      the day's entry of `daily_data` or zeros when it has none. */
  method LayOutWeek(dailyData: map<string, DayTotals>, dayOf: Instant -> string, start: Instant)
    returns (breakdown: seq<DailyReport>)
    ensures breakdown == Entries(dailyData, dayOf, start, 7)
  {
    breakdown := [];
    for i := 0 to 7
      invariant breakdown == Entries(dailyData, dayOf, start, i)
    {
      var dayLabel := dayOf(start + i * Day);
      if dayLabel in dailyData {
        var d := dailyData[dayLabel];
        breakdown := breakdown + [DailyReport(dayLabel, d.totalAmount, d.expensesCount, d.categories)];
      } else {
        breakdown := breakdown + [DailyReport(dayLabel, 0.0, 0, map[])];
      }
    }
  }

  /** The two loops of the weekly report over the week containing `date`:
      the entries are the reports of the week's days, Monday first, and the
      week's total, count and categories cover every record of the user in
      the week. */
  method BuildWeeklyReport(store: seq<ExpenseRecord>, userId: string, date: Instant, dayOf: Instant -> string)
    returns (r: WeeklyReport)
    requires DayKeyed(dayOf)
    ensures var w := WeekWindow(date);
      r.weekStart == dayOf(w.start) && r.weekEnd == dayOf(w.end - Day)
    ensures r.dailyBreakdown == LabelledDays(store, userId, dayOf, WeekWindow(date).start, 7)
    ensures var xs := Matching(store, userId, WeekWindow(date));
      r.totalAmount == SumAmounts(xs) && r.expensesCount == |xs| && r.categories == CategoryTotals(xs)
  {
    var results := GroupBy(Matching(store, userId, WeekWindow(date)), DayKey(dayOf));
    var dailyData, overall := FoldGroups(results);
    var breakdown := LayOutWeek(dailyData, dayOf, WeekWindow(date).start);
    WeekBreakdown(store, userId, dayOf, date, dailyData);
    WeekTotals(store, userId, dayOf, date);
    WeekCategories(Matching(store, userId, WeekWindow(date)), dayOf);
    r := WeeklyReport(dayOf(WeekWindow(date).start), dayOf(WeekWindow(date).end - Day),
                      SumDailyTotals(breakdown), SumDailyCounts(breakdown), breakdown, overall);
  }

  /** The entries the second loop writes for the week containing `date`
      are the reports of the week's days. */
  lemma WeekBreakdown(store: seq<ExpenseRecord>, userId: string, dayOf: Instant -> string, date: Instant,
                      dailyData: map<string, DayTotals>)
    requires DayKeyed(dayOf)
    requires dailyData == FoldDaily(GroupBy(Matching(store, userId, WeekWindow(date)), DayKey(dayOf)))
    ensures Entries(dailyData, dayOf, WeekWindow(date).start, 7) == LabelledDays(store, userId, dayOf, WeekWindow(date).start, 7)
  {
    WeekWindowShape(date);
    EntriesAreDays(store, userId, dayOf, WeekWindow(date).start, 7);
  }

  /** The reports of the week's days add up to the week's total and count. */
  lemma WeekTotals(store: seq<ExpenseRecord>, userId: string, dayOf: Instant -> string, date: Instant)
    ensures var xs, bs := Matching(store, userId, WeekWindow(date)), LabelledDays(store, userId, dayOf, WeekWindow(date).start, 7);
      SumDailyTotals(bs) == SumAmounts(xs) && SumDailyCounts(bs) == |xs|
  {
    WeekWindowShape(date);
    DaysSum(store, userId, dayOf, WeekWindow(date).start, 7);
  }

  /** `%Y-%m-%d` labels tell days apart. */
  lemma DateLabelKeysDays()
    ensures DayKeyed(DateLabel)
  {
    forall s: Instant, t: Instant
      ensures DateLabel(s) == DateLabel(t) <==> s / Day == t / Day
    {
      DateLabelSameDay(s, t);
    }
  }

  /** The daily report of a midnight is the `%Y-%m-%d`-labelled report of
      the day starting there. */
  lemma DailyReportAt(store: seq<ExpenseRecord>, userId: string, m: Instant)
    requires m % Day == 0
    ensures GetDailyReport(store, userId, m) == LabelledDay(store, userId, DateLabel, m)
  {
    DayWindowAligned(m);
  }

  /** The daily reports of the `n` days from midnight `start`. */
  function DailyReports(store: seq<ExpenseRecord>, userId: string, start: Instant, n: nat): (r: seq<DailyReport>)
    ensures |r| == n
    decreases n
  {
    if n == 0 then []
    else DailyReports(store, userId, start, n - 1) + [GetDailyReport(store, userId, start + (n - 1) * Day)]
  }

  /** With `%Y-%m-%d` labels the reports of the days from midnight `start`
      are their daily reports. */
  lemma {:induction false} DateLabelledDays(store: seq<ExpenseRecord>, userId: string, start: Instant, n: nat)
    requires start % Day == 0
    ensures LabelledDays(store, userId, DateLabel, start, n) == DailyReports(store, userId, start, n)
    decreases n
  {
    if n > 0 {
      DateLabelledDays(store, userId, start, n - 1);
      DateLabelledDay(store, userId, start, n - 1, start + (n - 1) * Day);
    }
  }

  lemma DateLabelledDay(store: seq<ExpenseRecord>, userId: string, start: Instant, i: nat, m: Instant)
    requires start % Day == 0 && m == start + i * Day
    ensures LabelledDay(store, userId, DateLabel, m) == GetDailyReport(store, userId, m)
  {
    DayIndexStep(start, i, m);
    DailyReportAt(store, userId, m);
  }

  /** The weekly report: the breakdown is the daily reports of the week's
      seven days, Monday first, and the week's total, count and categories
      cover every record of the user in the week. */
  method GetWeeklyReport(store: seq<ExpenseRecord>, userId: string, date: Instant) returns (r: WeeklyReport)
    ensures var w := WeekWindow(date);
      r.weekStart == DateLabel(w.start) && r.weekEnd == DateLabel(w.end - Day)
    ensures r.dailyBreakdown == DailyReports(store, userId, WeekWindow(date).start, 7)
    ensures var xs := Matching(store, userId, WeekWindow(date));
      r.totalAmount == SumAmounts(xs) && r.expensesCount == |xs| && r.categories == CategoryTotals(xs)
  {
    DateLabelKeysDays();
    r := BuildWeeklyReport(store, userId, date, DateLabel);
    DateLabelledDays(store, userId, WeekWindow(date).start, 7);
  }
}
