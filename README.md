# Expense tracker: reports, store and endpoints, in Dafny

This project models the computational core of an expense-tracker backend. The
backend records dated, categorised expenses per user and reports on them.

- **Report engine** (`reports.dfy`, `weekly.dfy`, `windows.dfy`,
  `aggregation.dfy`, `calendar.dfy`, `date_format.dfy`). It resolves the day,
  Monday-start week, calendar month and caller-given range windows as
  half-open intervals of naive UTC instants. It selects the user's expenses in
  the window and groups them by category, or by day label and category for a
  week. It shapes the totals, counts and per-category maps, the seven
  gap-filled daily entries of a week and the month's daily average.
  - `$match` is modelled as `Filter`, a filter over an in-memory sequence of
    stored expenses, and `$group` as `GroupBy`, a fold of that sequence into
    keyed rows.
  - Instants are microseconds since 0001-01-01, and dates follow the proleptic
    Gregorian calendar of Python's `datetime`.
  - Day labels are the `%Y-%m-%d` form, the extended calendar-date format of
    ISO 8601:2004, section 4.1.2.2. Month names come from a fixed
    twelve-entry table.
  - The weekly report's two loops are methods with loop invariants.
    `BuildWeeklyReport` takes the day-label function as a parameter;
    `GetWeeklyReport` supplies the `%Y-%m-%d` label and proves that its
    breakdown is the seven daily reports of the week.
- **Expense store** (`expense_store.dfy`). `ExpenseService` is a class holding
  the expenses collection as a sequence of records. Its methods are create,
  lookup, listing (filter, date-descending sort, skip/limit), update, scoped
  delete, count and total.
- **Expense endpoints** (`expense_routes.dfy`):
  - the id-format and not-found decisions of the single-expense handlers;
  - the list handler;
  - the shaping of the summary statistics: average per expense and
    per-category percentage, each guarded against division by zero, with rows
    ordered by total.
- **Schema constraints** (`schemas.dfy`): the seven categories, the amount and
  description constraints of created and updated expenses, and the report
  record shapes.
- **Date-range filter builder and pagination bounds** (`dependencies.dfy`).
- **Key rewriting** (`object_id.dfy`): `_id`/`id` rewriting on a mutable
  document class.
- Shared pieces: `Option` and `Result` are in `wrappers.dfy`; the
  descending-order sort used by the listing and the summary is in
  `sorting.dfy`.

The store's invariant `ExpenseService.Valid` keeps the identifiers unique
and every stored record within the schema's constraints (amount above 0,
description of 1 to 500 characters). Create and update therefore take
requests that already meet the schema, as the framework's request
validation guarantees before the service is called.

Amounts are `real`. The store's identifier generator and the clock are
parameters (`newId`, `now`). The `ObjectId.is_valid` check is the parameter
`isValidId` of the handlers.

The monthly report takes `1 <= month <= 12` as a precondition, because the
route's query parameter admits only those months (app/routes/reports.py:31).
For a year Python's `datetime` cannot build, the monthly report returns
`None`: that is a year outside 1..9999, and also December of year 9999, whose
next-month boundary cannot be built.

Percentages are computed only by the summary endpoint
(`GetExpenseSummary`), not by the reports. An inverted range is not
rejected; it matches nothing (`EmptyRangeSummary`).

## Model

| member | source | states |
|---|---|---|
| Schemas.CategoriesEnumerated | app/schemas/expense.py:7-14 | there are exactly seven categories, each listed once, and each category's string parses back to it |
| Schemas.ParseCategory | app/schemas/expense.py:7-14 | a string is accepted only as the value of a category, and the accepted category has that string as its value |
| Schemas.CategoryNameInjective | app/schemas/expense.py:7-14 | distinct categories are stored under distinct strings |
| Schemas.ValidateExpense | app/schemas/expense.py:17-21 | a create request is accepted exactly when amount > 0, the category is one of the seven and the description is 1..500 long; on failure, exactly the offending fields are listed |
| Schemas.ValidateUpdate | app/schemas/expense.py:28-32 | every update field is optional; an update is accepted exactly when each present amount is > 0, each present category is valid and each present description is 1..500 long |
| Calendar.DaysInMonth | app/services/reports.py:152 | a month has 28 to 31 days, and 29 exactly for February of a leap year |
| Calendar.DaysBeforeNextMonth | app/services/reports.py:129-132 | a month's first day plus its length is the next month's first day; after December comes the next year |
| Calendar.FromOrdinal | app/services/reports.py:20 | every ordinal n >= 1 names a valid date whose ordinal is n |
| Calendar.FromOrdinalOrdinal | app/services/reports.py:20 | every valid date is recovered from its ordinal |
| Calendar.OrdinalInjective | app/services/reports.py:20 | distinct valid dates have distinct ordinals |
| Calendar.Weekday | app/services/reports.py:61 | `weekday()` is a number from 0 to 6 |
| Calendar.NextDateOrdinal | app/services/reports.py:96 | the next calendar date is valid and has the next ordinal |
| Calendar.DateOf | app/services/reports.py:20 | an instant falls on the valid date with ordinal `t / Day + 1` |
| Calendar.Midnight | app/services/reports.py:20 | `datetime(y, m, d)` is a midnight that falls on that date |
| Calendar.StartOfDay | app/services/reports.py:62 | truncating to midnight gives the latest midnight at or before the instant, on the same date |
| Calendar.SameDate | app/services/reports.py:20-21 | two instants fall on the same date exactly when they have the same day index |
| Calendar.DateOfNextDay | app/services/reports.py:96 | one day after a midnight is the next calendar date |
| DateFormat.FormatDate | app/services/reports.py:45 | the `%Y-%m-%d` label is at least 10 characters long, and exactly 10 for years up to 9999 |
| DateFormat.FormatDateRoundTrip | app/services/reports.py:45 | reading a label back gives the date it was printed from |
| DateFormat.FormatDateInjective | app/services/reports.py:97 | distinct dates have distinct labels |
| DateFormat.DateLabel | app/services/reports.py:45 | the `%Y-%m-%d` label of an instant's date, as `strftime` and `$dateToString` print it (its properties are stated by `DateLabelSameDay` and `FormatDateRoundTrip`) |
| DateFormat.DateLabelSameDay | app/services/reports.py:97-98 | two instants share a label exactly when they fall on the same day |
| DateFormat.MonthNumber | app/services/reports.py:155 | a name found in the month table is the name of the month returned; a name not found is no month's name |
| DateFormat.MonthNameRoundTrip | app/services/reports.py:155 | the twelve names are distinct, so each month's name gives back that month |
| DateFormat.MonthName | app/services/reports.py:155 | the fixed twelve-entry table standing for `%B`; `MonthNumber` is its inverse |
| Windows.DayWindow | app/services/reports.py:20-21 | the daily window starts at a midnight, lasts one day, holds the instant and starts on its date |
| Windows.DayWindowIsDate | app/services/reports.py:20-27 | an instant is in the daily window (start included, end excluded) exactly when it falls on the same date |
| Windows.DayWindowAligned | app/services/reports.py:20-21 | the daily window of a midnight starts at that midnight |
| Windows.WeekWindow | app/services/reports.py:61-63 | the weekly window starts at a midnight whose day index is a multiple of 7 (a Monday), lasts seven days and holds the instant |
| Windows.WeekdayOfInstant | app/services/reports.py:61 | an instant's weekday is its day index modulo 7 |
| Windows.WeekStartArithmetic | app/services/reports.py:61-62 | stepping back `weekday()` days and truncating lands on the Monday midnight whose seven days hold the instant |
| Windows.WeekDays | app/services/reports.py:95-97 | day i of the week has weekday i, and each day is the calendar day after the one before |
| Windows.WeekEnds | app/services/reports.py:113-114 | `week_start` names a Monday and `week_end`, one day before the end, names a Sunday |
| Windows.MonthWindow | app/services/reports.py:128-132 | the monthly window runs from the first of the month to the first of the next month, December rolling over to January of the next year, and spans exactly the month's days |
| Windows.MonthWindowIsMonth | app/services/reports.py:128-137 | an instant is in the monthly window exactly when its date is in that year and month |
| Aggregation.FilterMembers | app/services/reports.py:25-28 | `$match` keeps a record exactly when it is in the store and meets the condition |
| Aggregation.OwnedWithin | app/services/reports.py:25-28 | the `$match` condition: the record is the user's and dated in `[start, end)` (its meaning is stated by `DailyReportSelects` and `MonthlyReportSelects`) |
| Aggregation.Matching | app/services/reports.py:23-29 | the `$match` stage over the store; `FilterMembers` states which records it keeps |
| Aggregation.AddToGroup | app/services/reports.py:31-35 | adding a record opens its key's group if needed and keeps the keys distinct |
| Aggregation.GroupBy | app/services/reports.py:31-35 | `$group` yields one row per distinct key |
| Aggregation.GroupBySums | app/services/reports.py:31-35 | for any condition on keys, the rows whose keys meet it hold the sum and the number of exactly the records whose keys meet it |
| Aggregation.GroupByKeys | app/services/reports.py:31-35 | a row exists for a key exactly when some record has that key |
| Aggregation.CategoryMapValues | app/services/reports.py:41 | the category comprehension maps each row's key to that row's total |
| Aggregation.CategoryMap | app/services/reports.py:41 | the category comprehension over the grouped rows; `CategoryMapValues` states its entries |
| Aggregation.GroupedSummary | app/services/reports.py:41-43 | the category map is each category's sum, the sum of the totals is the sum of all amounts, and the sum of the counts is the number of records |
| Aggregation.CategoryTotalsSum | app/services/reports.py:41-43 | the category map's values add up to the total amount |
| Aggregation.MatchingSplit | app/services/reports.py:178-181 | splitting a window at any instant splits the matched sum and count |
| Aggregation.EmptyWindowMatchesNothing | app/services/reports.py:180 | an empty or inverted window matches no record |
| Reports.Summarise | app/services/reports.py:41-43 | the shaped total, count and category map are the records' sum, number and per-category breakdown |
| Reports.GetDailyReport | app/services/reports.py:7-51 | the daily report is labelled with the date, and its total, count and categories cover exactly the user's records in the daily window |
| Reports.DailyReportSelects | app/services/reports.py:20-27 | a record counts in the daily report exactly when it is the user's and falls on that date |
| Reports.DailyCategoriesAddUp | app/services/reports.py:41-42 | the daily categories add up to the daily total |
| Reports.DailyIsRangeSummary | app/services/reports.py:7-51 | the daily report is the range summary of its window |
| Reports.GetMonthlyReport | app/services/reports.py:122-161 | the report exists exactly when both boundaries can be built; it has the month's name and year, totals over the monthly window, and as daily average the guarded average of the total over the month's days |
| Reports.MonthWholeDays | app/services/reports.py:152 | `(end_date - start_date).days` is the month's length |
| Reports.DailyAverage | app/services/reports.py:152-153 | with a positive number of days, the average times the days gives back the total; with none, the average is 0 |
| Reports.MonthlyAverageSpread | app/services/reports.py:152-153 | the monthly report's `daily_average`, times the month's days, gives back its `total_amount` |
| Reports.WholeDays | app/services/reports.py:152 | `(end_date - start_date).days`; `MonthWholeDays` states its value for a month |
| Reports.MonthlyReportSelects | app/services/reports.py:128-137 | a record counts in the monthly report exactly when it is the user's and dated in that year and month |
| Reports.GetExpensesSummary | app/services/reports.py:165-202 | the range summary's total, count and categories cover exactly the user's records in `[start, end)` |
| Reports.EmptyRangeSummary | app/services/reports.py:176-196 | a range with end <= start yields total 0, count 0 and no categories |
| Reports.RangeSummarySplit | app/services/reports.py:176-196 | splitting a range splits its total and its count |
| Weekly.FoldDailyAt | app/services/reports.py:90-92 | the `daily_data` entry of a day holds the total, count and category map of that day's groups |
| Weekly.DayCategoriesValues | app/services/reports.py:92 | a day's category map holds the one group of that day and category |
| Weekly.FoldOverallAt | app/services/reports.py:93 | `overall_categories` holds, per category, the sum of that category's groups |
| Weekly.FoldDaily | app/services/reports.py:85-92 | the `daily_data` the first loop builds, as a fold over the groups; `FoldDailyAt` and `FoldGroups` state it |
| Weekly.FoldOverall | app/services/reports.py:85-93 | the `overall_categories` the first loop builds, as a fold over the groups; `FoldOverallAt` and `FoldGroups` state it |
| Weekly.DayEntry | app/services/reports.py:85-92 | the entry the first loop builds for a day label summarises the records carrying that label |
| Weekly.DayCategoriesTotals | app/services/reports.py:92 | a day's category map is the per-category breakdown of that day's records |
| Weekly.DayEntryCategory | app/services/reports.py:92 | a category appears in a day's map exactly when a record of that day has it, with that category's sum |
| Weekly.WeekCategories | app/services/reports.py:84-93 | `overall_categories` is the per-category breakdown of the whole week |
| Weekly.WeekCategory | app/services/reports.py:93 | each category's overall total is the week's sum for that category |
| Weekly.WeekDayRecords | app/services/reports.py:72-76 | within the week, the records whose label is day i's label are exactly the records of day i |
| Weekly.BreakdownIsDaily | app/services/reports.py:98-109 | the entry written for day i, taken from `daily_data` or zero-filled, is that day's report |
| Weekly.LabelledDays | app/services/reports.py:95-109 | the reports of n consecutive days are n entries |
| Weekly.Entries | app/services/reports.py:94-109 | the second loop writes one entry per day |
| Weekly.EntriesAreDays | app/services/reports.py:94-109 | the entries written from `daily_data` are the reports of the week's days, in order |
| Weekly.DaysSum | app/services/reports.py:110-111 | the days' totals and counts add up to the total and count of their whole window |
| Weekly.SumDailyTotals | app/services/reports.py:110 | the sum of the breakdown's totals; `DaysSum` and `WeekTotals` state its value |
| Weekly.SumDailyCounts | app/services/reports.py:111 | the sum of the breakdown's counts; `DaysSum` and `WeekTotals` state its value |
| Weekly.DayAdded | app/services/reports.py:110-111 | one more day's report extends those sums by one day |
| Weekly.FoldGroups | app/services/reports.py:85-93 | the first loop leaves `daily_data` and `overall_categories` as the fold of all groups |
| Weekly.LayOutWeek | app/services/reports.py:94-109 | the second loop writes the seven entries from the week's Monday |
| Weekly.BuildWeeklyReport | app/services/reports.py:54-119 | the labels name the week's first and last day; the breakdown is the seven days' reports; the total, count and categories cover the user's records in the week |
| Weekly.WeekBreakdown | app/services/reports.py:94-109 | for the week containing the date, the written entries are the seven days' reports |
| Weekly.WeekTotals | app/services/reports.py:110-111 | the seven days' totals and counts add up to the week's |
| Weekly.DateLabelKeysDays | app/services/reports.py:74 | `%Y-%m-%d` labels are equal exactly on the same day |
| Weekly.DailyReportAt | app/services/reports.py:97 | the report of a day starting at a midnight is that day's daily report |
| Weekly.DailyReports | app/services/reports.py:95-109 | the daily reports of n consecutive days are n entries |
| Weekly.DateLabelledDays | app/services/reports.py:95-109 | with `%Y-%m-%d` labels, the days' reports are their daily reports |
| Weekly.DateLabelledDay | app/services/reports.py:96-97 | day i's labelled report is the daily report of its midnight |
| Weekly.GetWeeklyReport | app/services/reports.py:54-119 | labels are those of the week's Monday and Sunday; the breakdown is the daily reports of the seven days from Monday; the totals, count and categories cover the user's records in the week |
| Sorting.Insert | app/models/expense.py:62 | inserting into a descending sequence keeps it descending and adds exactly that element |
| Sorting.SortDesc | app/models/expense.py:62 | sorting yields a descending permutation of the input |
| Sorting.SortDescElements | app/models/expense.py:62 | sorting keeps the length and exactly the elements |
| ExpenseStore.FindIndex | app/models/expense.py:33-36 | the position found is the first record with that id and owner, or the end of the store |
| ExpenseStore.Lookup | app/models/expense.py:31-37 | a found record is in the store and has that id and owner; when none is found, no record has both |
| ExpenseStore.LookupUnique | app/models/expense.py:31-37 | with unique ids, a lookup returns a record exactly when the record has the id and owner asked for |
| ExpenseStore.NewRecord | app/models/expense.py:17-25 | a record created from a valid request is a valid record |
| ExpenseStore.Page | app/models/expense.py:62 | skip/limit yields at most `limit` records (0 meaning no limit), namely those after the first `skip`, in order |
| ExpenseStore.PageSorted | app/models/expense.py:62 | a page of a date-descending sequence is date-descending |
| ExpenseStore.ListedMeetsQuery | app/models/expense.py:49-60 | each listed record is the caller's, has the requested category when one is given, and is dated within the bounds, both ends included |
| ExpenseStore.ListingComplete | app/models/expense.py:49-63 | without skip and limit, the listing holds exactly the selected records, as often as the store does |
| ExpenseStore.ListingOrdered | app/models/expense.py:62 | the listing runs from the latest date down and holds at most `limit` records |
| ExpenseStore.Selects | app/models/expense.py:49-60 | the query built key by key: owner, category when given, inclusive date bounds when given (stated by `ListedMeetsQuery`) |
| ExpenseStore.ListExpenses | app/models/expense.py:49-62 | the filtered, date-descending, paged listing (stated by `ListedMeetsQuery`, `ListingComplete` and `ListingOrdered`) |
| ExpenseStore.ApplyUpdateKeeps | app/models/expense.py:72-79 | an update keeps id, owner and creation stamp, sets `updated_at`, keeps a valid record valid and is idempotent |
| ExpenseStore.ApplyUpdate | app/models/expense.py:72-79 | `$set` of the present fields plus `updated_at` (stated by `ApplyUpdateKeeps`) |
| ExpenseStore.ReplaceAt | app/models/expense.py:76-83 | after the update, the lookup by the same id and owner finds the updated record, and ids stay unique |
| ExpenseStore.RemovedExactly | app/models/expense.py:85-91 | deletion removes exactly the record the lookup finds and keeps every other record; ids stay unique, and the id is gone afterwards |
| ExpenseStore.Removed | app/models/expense.py:85-91 | the store after `delete_one` (stated by `RemovedExactly`) |
| ExpenseStore.SingleGroup | app/models/expense.py:99-104 | grouping under `_id: None` yields no row for no records and exactly one row otherwise |
| ExpenseStore.TotalPipeline | app/models/expense.py:97-104 | the first row's total, or 0.0 with no row, is the sum of all the user's amounts |
| ExpenseStore.TotalOfGroups | app/models/expense.py:104 | `result[0]["total"] if result else 0.0` (stated by `TotalPipeline`) |
| ExpenseStore.UserRecordsSnoc | app/models/expense.py:93-104 | a new record changes a user's count and total only when it is that user's, by one and by its amount |
| ExpenseStore.RemovedTotals | app/models/expense.py:85-91 | deleting one of the user's records lowers the count by one and the total by its amount |
| ExpenseStore.ExpenseService.CreateExpense | app/models/expense.py:15-29 | appends the record with the request's fields, the creation stamp and no update stamp; the record can then be found by its id and owner, and every stored record still meets the schema's constraints |
| ExpenseStore.ExpenseService.GetExpenseById | app/models/expense.py:31-37 | returns the lookup by id and owner |
| ExpenseStore.ExpenseService.GetUserExpenses | app/models/expense.py:39-63 | returns the page of the caller's records matching category and inclusive date bounds, sorted by date descending |
| ExpenseStore.ExpenseService.UpdateExpense | app/models/expense.py:65-83 | an empty update or a missing record changes nothing and yields None; otherwise only the matched record gets the present fields and the stamp, and it is returned when the stored document changed; a valid update keeps every stored record within the schema's constraints |
| ExpenseStore.ExpenseService.DeleteExpense | app/models/expense.py:85-91 | returns true exactly when a record with that id and owner existed, and removes that record only |
| ExpenseStore.ExpenseService.GetExpenseCount | app/models/expense.py:93-95 | counts only the user's records |
| ExpenseStore.ExpenseService.GetTotalAmount | app/models/expense.py:97-104 | is the sum of the user's amounts, 0.0 when the user has none |
| ExpenseRoutes.GetExpense | app/routes/expenses.py:56-73 | a malformed id gives BadRequest before any lookup; a missing or unowned record gives NotFound; otherwise the caller's record |
| ExpenseRoutes.UpdateExpense | app/routes/expenses.py:76-95 | a malformed id gives BadRequest and changes nothing; otherwise the service's update takes place, and anything but an updated record gives NotFound |
| ExpenseRoutes.DeleteExpense | app/routes/expenses.py:98-115 | a malformed id gives BadRequest and changes nothing; otherwise the caller's record is removed, or NotFound when there was none |
| ExpenseRoutes.ListExpensesRoute | app/routes/expenses.py:29-53 | rejects skip < 0 or a limit outside 1..100; otherwise returns the page and, as `total`, the count of all the caller's records |
| ExpenseRoutes.ListedWithinTotal | app/routes/expenses.py:39-53 | a page never holds more records than the reported total |
| ExpenseRoutes.Average | app/routes/expenses.py:142 | the average times the count gives back the total when the count is positive, and is 0 otherwise |
| ExpenseRoutes.Percentage | app/routes/expenses.py:147 | the percentage is the share of the total scaled to 100 when the total is positive, and 0 otherwise |
| ExpenseRoutes.ShapeStats | app/routes/expenses.py:143-150 | one entry per row, in row order, each with that row's category, total and count, and as percentage the row's guarded percentage of the total amount |
| ExpenseRoutes.ZeroTotalPercentages | app/routes/expenses.py:147 | with no positive total amount, every entry's percentage is 0 |
| ExpenseRoutes.EntryPercentage | app/routes/expenses.py:147 | with a positive total amount, each entry's percentage times the total is its row's total times 100 |
| ExpenseRoutes.ShapeSummary | app/routes/expenses.py:139-151 | the summary response from the total, the count and the rows (stated by `GetExpenseSummary`, `ShapeStats` and `Average`) |
| ExpenseRoutes.CategoryStats | app/routes/expenses.py:127-137 | the user's records grouped by category, largest total first (stated by `SummaryRows` and `RowsCoverUser`) |
| ExpenseRoutes.GetExpenseSummary | app/routes/expenses.py:118-151 | the summary's total and count are the user's sum and number of records, and its rows are the user's category groups sorted by total |
| ExpenseRoutes.PercentagesScale | app/routes/expenses.py:147 | with a positive total, the rows' percentages, summed, times the total are the rows' summed totals times 100 |
| ExpenseRoutes.EntriesShares | app/routes/expenses.py:143-150 | the shaped entries' percentages add up to the rows' percentages |
| ExpenseRoutes.PercentagesOfWhole | app/routes/expenses.py:147 | rows making up a positive whole have percentages that add up to 100 |
| ExpenseRoutes.RowsCoverUser | app/routes/expenses.py:127-137 | the category rows carry the user's whole total and count between them |
| ExpenseRoutes.SummaryPercentages | app/routes/expenses.py:139-151 | when the user's total is positive, the summary percentages add up to 100 |
| ExpenseRoutes.SummaryRows | app/routes/expenses.py:127-149 | each row reports exactly its category's sum and record count, and the rows run from the largest total down |
| ExpenseRoutes.GroupOfKey | app/routes/expenses.py:129-133 | with distinct keys, the rows with a row's key hold just that row |
| ExpenseRoutes.SortTotals | app/routes/expenses.py:134 | sorting the rows keeps their sums of totals and counts |
| Dependencies.MakePagination | app/utils/dependencies.py:10-11 | pagination is accepted exactly when skip >= 0 and 1 <= limit <= 100 |
| Dependencies.DefaultPagination | app/utils/dependencies.py:10-11 | the defaults skip 0 and limit 10 are accepted |
| Dependencies.GetFilter | app/utils/dependencies.py:26-38 | the filter is empty exactly when neither bound is given, and a bound key is present exactly when that bound is given |
| Dependencies.FilterAdmits | app/utils/dependencies.py:32-38 | the filter admits exactly the dates within the given bounds, both inclusive |
| Dependencies.NoBoundFilter | app/utils/dependencies.py:29-30 | no bound gives the empty filter |
| Dependencies.StartOnlyFilter | app/utils/dependencies.py:32-34 | a start bound alone gives only `$gte` |
| Dependencies.EndOnlyFilter | app/utils/dependencies.py:35-38 | an end bound alone gives only `$lte` |
| Dependencies.BothBoundsFilter | app/utils/dependencies.py:32-38 | both bounds give both keys, and each bound is admitted itself |
| ObjectIds.Converted | app/utils/objectid.py:5-10 | with `_id`, its text is under `id` and `_id` is gone; every other key is unchanged; without `_id` nothing changes |
| ObjectIds.ConvertedIdempotent | app/utils/objectid.py:7-10 | a second conversion is a no-op |
| ObjectIds.ConvertObjectId | app/utils/objectid.py:5-10 | the same document is returned, converted in place; a missing document is returned as is |
| ObjectIds.Prepared | app/utils/objectid.py:13-17 | `id` is removed and every other key kept |
| ObjectIds.PreparedIdempotent | app/utils/objectid.py:15-17 | preparing twice is preparing once |
| ObjectIds.ConvertedThenPrepared | app/utils/objectid.py:5-17 | a converted and then prepared document has neither identity key and keeps all other keys |
| ObjectIds.PrepareMongoDoc | app/utils/objectid.py:13-17 | the same document is returned with `id` removed in place |

## Left out

- The MongoDB driver, connection, index creation and pipeline execution are
  left out. The collection is a sequence of records, and `$match`, `$group`
  and `$sort` are stated by their meaning.
- Floating point is not modelled. Amounts are exact `real`s, so the sums
  carry no rounding error.
- ExpenseStore.ExpenseService.CreateExpense: the returned `date` and
  `created_at` keep full microsecond precision. The store keeps dates to
  the millisecond, and `create_expense` reads the record back, so the source
  returns both stamps truncated to milliseconds.
- ExpenseStore.ExpenseService.UpdateExpense: a `date` that differs from the
  stored one only below a millisecond counts as a change. The store would
  keep the same millisecond value, report no modification, and the source
  would return `None`.
- ExpenseStore.ListExpenses: the inclusive date bounds and the date-descending
  order compare full-precision instants. The store compares the dates it
  keeps, truncated to milliseconds. The report windows start and end at
  midnights, so their selection is the same either way.
- Time zones are not modelled. Dates are naive UTC instants at microsecond
  resolution, and `$dateToString` is the same `%Y-%m-%d` label as `strftime`.
- Reports.GetDailyReport: does not raise for 9999-12-31. Python's `datetime`
  raises there, because the window's end falls in year 10000; the model's
  instants are unbounded.
- Weekly.GetWeeklyReport: does not raise for weeks that run past 9999-12-31,
  for the same reason.
- DateFormat.FormatDate: always pads the year to four digits. `strftime("%Y")`
  on some C libraries prints fewer digits for years below 1000. For a week
  in such a year, `$dateToString` still pads, so the source's lookup of
  `daily_data` by the `strftime` label would miss and zero-fill every day;
  `Weekly.GetWeeklyReport`'s breakdown theorem describes the padded labels
  only.
- Month names come from a fixed English table. Locale-dependent `%B` output
  is not modelled.
- The store's identifier generator and the clock are parameters (`newId`,
  `now`). Identifier uniqueness is a precondition of
  `ExpenseStore.ExpenseService.CreateExpense`.
- ExpenseStore.ExpenseService.GetExpenseById: the source raises `InvalidId`
  for a malformed id; the model finds nothing. The routes check
  `ObjectId.is_valid` first, so that path is not reachable through them.
- ExpenseStore.ExpenseService.UpdateExpense: the source raises `InvalidId`
  for a malformed id when the update is not empty; the model finds nothing
  and returns `None`. The route checks `ObjectId.is_valid` first.
- ExpenseStore.ExpenseService.DeleteExpense: the source raises `InvalidId`
  for a malformed id; the model finds nothing and returns false. The route
  checks `ObjectId.is_valid` first.
- `ObjectId.is_valid` is the parameter `isValidId`. Store ids are compared as
  text, so an id that the `ObjectId` constructor would normalise (e.g.
  upper-case hex digits) is not identified with the stored one.
- ExpenseStore.ExpenseService.GetUserExpenses: `skip` and `limit` are natural
  numbers. The driver's treatment of a negative limit is not modelled; the
  route only admits `limit` in 1..100.
- The sort keeps store order among records with equal dates, and among
  summary rows with equal totals. The store promises no particular order
  there, and neither does the order of `$group` rows.
- `create_expense` reads the inserted record back with `find_one`; the model
  returns the inserted record directly. The category is held as the
  enumeration value, and its stored string is `CategoryName`.
- The `print` calls in the daily report, CSV export, authentication and its
  middleware, the AI endpoints, HTTP exception and response helpers,
  configuration and the FastAPI/pydantic plumbing are left out. This
  includes pydantic's coercion of request values.
