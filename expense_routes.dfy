/** The expense endpoints: the id-format and not-found decisions of the
    single-expense handlers, the listing handler, and the shaping of the
    summary statistics. Whether a text is a well-formed store identifier
    (`ObjectId.is_valid`) is a parameter of the handlers. */
module ExpenseRoutes {
  import opened Wrappers
  import opened Calendar
  import opened Schemas
  import opened Aggregation
  import opened Dependencies
  import opened Sorting
  import opened ExpenseStore

  /** The errors the handlers raise: `BadRequestException`,
      `NotFoundException` and the framework's rejection of a query
      parameter outside its bounds. */
  datatype HttpError = BadRequest(message: string) | NotFound(resource: string) | InvalidParameters

  const InvalidIdMessage: string := "Invalid expense ID format"
  const ExpenseResource: string := "Expense"

  // ---------------------------------------------------------------------
  // Single-expense handlers

  /** `GET /expenses/{id}`: a malformed id is refused before the lookup;
      a record that is missing or owned by someone else is not found. */
  method GetExpense(svc: ExpenseService, expenseId: string, userId: string, isValidId: string -> bool)
    returns (r: Result<ExpenseRecord, HttpError>)
    ensures !isValidId(expenseId) ==> r == Failure(BadRequest(InvalidIdMessage))
    ensures isValidId(expenseId) && Lookup(svc.records, expenseId, userId).None? ==> r == Failure(NotFound(ExpenseResource))
    ensures r.Success? ==> r.value in svc.records && IsTarget(r.value, expenseId, userId)
    ensures r.Success? <==> isValidId(expenseId) && Lookup(svc.records, expenseId, userId).Some?
  {
    if !isValidId(expenseId) {
      return Failure(BadRequest(InvalidIdMessage));
    }
    var expense := svc.GetExpenseById(expenseId, userId);
    if expense.None? {
      return Failure(NotFound(ExpenseResource));
    }
    r := Success(expense.value);
  }

  /** `PUT /expenses/{id}`: a malformed id is refused before anything
      changes. Otherwise the service's update runs, and anything but an
      updated record (no such record, an empty update, or an update that
      changed nothing) is reported as not found. */
  method UpdateExpense(svc: ExpenseService, expenseId: string, userId: string, u: ExpenseUpdate, now: Instant,
                       isValidId: string -> bool)
    returns (r: Result<ExpenseRecord, HttpError>)
    requires svc.Valid() && ValidExpenseUpdate(u)
    modifies svc
    ensures svc.Valid()
    ensures !isValidId(expenseId) ==> r == Failure(BadRequest(InvalidIdMessage)) && svc.records == old(svc.records)
    ensures isValidId(expenseId) ==>
      var i := FindIndex(old(svc.records), expenseId, userId);
      if IsEmptyUpdate(u) || i == |old(svc.records)| then
        r == Failure(NotFound(ExpenseResource)) && svc.records == old(svc.records)
      else
        var y := ApplyUpdate(old(svc.records)[i], u, now);
        && svc.records == old(svc.records)[i := y]
        && r == (if y != old(svc.records)[i] then Success(y) else Failure(NotFound(ExpenseResource)))
  {
    if !isValidId(expenseId) {
      return Failure(BadRequest(InvalidIdMessage));
    }
    var updated := svc.UpdateExpense(expenseId, userId, u, now);
    if updated.None? {
      return Failure(NotFound(ExpenseResource));
    }
    r := Success(updated.value);
  }

  /** `DELETE /expenses/{id}`: a malformed id is refused before anything
      changes; otherwise the caller's record with that id is removed, or
      the request is reported as not found. */
  method DeleteExpense(svc: ExpenseService, expenseId: string, userId: string, isValidId: string -> bool)
    returns (r: Result<(), HttpError>)
    requires svc.Valid()
    modifies svc
    ensures svc.Valid()
    ensures !isValidId(expenseId) ==> r == Failure(BadRequest(InvalidIdMessage)) && svc.records == old(svc.records)
    ensures isValidId(expenseId) ==>
      && svc.records == Removed(old(svc.records), expenseId, userId)
      && (r.Success? <==> Lookup(old(svc.records), expenseId, userId).Some?)
      && (r.Failure? ==> r.error == NotFound(ExpenseResource))
  {
    if !isValidId(expenseId) {
      return Failure(BadRequest(InvalidIdMessage));
    }
    var deleted := svc.DeleteExpense(expenseId, userId);
    if !deleted {
      return Failure(NotFound(ExpenseResource));
    }
    r := Success(());
  }

  // ---------------------------------------------------------------------
  // Listing

  /** `GET /expenses/`: the page of the filtered listing, and as `total`
      the number of all the caller's records, whatever the filters. */
  method ListExpensesRoute(svc: ExpenseService, userId: string, skip: int, limit: int, category: Option<Category>,
                           start: Option<Instant>, end: Option<Instant>)
    returns (r: Result<ExpenseList, HttpError>)
    ensures r.Failure? <==> MakePagination(skip, limit).None?
    ensures r.Failure? ==> r.error == InvalidParameters
    ensures r.Success? ==>
      && r.value.expenses == ListExpenses(svc.records, userId, skip, limit, category, start, end)
      && r.value.total == |UserRecords(svc.records, userId)|
  {
    var page := MakePagination(skip, limit);
    if page.None? {
      return Failure(InvalidParameters);
    }
    var expenses := svc.GetUserExpenses(userId, page.value.skip, page.value.limit, category, start, end);
    var total := svc.GetExpenseCount(userId);
    r := Success(ExpenseList(expenses, total));
  }

  /** A page never holds more records than the total it is reported with. */
  lemma ListedWithinTotal(records: seq<ExpenseRecord>, userId: string, skip: nat, limit: nat,
                          category: Option<Category>, start: Option<Instant>, end: Option<Instant>)
    ensures |ListExpenses(records, userId, skip, limit, category, start, end)| <= |UserRecords(records, userId)|
  {
    var selected := Filter(records, Selects(userId, category, GetFilter(start, end)));
    var sorted := SortDesc(selected, DateKey);
    assert |sorted| == |multiset(sorted)| == |multiset(selected)| == |selected|;
    FilterWeaker(records, Selects(userId, category, GetFilter(start, end)), OwnedBy(userId));
  }

  /** A stricter predicate selects no more records. */
  lemma {:induction false} FilterWeaker(xs: seq<ExpenseRecord>, p: ExpenseRecord -> bool, q: ExpenseRecord -> bool)
    requires forall x :: p(x) ==> q(x)
    ensures |Filter(xs, p)| <= |Filter(xs, q)|
    decreases |xs|
  {
    if |xs| > 0 {
      FilterWeaker(xs[..|xs| - 1], p, q);
    }
  }

  // ---------------------------------------------------------------------
  // Summary statistics

  /** One entry of the summary's `categories`. */
  datatype CategoryStat = CategoryStat(total: real, count: nat, percentage: real)

  /** The summary statistics; `categories` keeps the order of the rows
      it is built from. */
  datatype ExpenseSummary = ExpenseSummary(
    totalAmount: real, totalExpenses: nat, averageExpense: real, categories: seq<(Category, CategoryStat)>)

  /** The average amount per expense, or 0 when there are no expenses. */
  function Average(total: real, count: nat): (a: real)
    ensures count > 0 ==> a * count as real == total
    ensures count == 0 ==> a == 0.0
  {
    if count > 0 then total / count as real else 0.0
  }

  /** A category's total as a percentage of the overall total, or 0 when
      the overall total is not positive. */
  function Percentage(part: real, total: real): (p: real)
    ensures total > 0.0 ==> p * total == part * 100.0
    ensures total <= 0.0 ==> p == 0.0
  {
    if total > 0.0 then part / total * 100.0 else 0.0
  }

  /** The entries of the category comprehension, one per row, in row order. */
  function ShapeStats(stats: seq<Group<Category>>, totalAmount: real): (es: seq<(Category, CategoryStat)>)
    ensures |es| == |stats|
    ensures forall i :: 0 <= i < |es| ==>
      && es[i].0 == stats[i].key && es[i].1.total == stats[i].total && es[i].1.count == stats[i].count
      && es[i].1.percentage == Percentage(stats[i].total, totalAmount)
    decreases |stats|
  {
    if |stats| == 0 then []
    else
      var g := stats[|stats| - 1];
      ShapeStats(stats[..|stats| - 1], totalAmount) + [(g.key, CategoryStat(g.total, g.count, Percentage(g.total, totalAmount)))]
  }

  /** With no positive total, every entry's percentage is 0. */
  lemma ZeroTotalPercentages(stats: seq<Group<Category>>, totalAmount: real, i: nat)
    requires totalAmount <= 0.0 && i < |stats|
    ensures ShapeStats(stats, totalAmount)[i].1.percentage == 0.0
  {
  }

  /** With a positive total, each entry's percentage is its row's share of
      the total, scaled to 100. */
  lemma EntryPercentage(stats: seq<Group<Category>>, totalAmount: real, i: nat)
    requires totalAmount > 0.0 && i < |stats|
    ensures ShapeStats(stats, totalAmount)[i].1.percentage * totalAmount == stats[i].total * 100.0
  {
  }

  /** The response of `/expenses/stats/summary`, from the user's total,
      count and grouped rows. */
  function ShapeSummary(totalAmount: real, totalCount: nat, stats: seq<Group<Category>>): ExpenseSummary {
    ExpenseSummary(totalAmount, totalCount, Average(totalAmount, totalCount), ShapeStats(stats, totalAmount))
  }

  /** The sort key of `{"$sort": {"total": -1}}`. */
  function GroupTotal(g: Group<Category>): real {
    g.total
  }

  /** The category rows of the summary pipeline: the user's records grouped
      by category, largest total first. */
  function CategoryStats(records: seq<ExpenseRecord>, userId: string): seq<Group<Category>> {
    SortDesc(GroupBy(UserRecords(records, userId), CategoryKey), GroupTotal)
  }

  /** `GET /expenses/stats/summary`. */
  method GetExpenseSummary(svc: ExpenseService, userId: string) returns (r: ExpenseSummary)
    ensures r.totalAmount == SumAmounts(UserRecords(svc.records, userId))
    ensures r.totalExpenses == |UserRecords(svc.records, userId)|
    ensures r == ShapeSummary(r.totalAmount, r.totalExpenses, CategoryStats(svc.records, userId))
  {
    var totalAmount := svc.GetTotalAmount(userId);
    var totalCount := svc.GetExpenseCount(userId);
    var categoryStats := SortDesc(GroupBy(Filter(svc.records, OwnedBy(userId)), CategoryKey), GroupTotal);
    r := ShapeSummary(totalAmount, totalCount, categoryStats);
  }

  /** Sum of the percentages of the entries, in entry order. */
  function SumPercentages(es: seq<(Category, CategoryStat)>): real
    decreases |es|
  {
    if |es| == 0 then 0.0 else SumPercentages(es[..|es| - 1]) + es[|es| - 1].1.percentage
  }

  /** The rows' percentages of `totalAmount`, summed in row order. */
  function SumShares(stats: seq<Group<Category>>, totalAmount: real): real
    decreases |stats|
  {
    if |stats| == 0 then 0.0 else SumShares(stats[..|stats| - 1], totalAmount) + Percentage(stats[|stats| - 1].total, totalAmount)
  }

  /** The percentages of the shaped entries are the rows' percentages. */
  lemma {:induction false} EntriesShares(stats: seq<Group<Category>>, totalAmount: real)
    ensures SumPercentages(ShapeStats(stats, totalAmount)) == SumShares(stats, totalAmount)
    decreases |stats|
  {
    if |stats| > 0 {
      var es := ShapeStats(stats, totalAmount);
      assert es[..|es| - 1] == ShapeStats(stats[..|stats| - 1], totalAmount);
      EntriesShares(stats[..|stats| - 1], totalAmount);
    }
  }

  /** When the total is positive, the rows' percentages are their shares
      of it, scaled to 100. */
  lemma {:induction false} PercentagesScale(stats: seq<Group<Category>>, totalAmount: real)
    requires totalAmount > 0.0
    ensures SumShares(stats, totalAmount) * totalAmount == SumTotals(stats) * 100.0
    decreases |stats|
  {
    if |stats| > 0 {
      var init, g := stats[..|stats| - 1], stats[|stats| - 1];
      PercentagesScale(init, totalAmount);
      assert SumTotals(stats) == SumTotals(init) + g.total;
      Distribute(SumShares(init, totalAmount), Percentage(g.total, totalAmount), totalAmount);
    }
  }

  lemma Distribute(a: real, b: real, t: real)
    ensures (a + b) * t == a * t + b * t
  {
  }

  lemma Cancel(a: real, b: real, t: real)
    requires t > 0.0 && a * t == t * b
    ensures a == b
  {
    assert (a - b) * t == 0.0;
  }

  /** The rows carry, between them, the user's whole total and count. */
  lemma RowsCoverUser(records: seq<ExpenseRecord>, userId: string)
    ensures SumTotals(CategoryStats(records, userId)) == SumAmounts(UserRecords(records, userId))
    ensures SumCounts(CategoryStats(records, userId)) == |UserRecords(records, userId)|
  {
    var xs := UserRecords(records, userId);
    var gs := GroupBy(xs, CategoryKey);
    SortTotals(gs);
    GroupBySums(xs, CategoryKey, AnyKey(), x => true);
    FilterAll(xs);
  }

  /** With a positive total, the summary's percentages add up to 100. */
  lemma SummaryPercentages(records: seq<ExpenseRecord>, userId: string)
    requires SumAmounts(UserRecords(records, userId)) > 0.0
    ensures var total := SumAmounts(UserRecords(records, userId));
      SumPercentages(ShapeStats(CategoryStats(records, userId), total)) == 100.0
  {
    RowsCoverUser(records, userId);
    PercentagesOfWhole(CategoryStats(records, userId), SumAmounts(UserRecords(records, userId)));
  }

  /** Rows whose totals make up a positive whole have percentages adding up to 100. */
  lemma PercentagesOfWhole(stats: seq<Group<Category>>, totalAmount: real)
    requires totalAmount > 0.0 && SumTotals(stats) == totalAmount
    ensures SumPercentages(ShapeStats(stats, totalAmount)) == 100.0
  {
    var sum := SumShares(stats, totalAmount);
    EntriesShares(stats, totalAmount);
    PercentagesScale(stats, totalAmount);
    assert sum * totalAmount == totalAmount * 100.0;
    Cancel(sum, 100.0, totalAmount);
  }

  /** Each summary row reports exactly its category's sum and number of
      records, and the rows run from the largest total down. */
  lemma SummaryRows(records: seq<ExpenseRecord>, userId: string, i: nat)
    requires i < |CategoryStats(records, userId)|
    ensures var g := CategoryStats(records, userId)[i];
      && g.total == SumAmounts(Filter(UserRecords(records, userId), OfCategory(g.key)))
      && g.count == |Filter(UserRecords(records, userId), OfCategory(g.key))|
    ensures SortedDesc(CategoryStats(records, userId), GroupTotal)
  {
    var xs := UserRecords(records, userId);
    var gs := GroupBy(xs, CategoryKey);
    var g := CategoryStats(records, userId)[i];
    assert g in multiset(CategoryStats(records, userId));
    GroupOfKey(gs, g);
    GroupBySums(xs, CategoryKey, IsKey(g.key), OfCategory(g.key));
  }

  /** In groups with distinct keys, the groups with a row's key hold just that row. */
  lemma {:induction false} GroupOfKey(gs: seq<Group<Category>>, g: Group<Category>)
    requires DistinctKeys(gs) && g in gs
    ensures TotalWhere(gs, IsKey(g.key)) == g.total && CountWhere(gs, IsKey(g.key)) == g.count
    decreases |gs|
  {
    var init, last := gs[..|gs| - 1], gs[|gs| - 1];
    if last == g {
      TotalWhereNone(init, IsKey(g.key));
    } else {
      assert gs == init + [last];
      assert g in init;
      GroupOfKey(init, g);
      KeysMember(init, g);
    }
  }

  lemma {:induction false} KeysMember(gs: seq<Group<Category>>, g: Group<Category>)
    requires g in gs
    ensures g.key in Keys(gs)
    decreases |gs|
  {
    var init := gs[..|gs| - 1];
    if gs[|gs| - 1] != g {
      assert gs == init + [gs[|gs| - 1]];
      KeysMember(init, g);
    }
  }

  // Sorting the rows keeps their sums.

  lemma {:induction false} TotalsConcat(a: seq<Group<Category>>, b: seq<Group<Category>>)
    ensures SumTotals(a + b) == SumTotals(a) + SumTotals(b)
    ensures SumCounts(a + b) == SumCounts(a) + SumCounts(b)
    decreases |b|
  {
    if |b| == 0 {
      assert a + b == a;
    } else {
      var init := b[..|b| - 1];
      TotalsConcat(a, init);
      assert (a + b)[..|a + b| - 1] == a + init;
    }
  }

  lemma SingleTotals(x: Group<Category>)
    ensures SumTotals([x]) == x.total && SumCounts([x]) == x.count
  {
    assert [x][..0] == [];
    assert TotalWhere([x], AnyKey()) == TotalWhere([x][..0], AnyKey()) + x.total;
    assert CountWhere([x], AnyKey()) == CountWhere([x][..0], AnyKey()) + x.count;
  }

  /** The sums of a sequence of rows split as its head and its tail. */
  lemma HeadTotals(s: seq<Group<Category>>)
    requires |s| > 0
    ensures SumTotals(s) == s[0].total + SumTotals(s[1..])
    ensures SumCounts(s) == s[0].count + SumCounts(s[1..])
  {
    TotalsConcat([s[0]], s[1..]);
    SingleTotals(s[0]);
    assert [s[0]] + s[1..] == s;
  }

  lemma {:induction false} InsertTotals(x: Group<Category>, s: seq<Group<Category>>)
    requires SortedDesc(s, GroupTotal)
    ensures SumTotals(Insert(x, s, GroupTotal)) == x.total + SumTotals(s)
    ensures SumCounts(Insert(x, s, GroupTotal)) == x.count + SumCounts(s)
    decreases |s|
  {
    var r := Insert(x, s, GroupTotal);
    if |s| == 0 || GroupTotal(x) >= GroupTotal(s[0]) {
      assert r == [x] + s && r[1..] == s;
      HeadTotals(r);
    } else {
      var rest := Insert(x, s[1..], GroupTotal);
      assert r == [s[0]] + rest && r[1..] == rest;
      InsertTotals(x, s[1..]);
      HeadTotals(r);
      HeadTotals(s);
    }
  }

  lemma {:induction false} SortTotals(gs: seq<Group<Category>>)
    ensures SumTotals(SortDesc(gs, GroupTotal)) == SumTotals(gs)
    ensures SumCounts(SortDesc(gs, GroupTotal)) == SumCounts(gs)
    decreases |gs|
  {
    if |gs| > 0 {
      SortTotals(gs[1..]);
      InsertTotals(gs[0], SortDesc(gs[1..], GroupTotal));
      HeadTotals(gs);
    }
  }
}
