/** The expense store (`ExpenseService`): the `expenses` collection held
    as a sequence of stored records in insertion order, with the service's
    create, read, list, update, delete, count and total operations. The
    store's identifier generator and clock are parameters of the
    operations that use them. */
module ExpenseStore {
  import opened Wrappers
  import opened Calendar
  import opened Schemas
  import opened Aggregation
  import opened Dependencies
  import opened Sorting

  /** The query selecting one user's records. */
  function OwnedBy(userId: string): ExpenseRecord -> bool {
    (x: ExpenseRecord) => x.userId == userId
  }

  /** The records of one user, in store order. */
  function UserRecords(records: seq<ExpenseRecord>, userId: string): seq<ExpenseRecord> {
    Filter(records, OwnedBy(userId))
  }

  /** The store's identifiers are unique. */
  predicate IdsDistinct(records: seq<ExpenseRecord>) {
    forall i, j :: 0 <= i < j < |records| ==> records[i].id != records[j].id
  }

  /** The query selecting the record with this id, owned by this user. */
  predicate IsTarget(x: ExpenseRecord, expenseId: string, userId: string) {
    x.id == expenseId && x.userId == userId
  }

  /** The position of the first record with this id and owner, or the
      length of the store when there is none. */
  function FindIndex(records: seq<ExpenseRecord>, expenseId: string, userId: string): (i: nat)
    ensures i <= |records|
    ensures i < |records| ==> IsTarget(records[i], expenseId, userId)
    ensures forall k :: 0 <= k < i ==> !IsTarget(records[k], expenseId, userId)
    decreases |records|
  {
    if |records| == 0 then 0
    else if IsTarget(records[0], expenseId, userId) then 0
    else 1 + FindIndex(records[1..], expenseId, userId)
  }

  /** `find_one({"_id": expenseId, "user_id": userId})`. */
  function Lookup(records: seq<ExpenseRecord>, expenseId: string, userId: string): (r: Option<ExpenseRecord>)
    ensures r.Some? ==> r.value in records && IsTarget(r.value, expenseId, userId)
    ensures r.None? ==> forall x :: x in records ==> !IsTarget(x, expenseId, userId)
  {
    var i := FindIndex(records, expenseId, userId);
    if i < |records| then Some(records[i]) else None
  }

  /** With unique identifiers, a lookup finds a record exactly when it has
      the id and the owner asked for. */
  lemma LookupUnique(records: seq<ExpenseRecord>, expenseId: string, userId: string, x: ExpenseRecord)
    requires IdsDistinct(records) && x in records
    ensures Lookup(records, expenseId, userId) == Some(x) <==> IsTarget(x, expenseId, userId)
  {
    var i := FindIndex(records, expenseId, userId);
    if IsTarget(x, expenseId, userId) {
      var k :| 0 <= k < |records| && records[k] == x;
      assert i <= k;
      assert i == k;
    }
  }

  /** The record `create_expense` inserts: the client's fields, the
      owner, the creation stamp and no update stamp. */
  function NewRecord(userId: string, data: ExpenseBase, newId: string, now: Instant): (x: ExpenseRecord)
    ensures ValidExpenseBase(data) ==> ValidRecord(x)
  {
    ExpenseRecord(newId, userId, data.amount, data.category, data.description, data.date, now, None)
  }

  // ---------------------------------------------------------------------
  // Listing

  /** The key the listing sorts on: the expense date. */
  function DateKey(x: ExpenseRecord): real {
    x.date as real
  }

  /** The query `get_user_expenses` builds: the owner, the category when
      one is given, and the date filter. */
  function Selects(userId: string, category: Option<Category>, dates: Option<DateFilter>): ExpenseRecord -> bool {
    (x: ExpenseRecord) => x.userId == userId && (category.None? || x.category == category.value) && Admits(dates, x.date)
  }

  /** `skip(skip).limit(limit)`: a limit of 0 places no bound. */
  function Page<T>(xs: seq<T>, skip: nat, limit: nat): (r: seq<T>)
    ensures limit > 0 ==> |r| <= limit
    ensures skip <= |xs| ==> |r| == if limit == 0 || |xs| - skip <= limit then |xs| - skip else limit
    ensures skip >= |xs| ==> r == []
    ensures forall k :: 0 <= k < |r| ==> skip + k < |xs| && r[k] == xs[skip + k]
  {
    var rest := if skip <= |xs| then xs[skip..] else [];
    if limit == 0 || |rest| <= limit then rest else rest[..limit]
  }

  /** A slice of a sorted sequence is sorted. */
  lemma PageSorted(xs: seq<ExpenseRecord>, skip: nat, limit: nat)
    requires SortedDesc(xs, DateKey)
    ensures SortedDesc(Page(xs, skip, limit), DateKey)
  {
    var r := Page(xs, skip, limit);
    forall i, j | 0 <= i < j < |r| ensures DateKey(r[i]) >= DateKey(r[j]) {
      assert r[i] == xs[skip + i] && r[j] == xs[skip + j];
    }
  }

  /** The listing: the selected records sorted by date, most recent first,
      then the requested page. */
  function ListExpenses(records: seq<ExpenseRecord>, userId: string, skip: nat, limit: nat,
                        category: Option<Category>, start: Option<Instant>, end: Option<Instant>): seq<ExpenseRecord>
  {
    Page(SortDesc(Filter(records, Selects(userId, category, GetFilter(start, end))), DateKey), skip, limit)
  }

  /** Every listed record belongs to the caller, has the requested
      category when one is given, and is dated within the bounds, both
      included. */
  lemma ListedMeetsQuery(records: seq<ExpenseRecord>, userId: string, skip: nat, limit: nat,
                         category: Option<Category>, start: Option<Instant>, end: Option<Instant>, x: ExpenseRecord)
    requires x in ListExpenses(records, userId, skip, limit, category, start, end)
    ensures x in records && x.userId == userId
    ensures category.Some? ==> x.category == category.value
    ensures (start.Some? ==> start.value <= x.date) && (end.Some? ==> x.date <= end.value)
  {
    var p := Selects(userId, category, GetFilter(start, end));
    var sorted := SortDesc(Filter(records, p), DateKey);
    var k :| 0 <= k < |ListExpenses(records, userId, skip, limit, category, start, end)|
             && ListExpenses(records, userId, skip, limit, category, start, end)[k] == x;
    assert x in sorted;
    SortDescElements(Filter(records, p), DateKey, x);
    FilterMembers(records, p, x);
    FilterAdmits(start, end, x.date);
  }

  /** Without skip and limit, the listing holds each selected record
      exactly as often as the store does. */
  lemma ListingComplete(records: seq<ExpenseRecord>, userId: string,
                        category: Option<Category>, start: Option<Instant>, end: Option<Instant>)
    ensures multiset(ListExpenses(records, userId, 0, 0, category, start, end))
         == multiset(Filter(records, Selects(userId, category, GetFilter(start, end))))
  {
    var sorted := SortDesc(Filter(records, Selects(userId, category, GetFilter(start, end))), DateKey);
    assert sorted[0..] == sorted;
  }

  /** The listing runs from the most recent date to the oldest and holds
      at most `limit` records when a limit is given. */
  lemma ListingOrdered(records: seq<ExpenseRecord>, userId: string, skip: nat, limit: nat,
                       category: Option<Category>, start: Option<Instant>, end: Option<Instant>)
    ensures SortedDesc(ListExpenses(records, userId, skip, limit, category, start, end), DateKey)
    ensures limit > 0 ==> |ListExpenses(records, userId, skip, limit, category, start, end)| <= limit
  {
    PageSorted(SortDesc(Filter(records, Selects(userId, category, GetFilter(start, end))), DateKey), skip, limit);
  }

  // ---------------------------------------------------------------------
  // Updating

  /** `model_dump(exclude_none=True)` is empty. */
  predicate IsEmptyUpdate(u: ExpenseUpdate) {
    u.amount.None? && u.category.None? && u.description.None? && u.date.None?
  }

  /** `$set` of the fields present in the update, plus `updated_at`. */
  function ApplyUpdate(x: ExpenseRecord, u: ExpenseUpdate, now: Instant): ExpenseRecord {
    x.(amount := if u.amount.Some? then u.amount.value else x.amount,
       category := if u.category.Some? then u.category.value else x.category,
       description := if u.description.Some? then u.description.value else x.description,
       date := if u.date.Some? then u.date.value else x.date,
       updatedAt := Some(now))
  }

  /** An update keeps the identity, owner and creation stamp, and a valid
      update of a valid record leaves a valid record. Applying it twice
      gives what applying it once gives. */
  lemma ApplyUpdateKeeps(x: ExpenseRecord, u: ExpenseUpdate, now: Instant)
    ensures var y := ApplyUpdate(x, u, now);
      y.id == x.id && y.userId == x.userId && y.createdAt == x.createdAt && y.updatedAt == Some(now)
    ensures ValidRecord(x) && ValidExpenseUpdate(u) ==> ValidRecord(ApplyUpdate(x, u, now))
    ensures ApplyUpdate(ApplyUpdate(x, u, now), u, now) == ApplyUpdate(x, u, now)
  {
  }

  /** Replacing a record by one with the same id and owner keeps the
      lookup pointing at that position and keeps the ids unique. */
  lemma ReplaceAt(records: seq<ExpenseRecord>, i: nat, y: ExpenseRecord, expenseId: string, userId: string)
    requires i == FindIndex(records, expenseId, userId) && i < |records|
    requires y.id == records[i].id && y.userId == records[i].userId
    ensures Lookup(records[i := y], expenseId, userId) == Some(y)
    ensures IdsDistinct(records) ==> IdsDistinct(records[i := y])
  {
    var r := records[i := y];
    assert forall k :: 0 <= k < i ==> r[k] == records[k];
    assert IsTarget(r[i], expenseId, userId);
  }

  // ---------------------------------------------------------------------
  // Deleting

  /** The store after `delete_one`: the first record with the id and
      owner removed, if there is one. */
  function Removed(records: seq<ExpenseRecord>, expenseId: string, userId: string): seq<ExpenseRecord> {
    var i := FindIndex(records, expenseId, userId);
    if i < |records| then records[..i] + records[i + 1..] else records
  }

  /** Deleting takes out exactly the record the lookup finds and keeps
      every other record; afterwards that id is gone, and the ids stay
      unique. */
  lemma RemovedExactly(records: seq<ExpenseRecord>, expenseId: string, userId: string)
    requires IdsDistinct(records)
    ensures var found := Lookup(records, expenseId, userId);
      multiset(records) == multiset(Removed(records, expenseId, userId))
                           + (if found.Some? then multiset{found.value} else multiset{})
    ensures IdsDistinct(Removed(records, expenseId, userId))
    ensures Lookup(Removed(records, expenseId, userId), expenseId, userId).None?
  {
    var i := FindIndex(records, expenseId, userId);
    if i < |records| {
      assert Removed(records, expenseId, userId) == records[..i] + records[i + 1..];
      assert Lookup(records, expenseId, userId) == Some(records[i]);
      RemovedAt(records, i, expenseId, userId);
      RemovedElements(records, i);
    } else {
      assert Removed(records, expenseId, userId) == records;
    }
  }

  /** Writing a valid record over position `i` keeps every record valid. */
  lemma KeepsValidRecords(records: seq<ExpenseRecord>, i: nat, y: ExpenseRecord)
    requires i < |records| && ValidRecord(y) && forall x :: x in records ==> ValidRecord(x)
    ensures forall x :: x in records[i := y] ==> ValidRecord(x)
  {
    forall x | x in records[i := y] ensures ValidRecord(x) {
      var k :| 0 <= k < |records[i := y]| && records[i := y][k] == x;
      if k != i {
        assert x == records[k];
      }
    }
  }

  lemma RemovedElements(records: seq<ExpenseRecord>, i: nat)
    requires i < |records|
    ensures multiset(records) == multiset(records[..i] + records[i + 1..]) + multiset{records[i]}
  {
    assert records == records[..i] + [records[i]] + records[i + 1..];
  }

  /** Removing position `i` keeps the ids unique and leaves no other
      record with the removed one's id. */
  lemma RemovedAt(records: seq<ExpenseRecord>, i: nat, expenseId: string, userId: string)
    requires IdsDistinct(records) && i < |records| && IsTarget(records[i], expenseId, userId)
    ensures IdsDistinct(records[..i] + records[i + 1..])
    ensures forall x :: x in records[..i] + records[i + 1..] ==> !IsTarget(x, expenseId, userId)
  {
    var r := records[..i] + records[i + 1..];
    forall a | 0 <= a < |r| ensures r[a] == records[if a < i then a else a + 1] {
    }
    forall x | x in r ensures !IsTarget(x, expenseId, userId) {
      var k :| 0 <= k < |r| && r[k] == x;
    }
  }

  // ---------------------------------------------------------------------
  // Totals

  /** The grouping key of `{"$group": {"_id": None, ...}}`: one group for all. */
  function NoKey(x: ExpenseRecord): () {
    ()
  }

  /** Grouping under a single key yields no group for no records and one
      group otherwise. */
  lemma {:induction false} SingleGroup(xs: seq<ExpenseRecord>)
    ensures |GroupBy(xs, NoKey)| == if |xs| == 0 then 0 else 1
    decreases |xs|
  {
    if |xs| > 0 {
      var init := xs[..|xs| - 1];
      SingleGroup(init);
      var gs := GroupBy(init, NoKey);
      if |gs| == 1 {
        assert gs[..0] == [];
      }
    }
  }

  /** The total of `get_total_amount`: the first group's sum, or 0.0 when
      the pipeline returns no group. */
  function TotalOfGroups(gs: seq<Group<()>>): real {
    if |gs| > 0 then gs[0].total else 0.0
  }

  /** The one-group pipeline sums every amount of the user; a user without
      records totals 0.0. */
  lemma TotalPipeline(xs: seq<ExpenseRecord>)
    ensures TotalOfGroups(GroupBy(xs, NoKey)) == SumAmounts(xs)
  {
    var gs := GroupBy(xs, NoKey);
    SingleGroup(xs);
    GroupBySums(xs, NoKey, AnyKey(), x => true);
    FilterAll(xs);
    if |gs| == 1 {
      assert gs[..0] == [];
    }
  }

  /** Records of other users do not change a user's count or total. */
  lemma UserRecordsSnoc(records: seq<ExpenseRecord>, x: ExpenseRecord, userId: string)
    ensures |UserRecords(records + [x], userId)| == |UserRecords(records, userId)| + (if x.userId == userId then 1 else 0)
    ensures SumAmounts(UserRecords(records + [x], userId))
         == SumAmounts(UserRecords(records, userId)) + (if x.userId == userId then x.amount else 0.0)
  {
    FilterSnoc(records, x, OwnedBy(userId));
    SumAmountsSnoc(UserRecords(records, userId), x);
  }

  /** Deleting one of the user's records lowers the count by one and the
      total by its amount. */
  lemma RemovedTotals(records: seq<ExpenseRecord>, expenseId: string, userId: string)
    requires Lookup(records, expenseId, userId).Some?
    ensures |UserRecords(records, userId)| == |UserRecords(Removed(records, expenseId, userId), userId)| + 1
    ensures SumAmounts(UserRecords(records, userId))
         == SumAmounts(UserRecords(Removed(records, expenseId, userId), userId)) + Lookup(records, expenseId, userId).value.amount
  {
    var i := FindIndex(records, expenseId, userId);
    var a, b := records[..i], records[i + 1..];
    assert records == a + [records[i]] + b;
    FilterConcat(a + [records[i]], b, OwnedBy(userId));
    FilterConcat(a, b, OwnedBy(userId));
    UserRecordsSnoc(a, records[i], userId);
    SumConcat(UserRecords(a + [records[i]], userId), UserRecords(b, userId));
    SumConcat(UserRecords(a, userId), UserRecords(b, userId));
  }

  lemma {:induction false} FilterConcat(a: seq<ExpenseRecord>, b: seq<ExpenseRecord>, p: ExpenseRecord -> bool)
    ensures Filter(a + b, p) == Filter(a, p) + Filter(b, p)
    decreases |b|
  {
    if |b| == 0 {
      assert a + b == a;
    } else {
      var init, x := b[..|b| - 1], b[|b| - 1];
      FilterConcat(a, init, p);
      assert a + b == (a + init) + [x];
      assert b == init + [x];
      FilterSnoc(a + init, x, p);
      FilterSnoc(init, x, p);
    }
  }

  lemma {:induction false} SumConcat(a: seq<ExpenseRecord>, b: seq<ExpenseRecord>)
    ensures SumAmounts(a + b) == SumAmounts(a) + SumAmounts(b)
    decreases |b|
  {
    if |b| == 0 {
      assert a + b == a;
    } else {
      var init, x := b[..|b| - 1], b[|b| - 1];
      SumConcat(a, init);
      assert a + b == (a + init) + [x];
      assert b == init + [x];
      SumAmountsSnoc(a + init, x);
      SumAmountsSnoc(init, x);
    }
  }

  // ---------------------------------------------------------------------
  // The service

  class ExpenseService {
    var records: seq<ExpenseRecord>

    /** The identifiers are unique, and every stored record meets the
        schema's constraints on amount and description. */
    ghost predicate Valid()
      reads this
    {
      IdsDistinct(records) && forall x :: x in records ==> ValidRecord(x)
    }

    constructor()
      ensures records == [] && Valid()
    {
      records := [];
    }

    /** `create_expense`: the store's fresh identifier and the clock's
        reading are given. The new record is appended and can be found by
        its id and owner. */
    method CreateExpense(userId: string, data: ExpenseBase, newId: string, now: Instant) returns (created: ExpenseRecord)
      requires Valid() && ValidExpenseBase(data) && forall x :: x in records ==> x.id != newId
      modifies this
      ensures created == NewRecord(userId, data, newId, now)
      ensures records == old(records) + [created] && Valid()
      ensures Lookup(records, newId, userId) == Some(created)
    {
      created := NewRecord(userId, data, newId, now);
      records := records + [created];
      assert records[|records| - 1] == created;
      LookupUnique(records, newId, userId, created);
    }

    /** `get_expense_by_id`: the record with this id and owner, if any. */
    method GetExpenseById(expenseId: string, userId: string) returns (r: Option<ExpenseRecord>)
      ensures r == Lookup(records, expenseId, userId)
    {
      var i := FindIndex(records, expenseId, userId);
      r := if i < |records| then Some(records[i]) else None;
    }

    /** `get_user_expenses`: builds the query key by key, then sorts by
        date descending and takes the page. */
    method GetUserExpenses(userId: string, skip: nat, limit: nat, category: Option<Category>,
                           start: Option<Instant>, end: Option<Instant>) returns (r: seq<ExpenseRecord>)
      ensures r == ListExpenses(records, userId, skip, limit, category, start, end)
    {
      var dates := GetFilter(start, end);
      var query := Selects(userId, category, dates);
      r := Page(SortDesc(Filter(records, query), DateKey), skip, limit);
    }

    /** `update_expense`: an empty update, or no record with this id and
        owner, changes nothing and yields `None`. Otherwise the record
        gets the present fields and the update stamp; the updated record
        is returned when that changed the stored document. */
    method UpdateExpense(expenseId: string, userId: string, u: ExpenseUpdate, now: Instant)
      returns (r: Option<ExpenseRecord>)
      requires Valid() && ValidExpenseUpdate(u)
      modifies this
      ensures Valid()
      ensures var i := FindIndex(old(records), expenseId, userId);
        if IsEmptyUpdate(u) || i == |old(records)| then records == old(records) && r.None?
        else
          var y := ApplyUpdate(old(records)[i], u, now);
          && records == old(records)[i := y]
          && (r.Some? <==> y != old(records)[i])
          && (r.Some? ==> r.value == y)
    {
      if IsEmptyUpdate(u) {
        return None;
      }
      var i := FindIndex(records, expenseId, userId);
      if i == |records| {
        return None;
      }
      var x := records[i];
      var y := ApplyUpdate(x, u, now);
      ReplaceAt(records, i, y, expenseId, userId);
      ApplyUpdateKeeps(x, u, now);
      KeepsValidRecords(records, i, y);
      records := records[i := y];
      if y != x {
        r := GetExpenseById(expenseId, userId);
      } else {
        r := None;
      }
    }

    /** `delete_expense`: true exactly when a record with this id and
        owner existed; that record alone is removed. */
    method DeleteExpense(expenseId: string, userId: string) returns (deleted: bool)
      requires Valid()
      modifies this
      ensures Valid()
      ensures deleted <==> Lookup(old(records), expenseId, userId).Some?
      ensures records == Removed(old(records), expenseId, userId)
    {
      var i := FindIndex(records, expenseId, userId);
      RemovedExactly(records, expenseId, userId);
      if i < |records| {
        RemovedElements(records, i);
        records := records[..i] + records[i + 1..];
        deleted := true;
      } else {
        deleted := false;
      }
    }

    /** `get_expense_count`: the number of the user's records. */
    method GetExpenseCount(userId: string) returns (n: nat)
      ensures n == |UserRecords(records, userId)|
    {
      n := |Filter(records, OwnedBy(userId))|;
    }

    /** `get_total_amount`: the single group's total, 0.0 when the user
        has no records. */
    method GetTotalAmount(userId: string) returns (total: real)
      ensures total == SumAmounts(UserRecords(records, userId))
    {
      var result := GroupBy(Filter(records, OwnedBy(userId)), NoKey);
      total := TotalOfGroups(result);
      TotalPipeline(Filter(records, OwnedBy(userId)));
    }
  }
}
