/** The aggregator: the `$match` and `$group` stages of the report
    pipelines, stated by what they mean over an in-memory sequence of
    stored expenses, and the reference summary they are proved against. */
module Aggregation {
  import opened Calendar
  import opened Schemas
  import opened Windows

  /** The records a predicate selects, in store order. */
  function Filter(xs: seq<ExpenseRecord>, p: ExpenseRecord -> bool): (r: seq<ExpenseRecord>)
    ensures |r| <= |xs|
    decreases |xs|
  {
    if |xs| == 0 then []
    else Filter(xs[..|xs| - 1], p) + (if p(xs[|xs| - 1]) then [xs[|xs| - 1]] else [])
  }

  /** A record is kept exactly when it is in the input and meets the predicate. */
  lemma {:induction false} FilterMembers(xs: seq<ExpenseRecord>, p: ExpenseRecord -> bool, x: ExpenseRecord)
    ensures x in Filter(xs, p) <==> x in xs && p(x)
    decreases |xs|
  {
    if |xs| > 0 {
      var init := xs[..|xs| - 1];
      FilterMembers(init, p, x);
      assert xs == init + [xs[|xs| - 1]];
    }
  }

  /** The sum of the amounts, added left to right as Python's `sum` does. */
  function SumAmounts(xs: seq<ExpenseRecord>): real
    decreases |xs|
  {
    if |xs| == 0 then 0.0 else SumAmounts(xs[..|xs| - 1]) + xs[|xs| - 1].amount
  }

  lemma FilterSnoc(xs: seq<ExpenseRecord>, x: ExpenseRecord, p: ExpenseRecord -> bool)
    ensures p(x) ==> Filter(xs + [x], p) == Filter(xs, p) + [x]
    ensures !p(x) ==> Filter(xs + [x], p) == Filter(xs, p)
  {
    assert (xs + [x])[..|xs|] == xs;
  }

  lemma SumAmountsSnoc(xs: seq<ExpenseRecord>, x: ExpenseRecord)
    ensures SumAmounts(xs + [x]) == SumAmounts(xs) + x.amount
  {
    assert (xs + [x])[..|xs|] == xs;
  }

  /** The `$match` condition: the record is the user's and dated from the
      window's start, included, to its end, excluded. */
  function OwnedWithin(userId: string, w: Window): ExpenseRecord -> bool {
    (x: ExpenseRecord) => x.userId == userId && InWindow(w, x.date)
  }

  /** The `$match` stage of every report pipeline. */
  function Matching(store: seq<ExpenseRecord>, userId: string, w: Window): seq<ExpenseRecord> {
    Filter(store, OwnedWithin(userId, w))
  }

  function OfCategory(c: Category): ExpenseRecord -> bool {
    (x: ExpenseRecord) => x.category == c
  }

  function CategoryKey(x: ExpenseRecord): Category {
    x.category
  }

  /** One output row of `$group`: the key, `$sum` of the amounts and `$sum: 1`. */
  datatype Group<K> = Group(key: K, total: real, count: nat)

  function Keys<K>(gs: seq<Group<K>>): set<K>
    decreases |gs|
  {
    if |gs| == 0 then {} else Keys(gs[..|gs| - 1]) + {gs[|gs| - 1].key}
  }

  predicate DistinctKeys<K(==)>(gs: seq<Group<K>>)
    decreases |gs|
  {
    |gs| == 0 || (DistinctKeys(gs[..|gs| - 1]) && gs[|gs| - 1].key !in Keys(gs[..|gs| - 1]))
  }

  /** Adds one record's amount to the group with key `k`, opening a group
      when there is none yet. */
  function AddToGroup<K(==)>(gs: seq<Group<K>>, k: K, amount: real): (r: seq<Group<K>>)
    ensures Keys(r) == Keys(gs) + {k}
    ensures DistinctKeys(gs) ==> DistinctKeys(r)
    decreases |gs|
  {
    if |gs| == 0 then
      assert [Group(k, amount, 1)][..0] == [];
      [Group(k, amount, 1)]
    else
      var init, g := gs[..|gs| - 1], gs[|gs| - 1];
      if g.key == k then
        var r := init + [Group(k, g.total + amount, g.count + 1)];
        assert r[..|r| - 1] == init;
        r
      else
        var r := AddToGroup(init, k, amount) + [g];
        assert r[..|r| - 1] == AddToGroup(init, k, amount);
        r
  }

  /** The `$group` stage: one group per distinct key, holding the sum and
      the number of the records with that key. */
  function GroupBy<K(==)>(xs: seq<ExpenseRecord>, key: ExpenseRecord -> K): (gs: seq<Group<K>>)
    ensures DistinctKeys(gs)
    decreases |xs|
  {
    if |xs| == 0 then []
    else AddToGroup(GroupBy(xs[..|xs| - 1], key), key(xs[|xs| - 1]), xs[|xs| - 1].amount)
  }

  /** Sum of the totals of the groups whose key satisfies `p`. */
  function TotalWhere<K>(gs: seq<Group<K>>, p: K -> bool): real
    decreases |gs|
  {
    if |gs| == 0 then 0.0
    else TotalWhere(gs[..|gs| - 1], p) + (if p(gs[|gs| - 1].key) then gs[|gs| - 1].total else 0.0)
  }

  /** Sum of the counts of the groups whose key satisfies `p`. */
  function CountWhere<K>(gs: seq<Group<K>>, p: K -> bool): nat
    decreases |gs|
  {
    if |gs| == 0 then 0
    else CountWhere(gs[..|gs| - 1], p) + (if p(gs[|gs| - 1].key) then gs[|gs| - 1].count else 0)
  }

  function AnyKey<K>(): K -> bool {
    _ => true
  }

  function IsKey<K(==)>(k: K): K -> bool {
    k' => k' == k
  }

  /** The grouped rows' totals, added up. */
  function SumTotals<K>(gs: seq<Group<K>>): real {
    TotalWhere(gs, AnyKey())
  }

  /** The grouped rows' counts, added up. */
  function SumCounts<K>(gs: seq<Group<K>>): nat {
    CountWhere(gs, AnyKey())
  }

  lemma {:induction false} AddToGroupSums<K>(gs: seq<Group<K>>, k: K, amount: real, p: K -> bool)
    ensures TotalWhere(AddToGroup(gs, k, amount), p) == TotalWhere(gs, p) + (if p(k) then amount else 0.0)
    ensures CountWhere(AddToGroup(gs, k, amount), p) == CountWhere(gs, p) + (if p(k) then 1 else 0)
    decreases |gs|
  {
    var r := AddToGroup(gs, k, amount);
    if |gs| == 0 {
      assert r[..0] == [];
    } else {
      var init, g := gs[..|gs| - 1], gs[|gs| - 1];
      assert r[..|r| - 1] == (if g.key == k then init else AddToGroup(init, k, amount));
      if g.key != k {
        AddToGroupSums(init, k, amount, p);
      }
    }
  }

  /** What `$group` computes: for any condition on keys, the groups whose
      key meets it hold between them the sum and the number of exactly the
      records whose key meets it. */
  lemma {:induction false} GroupBySums<K>(xs: seq<ExpenseRecord>, key: ExpenseRecord -> K,
                                         p: K -> bool, q: ExpenseRecord -> bool)
    requires forall x :: q(x) == p(key(x))
    ensures TotalWhere(GroupBy(xs, key), p) == SumAmounts(Filter(xs, q))
    ensures CountWhere(GroupBy(xs, key), p) == |Filter(xs, q)|
    decreases |xs|
  {
    if |xs| > 0 {
      var init, x := xs[..|xs| - 1], xs[|xs| - 1];
      GroupBySums(init, key, p, q);
      AddToGroupSums(GroupBy(init, key), key(x), x.amount, p);
      assert xs == init + [x];
      FilterSnoc(init, x, q);
      SumAmountsSnoc(Filter(init, q), x);
      assert q(x) == p(key(x));
    }
  }

  /** `$group` opens a group for a key exactly when some record has that key. */
  lemma {:induction false} GroupByKeys<K>(xs: seq<ExpenseRecord>, key: ExpenseRecord -> K, k: K)
    ensures k in Keys(GroupBy(xs, key)) <==> exists x :: x in xs && key(x) == k
    decreases |xs|
  {
    if |xs| > 0 {
      var init, x := xs[..|xs| - 1], xs[|xs| - 1];
      GroupByKeys(init, key, k);
      assert xs == init + [x];
      if k in Keys(GroupBy(init, key)) {
        var y :| y in init && key(y) == k;
        assert y in xs;
      }
    }
  }

  lemma {:induction false} TotalWhereNone<K>(gs: seq<Group<K>>, p: K -> bool)
    requires forall k :: k in Keys(gs) ==> !p(k)
    ensures TotalWhere(gs, p) == 0.0 && CountWhere(gs, p) == 0
    decreases |gs|
  {
    if |gs| > 0 {
      TotalWhereNone(gs[..|gs| - 1], p);
    }
  }

  /** The category of each grouped row mapped to that row's total. */
  function CategoryMap(gs: seq<Group<Category>>): map<Category, real>
    decreases |gs|
  {
    if |gs| == 0 then map[]
    else CategoryMap(gs[..|gs| - 1])[gs[|gs| - 1].key := gs[|gs| - 1].total]
  }

  /** With distinct keys, the comprehension holds each group's total under its key. */
  lemma {:induction false} CategoryMapValues(gs: seq<Group<Category>>, c: Category)
    requires DistinctKeys(gs)
    ensures c in CategoryMap(gs) <==> c in Keys(gs)
    ensures c in CategoryMap(gs) ==> CategoryMap(gs)[c] == TotalWhere(gs, IsKey(c))
    decreases |gs|
  {
    if |gs| > 0 {
      var init, g := gs[..|gs| - 1], gs[|gs| - 1];
      CategoryMapValues(init, c);
      if g.key == c {
        TotalWhereNone(init, IsKey(c));
      }
    }
  }

  function CategoriesOf(xs: seq<ExpenseRecord>): set<Category> {
    set x | x in xs :: x.category
  }

  /** The reference per-category breakdown: every category some record
      has, mapped to the sum of that category's amounts. */
  function CategoryTotals(xs: seq<ExpenseRecord>): map<Category, real> {
    map c | c in CategoriesOf(xs) :: SumAmounts(Filter(xs, OfCategory(c)))
  }

  /** The per-category comprehension over `$group` by category is the
      reference breakdown, and the two sums are the total amount and the
      number of records. */
  lemma GroupedSummary(xs: seq<ExpenseRecord>)
    ensures SumTotals(GroupBy(xs, CategoryKey)) == SumAmounts(xs)
    ensures SumCounts(GroupBy(xs, CategoryKey)) == |xs|
    ensures CategoryMap(GroupBy(xs, CategoryKey)) == CategoryTotals(xs)
  {
    var gs := GroupBy(xs, CategoryKey);
    GroupBySums(xs, CategoryKey, AnyKey(), x => true);
    FilterAll(xs);
    forall c: Category
      ensures c in CategoryMap(gs) <==> c in CategoryTotals(xs)
      ensures c in CategoryMap(gs) ==> CategoryMap(gs)[c] == CategoryTotals(xs)[c]
    {
      CategoryMapValues(gs, c);
      GroupByKeys(xs, CategoryKey, c);
      GroupBySums(xs, CategoryKey, IsKey(c), OfCategory(c));
    }
  }

  lemma {:induction false} FilterAll(xs: seq<ExpenseRecord>)
    ensures Filter(xs, x => true) == xs
    decreases |xs|
  {
    if |xs| > 0 {
      FilterAll(xs[..|xs| - 1]);
      assert xs == xs[..|xs| - 1] + [xs[|xs| - 1]];
    }
  }

  function Get(m: map<Category, real>, c: Category): real {
    if c in m then m[c] else 0.0
  }

  /** `sum(categories.values())` over the seven categories. */
  function SumValues(m: map<Category, real>): real {
    Get(m, FOOD) + Get(m, TRANSPORT) + Get(m, ENTERTAINMENT) + Get(m, UTILITIES)
      + Get(m, HEALTHCARE) + Get(m, SHOPPING) + Get(m, OTHER)
  }

  function CategorySum(xs: seq<ExpenseRecord>, c: Category): real {
    SumAmounts(Filter(xs, OfCategory(c)))
  }

  lemma CategorySumStep(init: seq<ExpenseRecord>, x: ExpenseRecord, c: Category)
    ensures CategorySum(init + [x], c) == CategorySum(init, c) + (if x.category == c then x.amount else 0.0)
  {
    assert OfCategory(c)(x) == (x.category == c);
    FilterSnoc(init, x, OfCategory(c));
    SumAmountsSnoc(Filter(init, OfCategory(c)), x);
  }

  lemma {:induction false} CategorySumsAddUp(xs: seq<ExpenseRecord>)
    ensures CategorySum(xs, FOOD) + CategorySum(xs, TRANSPORT) + CategorySum(xs, ENTERTAINMENT)
            + CategorySum(xs, UTILITIES) + CategorySum(xs, HEALTHCARE) + CategorySum(xs, SHOPPING)
            + CategorySum(xs, OTHER) == SumAmounts(xs)
    decreases |xs|
  {
    if |xs| > 0 {
      var init, x := xs[..|xs| - 1], xs[|xs| - 1];
      assert xs == init + [x];
      CategorySumsAddUp(init);
      SumAmountsSnoc(init, x);
      CategorySumStep(init, x, FOOD);
      CategorySumStep(init, x, TRANSPORT);
      CategorySumStep(init, x, ENTERTAINMENT);
      CategorySumStep(init, x, UTILITIES);
      CategorySumStep(init, x, HEALTHCARE);
      CategorySumStep(init, x, SHOPPING);
      CategorySumStep(init, x, OTHER);
    }
  }

  /** The values of the reference breakdown add up to the total amount. */
  lemma CategoryTotalsSum(xs: seq<ExpenseRecord>)
    ensures SumValues(CategoryTotals(xs)) == SumAmounts(xs)
  {
    CategoryTotalsGet(xs, FOOD);
    CategoryTotalsGet(xs, TRANSPORT);
    CategoryTotalsGet(xs, ENTERTAINMENT);
    CategoryTotalsGet(xs, UTILITIES);
    CategoryTotalsGet(xs, HEALTHCARE);
    CategoryTotalsGet(xs, SHOPPING);
    CategoryTotalsGet(xs, OTHER);
    CategorySumsAddUp(xs);
  }

  lemma CategoryTotalsGet(xs: seq<ExpenseRecord>, c: Category)
    ensures Get(CategoryTotals(xs), c) == CategorySum(xs, c)
  {
    if c !in CategoriesOf(xs) {
      forall x | x in xs ensures !OfCategory(c)(x) {
        assert x.category in CategoriesOf(xs);
      }
      FilterNone(xs, OfCategory(c));
    }
  }

  /** Filtering twice is filtering once by the conjunction. */
  lemma {:induction false} FilterFilter(xs: seq<ExpenseRecord>, p: ExpenseRecord -> bool,
                                        q: ExpenseRecord -> bool, r: ExpenseRecord -> bool)
    requires forall x :: x in xs ==> (p(x) && q(x)) == r(x)
    ensures Filter(Filter(xs, p), q) == Filter(xs, r)
    decreases |xs|
  {
    if |xs| > 0 {
      var init, x := xs[..|xs| - 1], xs[|xs| - 1];
      assert xs == init + [x];
      FilterFilter(init, p, q, r);
      FilterSnoc(init, x, p);
      FilterSnoc(init, x, r);
      if p(x) {
        FilterSnoc(Filter(init, p), x, q);
      }
    }
  }

  /** Splitting a window at `mid` splits the matching records' sum and count. */
  lemma MatchingSplit(store: seq<ExpenseRecord>, userId: string, a: Instant, mid: Instant, b: Instant)
    requires a <= mid <= b
    ensures SumAmounts(Matching(store, userId, Window(a, b)))
            == SumAmounts(Matching(store, userId, Window(a, mid))) + SumAmounts(Matching(store, userId, Window(mid, b)))
    ensures |Matching(store, userId, Window(a, b))|
            == |Matching(store, userId, Window(a, mid))| + |Matching(store, userId, Window(mid, b))|
  {
    FilterSplit(store, OwnedWithin(userId, Window(a, b)), OwnedWithin(userId, Window(a, mid)), OwnedWithin(userId, Window(mid, b)));
  }

  /** When `p` holds exactly where one of `q` and `r` does, and never both,
      the records `p` selects split into those `q` and `r` select. */
  lemma {:induction false} FilterSplit(xs: seq<ExpenseRecord>, p: ExpenseRecord -> bool,
                                       q: ExpenseRecord -> bool, r: ExpenseRecord -> bool)
    requires forall x :: p(x) == (q(x) || r(x)) && !(q(x) && r(x))
    ensures SumAmounts(Filter(xs, p)) == SumAmounts(Filter(xs, q)) + SumAmounts(Filter(xs, r))
    ensures |Filter(xs, p)| == |Filter(xs, q)| + |Filter(xs, r)|
    decreases |xs|
  {
    if |xs| > 0 {
      var init, x := xs[..|xs| - 1], xs[|xs| - 1];
      assert xs == init + [x];
      FilterSplit(init, p, q, r);
      FilterSnoc(init, x, p);
      FilterSnoc(init, x, q);
      FilterSnoc(init, x, r);
      SumAmountsSnoc(Filter(init, p), x);
      SumAmountsSnoc(Filter(init, q), x);
      SumAmountsSnoc(Filter(init, r), x);
    }
  }

  /** An empty or inverted window matches nothing. */
  lemma {:induction false} EmptyWindowMatchesNothing(store: seq<ExpenseRecord>, userId: string, w: Window)
    requires w.end <= w.start
    ensures Matching(store, userId, w) == []
  {
    FilterNone(store, OwnedWithin(userId, w));
  }

  lemma {:induction false} FilterNone(xs: seq<ExpenseRecord>, p: ExpenseRecord -> bool)
    requires forall x :: x in xs ==> !p(x)
    ensures Filter(xs, p) == []
    decreases |xs|
  {
    if |xs| > 0 {
      var init, x := xs[..|xs| - 1], xs[|xs| - 1];
      assert xs == init + [x];
      FilterNone(init, p);
      FilterSnoc(init, x, p);
    }
  }
}
