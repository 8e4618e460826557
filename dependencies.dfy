/** The shared query parameters of the list endpoints: the pagination
    bounds and the date-range filter builder. */
module Dependencies {
  import opened Wrappers
  import opened Calendar

  /** `PaginationParams`: how many records to skip and how many to return. */
  datatype Pagination = Pagination(skip: nat, limit: nat)

  const DefaultSkip: nat := 0
  const DefaultLimit: nat := 10
  const MaxLimit: nat := 100

  /** The query-parameter validation of `skip` (at least 0) and `limit`
      (1 to 100): `None` where the request is rejected. */
  function MakePagination(skip: int, limit: int): (r: Option<Pagination>)
    ensures r.Some? <==> 0 <= skip && 1 <= limit <= MaxLimit
    ensures r.Some? ==> r.value.skip == skip && r.value.limit == limit
  {
    if 0 <= skip && 1 <= limit <= MaxLimit then Some(Pagination(skip, limit)) else None
  }

  /** The defaults satisfy the bounds. */
  lemma DefaultPagination()
    ensures MakePagination(DefaultSkip, DefaultLimit) == Some(Pagination(0, 10))
  {
  }

  /** The value under the `date` key of a query: `$gte` and `$lte` bounds,
      each present or absent. */
  datatype DateFilter = DateFilter(gte: Option<Instant>, lte: Option<Instant>)

  /** `DateRangeParams.get_filter`: `None` stands for the empty filter
      `{}`, `Some(f)` for `{"date": f}`. A bound is inserted only when it
      was given. */
  function GetFilter(start: Option<Instant>, end: Option<Instant>): (r: Option<DateFilter>)
    ensures r.None? <==> start.None? && end.None?
    ensures r.Some? ==> (r.value.gte.Some? <==> start.Some?) && (r.value.lte.Some? <==> end.Some?)
  {
    if start.None? && end.None? then None
    else
      var withStart := if start.Some? then DateFilter(Some(start.value), None) else DateFilter(None, None);
      var withEnd := if end.Some? then withStart.(lte := Some(end.value)) else withStart;
      Some(withEnd)
  }

  /** What a filter means for a record dated `t`: the empty filter admits
      everything, `$gte` and `$lte` are inclusive bounds. */
  predicate Admits(f: Option<DateFilter>, t: Instant) {
    f.None? || ((f.value.gte.None? || f.value.gte.value <= t) && (f.value.lte.None? || t <= f.value.lte.value))
  }

  /** The built filter admits exactly the dates inside the given bounds,
      both ends included, an absent bound imposing nothing. */
  lemma FilterAdmits(start: Option<Instant>, end: Option<Instant>, t: Instant)
    ensures Admits(GetFilter(start, end), t)
        <==> (start.Some? ==> start.value <= t) && (end.Some? ==> t <= end.value)
  {
  }

  /** No bound: the empty filter. */
  lemma NoBoundFilter()
    ensures GetFilter(None, None) == None
  {
  }

  /** A start bound alone: `{"date": {"$gte": start}}`. */
  lemma StartOnlyFilter(start: Instant)
    ensures GetFilter(Some(start), None) == Some(DateFilter(Some(start), None))
  {
  }

  /** An end bound alone: `{"date": {"$lte": end}}`. */
  lemma EndOnlyFilter(end: Instant)
    ensures GetFilter(None, Some(end)) == Some(DateFilter(None, Some(end)))
  {
  }

  /** Both bounds: both keys, both inclusive. */
  lemma BothBoundsFilter(start: Instant, end: Instant)
    ensures GetFilter(Some(start), Some(end)) == Some(DateFilter(Some(start), Some(end)))
    ensures Admits(GetFilter(Some(start), Some(end)), start) <==> start <= end
    ensures Admits(GetFilter(Some(start), Some(end)), end) <==> start <= end
  {
  }
}
