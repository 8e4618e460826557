/** The proleptic Gregorian calendar and naive UTC instants, as Python's
    `datetime` module represents them. An instant is a count of microseconds
    since 0001-01-01T00:00:00; the day with index `t / Day` is the date with
    ordinal `t / Day + 1` (Python's `date.toordinal`), and ordinal 1 is a
    Monday. */
module Calendar {

  /** Microseconds in one day: `timedelta(days=1)` at Python's resolution. */
  const Day: nat := 86_400_000_000

  /** A naive (UTC) `datetime`, in microseconds since 0001-01-01T00:00:00. */
  type Instant = nat

  predicate IsLeap(year: int) {
    year % 4 == 0 && (year % 100 != 0 || year % 400 == 0)
  }

  function DaysInYear(year: int): nat {
    if IsLeap(year) then 366 else 365
  }

  function DaysInMonth(year: int, month: int): (n: nat)
    requires 1 <= month <= 12
    ensures 28 <= n <= 31
    ensures n == 29 <==> month == 2 && IsLeap(year)
  {
    if month == 2 then (if IsLeap(year) then 29 else 28)
    else if month == 4 || month == 6 || month == 9 || month == 11 then 30
    else 31
  }

  /** Days in the months of `year` before `month` (Python's `_days_before_month`). */
  function DaysBeforeMonth(year: int, month: int): nat
    requires 1 <= month <= 12
  {
    [0, 31, 59, 90, 120, 151, 181, 212, 243, 273, 304, 334][month - 1]
      + (if month > 2 && IsLeap(year) then 1 else 0)
  }

  lemma DaysBeforeNextMonth(year: int, month: int)
    requires 1 <= month <= 12
    ensures DaysBeforeMonth(year, month) + DaysInMonth(year, month)
            == if month == 12 then DaysInYear(year) else DaysBeforeMonth(year, month + 1)
  {
  }

  /** Days in the years before `year`, counted from year 1. */
  function DaysBeforeYear(year: int): nat
    requires year >= 1
    decreases year
  {
    if year == 1 then 0 else DaysBeforeYear(year - 1) + DaysInYear(year - 1)
  }

  lemma {:induction false} DaysBeforeYearMonotone(a: int, b: int)
    requires 1 <= a <= b
    ensures DaysBeforeYear(a) <= DaysBeforeYear(b)
    decreases b - a
  {
    if a < b {
      DaysBeforeYearMonotone(a, b - 1);
    }
  }

  datatype Date = Date(year: int, month: int, day: int)

  predicate ValidDate(d: Date) {
    d.year >= 1 && 1 <= d.month <= 12 && 1 <= d.day <= DaysInMonth(d.year, d.month)
  }

  /** Python's `date.toordinal()`: 0001-01-01 has ordinal 1. */
  function Ordinal(d: Date): (n: nat)
    requires ValidDate(d)
    ensures n >= 1
  {
    DaysBeforeYear(d.year) + DaysBeforeMonth(d.year, d.month) + d.day
  }

  /** Locates the `n`-th day counted from the first day of `year`:
      the year it falls in and its day of that year. */
  function YearOf(year: int, n: int): (r: (int, int))
    requires year >= 1 && n >= 1
    ensures r.0 >= year && 1 <= r.1 <= DaysInYear(r.0)
    ensures DaysBeforeYear(r.0) - DaysBeforeYear(year) + r.1 == n
    decreases n
  {
    if n <= DaysInYear(year) then (year, n)
    else YearOf(year + 1, n - DaysInYear(year))
  }

  /** Locates the `n`-th day counted from the first day of `month`
      within `year`: its month and its day of that month. */
  function MonthOf(year: int, month: int, n: int): (r: (int, int))
    requires 1 <= month <= 12
    requires 1 <= n <= DaysInYear(year) - DaysBeforeMonth(year, month)
    ensures month <= r.0 <= 12 && 1 <= r.1 <= DaysInMonth(year, r.0)
    ensures DaysBeforeMonth(year, r.0) - DaysBeforeMonth(year, month) + r.1 == n
    decreases 12 - month
  {
    DaysBeforeNextMonth(year, month);
    if n <= DaysInMonth(year, month) then (month, n)
    else MonthOf(year, month + 1, n - DaysInMonth(year, month))
  }

  /** Python's `date.fromordinal(n)`: the inverse of `Ordinal`. */
  function FromOrdinal(n: int): (d: Date)
    requires n >= 1
    ensures ValidDate(d) && Ordinal(d) == n
  {
    var (y, k) := YearOf(1, n);
    var (m, dd) := MonthOf(y, 1, k);
    Date(y, m, dd)
  }

  lemma {:induction false} YearOfOrdinal(year: int, target: int, k: int)
    requires 1 <= year <= target && 1 <= k <= DaysInYear(target)
    ensures DaysBeforeYear(year) <= DaysBeforeYear(target)
    ensures YearOf(year, DaysBeforeYear(target) - DaysBeforeYear(year) + k) == (target, k)
    decreases target - year
  {
    DaysBeforeYearMonotone(year, target);
    if year < target {
      DaysBeforeYearMonotone(year + 1, target);
      YearOfOrdinal(year + 1, target, k);
      var n := DaysBeforeYear(target) - DaysBeforeYear(year) + k;
      assert DaysBeforeYear(year + 1) == DaysBeforeYear(year) + DaysInYear(year);
      assert n > DaysInYear(year);
      assert n - DaysInYear(year) == DaysBeforeYear(target) - DaysBeforeYear(year + 1) + k;
    }
  }

  lemma {:induction false} MonthOfOrdinal(year: int, month: int, target: int, d: int)
    requires 1 <= month <= target <= 12 && 1 <= d <= DaysInMonth(year, target)
    ensures DaysBeforeMonth(year, target) - DaysBeforeMonth(year, month) + d
            <= DaysInYear(year) - DaysBeforeMonth(year, month)
    ensures MonthOf(year, month, DaysBeforeMonth(year, target) - DaysBeforeMonth(year, month) + d)
            == (target, d)
    decreases target - month
  {
    DaysBeforeNextMonth(year, month);
    DaysBeforeNextMonth(year, target);
    if month < target {
      MonthOfOrdinal(year, month + 1, target, d);
    }
  }

  /** The other half of the round trip: every valid date is recovered from its ordinal. */
  lemma FromOrdinalOrdinal(d: Date)
    requires ValidDate(d)
    ensures FromOrdinal(Ordinal(d)) == d
  {
    var k := DaysBeforeMonth(d.year, d.month) + d.day;
    assert DaysBeforeYear(1) == 0 && DaysBeforeMonth(d.year, 1) == 0;
    MonthOfOrdinal(d.year, 1, d.month, d.day);
    assert MonthOf(d.year, 1, k) == (d.month, d.day);
    YearOfOrdinal(1, d.year, k);
    assert YearOf(1, Ordinal(d)) == (d.year, k);
  }

  /** Distinct valid dates have distinct ordinals. */
  lemma OrdinalInjective(a: Date, b: Date)
    requires ValidDate(a) && ValidDate(b) && Ordinal(a) == Ordinal(b)
    ensures a == b
  {
    FromOrdinalOrdinal(a);
    FromOrdinalOrdinal(b);
  }

  /** Python's `date.weekday()`: Monday is 0 and Sunday is 6. */
  function Weekday(d: Date): (w: nat)
    requires ValidDate(d)
    ensures w < 7
  {
    (Ordinal(d) + 6) % 7
  }

  /** The calendar day after `d`. */
  function NextDate(d: Date): Date
    requires ValidDate(d)
  {
    if d.day < DaysInMonth(d.year, d.month) then Date(d.year, d.month, d.day + 1)
    else if d.month < 12 then Date(d.year, d.month + 1, 1)
    else Date(d.year + 1, 1, 1)
  }

  lemma NextDateOrdinal(d: Date)
    requires ValidDate(d)
    ensures ValidDate(NextDate(d)) && Ordinal(NextDate(d)) == Ordinal(d) + 1
  {
    DaysBeforeNextMonth(d.year, d.month);
    if d.day < DaysInMonth(d.year, d.month) {
    } else if d.month < 12 {
      assert NextDate(d) == Date(d.year, d.month + 1, 1);
    } else {
      assert NextDate(d) == Date(d.year + 1, 1, 1);
      assert DaysBeforeYear(d.year + 1) == DaysBeforeYear(d.year) + DaysInYear(d.year);
    }
  }

  /** The date on which instant `t` falls (`datetime.date()`). */
  function DateOf(t: Instant): (d: Date)
    ensures ValidDate(d) && Ordinal(d) == t / Day + 1
  {
    FromOrdinal(t / Day + 1)
  }

  /** Midnight at the start of a date: `datetime(d.year, d.month, d.day)`. */
  function Midnight(d: Date): (t: Instant)
    requires ValidDate(d)
    ensures t % Day == 0 && DateOf(t) == d
  {
    FromOrdinalOrdinal(d);
    (Ordinal(d) - 1) * Day
  }

  /** Truncation of an instant to midnight of its own date. */
  function StartOfDay(t: Instant): (m: Instant)
    ensures m % Day == 0 && m <= t < m + Day
    ensures DateOf(m) == DateOf(t)
  {
    Midnight(DateOf(t))
  }

  /** Two instants fall on the same date exactly when they have the same day index. */
  lemma SameDate(s: Instant, t: Instant)
    ensures DateOf(s) == DateOf(t) <==> s / Day == t / Day
  {
    if DateOf(s) == DateOf(t) {
      assert s / Day + 1 == Ordinal(DateOf(s)) == Ordinal(DateOf(t)) == t / Day + 1;
    }
  }

  /** Day `i` after a midnight: the day index advances by exactly `i`. */
  lemma DayIndexAfter(m: Instant, i: nat, t: Instant)
    requires m % Day == 0
    ensures (t / Day == (m + i * Day) / Day) <==> m + i * Day <= t < m + (i + 1) * Day
  {
  }

  /** The date one day after a midnight is the next calendar date. */
  lemma DateOfNextDay(m: Instant)
    requires m % Day == 0
    ensures DateOf(m + Day) == NextDate(DateOf(m))
  {
    NextDateOrdinal(DateOf(m));
    OrdinalInjective(DateOf(m + Day), NextDate(DateOf(m)));
  }
}
