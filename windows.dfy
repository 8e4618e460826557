/** The window resolver: the half-open `[start, end)` intervals of the
    daily, weekly and monthly reports. */
module Windows {
  import opened Calendar

  /** A half-open interval of instants: `start` is inside, `end` is not. */
  datatype Window = Window(start: Instant, end: Instant)

  predicate InWindow(w: Window, t: Instant) {
    w.start <= t < w.end
  }

  /** The weekday of an instant is its day index modulo 7 (ordinal 1 is a Monday). */
  lemma WeekdayOfInstant(t: Instant)
    ensures Weekday(DateOf(t)) == (t / Day) % 7
  {
    var q := t / Day;
    assert Ordinal(DateOf(t)) + 6 == q + 7;
    ModSevenShift(q);
  }

  lemma ModSevenShift(q: nat)
    ensures (q + 7) % 7 == q % 7
  {
  }

  /** The daily window: midnight of the instant's date up to the next midnight. */
  function DayWindow(t: Instant): (w: Window)
    ensures w.start % Day == 0 && w.end == w.start + Day
    ensures InWindow(w, t) && DateOf(w.start) == DateOf(t)
  {
    var start := StartOfDay(t);
    Window(start, start + Day)
  }

  /** An instant lies in the daily window of `t` exactly when it falls on the same date. */
  lemma DayWindowIsDate(t: Instant, s: Instant)
    ensures InWindow(DayWindow(t), s) <==> DateOf(s) == DateOf(t)
  {
    var w := DayWindow(t);
    SameDate(s, t);
    SameDate(w.start, t);
    DayIndexAfter(w.start, 0, s);
  }

  /** On a midnight the daily window starts at that instant. */
  lemma DayWindowAligned(m: Instant)
    requires m % Day == 0
    ensures DayWindow(m) == Window(m, m + Day)
  {
    assert m == (m / Day) * Day;
  }

  /** The weekly window: midnight of the Monday on or before the instant's
      date, and seven days later. */
  function WeekWindow(t: Instant): (w: Window)
    ensures w.start % Day == 0 && w.end == w.start + 7 * Day
    ensures InWindow(w, t)
    ensures (w.start / Day) % 7 == 0
  {
    WeekdayOfInstant(t);
    var q := t / Day;
    var back := Weekday(DateOf(t));
    WeekStartArithmetic(t, back);
    var start := StartOfDay(t - back * Day);
    assert start == (q - back) * Day;
    Window(start, start + 7 * Day)
  }

  /** The weekly window is the seven days from its start. This repeats part
      of `WeekWindow`'s contract as a datatype equality, which keeps the
      callers' proof obligations small. */
  lemma WeekWindowShape(t: Instant)
    ensures WeekWindow(t) == Window(WeekWindow(t).start, WeekWindow(t).start + 7 * Day)
  {
  }

  /** Stepping back `back <= (t / Day) % 7` days from `t` and truncating to
      midnight lands on day index `t / Day - back`, which is a Monday when
      `back` is the weekday, and whose week holds `t`. */
  lemma WeekStartArithmetic(t: Instant, back: nat)
    requires back == (t / Day) % 7
    ensures back * Day <= t
    ensures StartOfDay(t - back * Day) == (t / Day - back) * Day
    ensures (t / Day - back) * Day <= t < (t / Day - back) * Day + 7 * Day
    ensures ((t / Day - back) * Day / Day) % 7 == 0
  {
    var q, r := t / Day, t % Day;
    StepBack(q, r, back);
    assert t == q * Day + r;
    var x := t - back * Day;
    StartOfDayIndex(x);
    WeekOfIndex(q, r, back);
    DivDay(q - back, 0);
    MondayIndex(q);
  }

  /** Stepping back `back <= q` whole days from `q * Day + r` keeps the time of day. */
  lemma StepBack(q: nat, r: nat, back: nat)
    requires r < Day && back <= q
    ensures back * Day <= q * Day + r
    ensures q * Day + r - back * Day == (q - back) * Day + r
    ensures (q * Day + r - back * Day) / Day == q - back
  {
    MultiplyDay(back, q);
    DivDay(q - back, r);
  }

  /** Truncation to midnight keeps the day index. */
  lemma StartOfDayIndex(x: Instant)
    ensures StartOfDay(x) == (x / Day) * Day
  {
    assert StartOfDay(x) == (Ordinal(DateOf(x)) - 1) * Day;
  }

  /** The seven days from day index `q - back` hold `q * Day + r` when `back < 7`. */
  lemma WeekOfIndex(q: nat, r: nat, back: nat)
    requires r < Day && back <= q && back < 7
    ensures (q - back) * Day <= q * Day + r < (q - back) * Day + 7 * Day
  {
    MultiplyDay(q - back, q);
    MultiplyDay(q + 1, q - back + 7);
  }

  /** Stepping back by the remainder modulo 7 lands on a multiple of 7. */
  lemma MondayIndex(q: nat)
    ensures (q - q % 7) % 7 == 0
  {
    assert q - q % 7 == 7 * (q / 7);
  }

  lemma MultiplyDay(a: nat, b: nat)
    requires a <= b
    ensures a * Day <= b * Day
  {
  }

  lemma DivDay(q: nat, r: nat)
    requires r < Day
    ensures (q * Day + r) / Day == q && (q * Day + r) % Day == r
  {
  }

  /** The seven days of a weekly window run Monday to Sunday, each the
      calendar day after the one before. */
  lemma WeekDays(t: Instant, i: nat)
    requires i < 7
    ensures Weekday(DateOf(WeekWindow(t).start + i * Day)) == i
    ensures i < 6 ==> DateOf(WeekWindow(t).start + (i + 1) * Day) == NextDate(DateOf(WeekWindow(t).start + i * Day))
  {
    var start := WeekWindow(t).start;
    var m := start + i * Day;
    DayIndexStep(start, i, m);
    WeekdayOfInstant(m);
    MondayOffset(start / Day, i);
    DateOfNextDay(m);
  }

  /** The week starts on a Monday, and the day before its end, the one the
      `week_end` label names, is a Sunday. */
  lemma WeekEnds(t: Instant)
    ensures Weekday(DateOf(WeekWindow(t).start)) == 0
    ensures Weekday(DateOf(WeekWindow(t).end - Day)) == 6
  {
    var start := WeekWindow(t).start;
    WeekDays(t, 0);
    WeekDays(t, 6);
    assert start + 0 * Day == start;
    assert WeekWindow(t).end - Day == start + 6 * Day;
  }

  /** Day `i` after a midnight is a midnight `i` day indices later. */
  lemma DayIndexStep(start: Instant, i: nat, m: Instant)
    requires start % Day == 0 && m == start + i * Day
    ensures m % Day == 0 && m / Day == start / Day + i
    ensures m + Day == start + (i + 1) * Day
  {
    assert start == (start / Day) * Day;
    assert m == (start / Day + i) * Day;
    DivDay(start / Day + i, 0);
  }

  lemma MondayOffset(q: nat, i: nat)
    requires q % 7 == 0 && i < 7
    ensures (q + i) % 7 == i
  {
    var k := q / 7;
    assert q == 7 * k;
  }

  /** The monthly window: the first of the month up to the first of the
      next month, December rolling over to January of the next year. */
  function MonthWindow(year: int, month: int): (w: Window)
    requires year >= 1 && 1 <= month <= 12
    ensures w.start % Day == 0 && DateOf(w.start) == Date(year, month, 1)
    ensures DateOf(w.end) == if month == 12 then Date(year + 1, 1, 1) else Date(year, month + 1, 1)
    ensures w.end - w.start == DaysInMonth(year, month) * Day
  {
    var first := Date(year, month, 1);
    var next := if month == 12 then Date(year + 1, 1, 1) else Date(year, month + 1, 1);
    DaysBeforeNextMonth(year, month);
    assert Ordinal(next) == Ordinal(first) + DaysInMonth(year, month);
    Window(Midnight(first), Midnight(next))
  }

  /** An instant lies in the monthly window exactly when its date is in that month. */
  lemma MonthWindowIsMonth(year: int, month: int, t: Instant)
    requires year >= 1 && 1 <= month <= 12
    ensures InWindow(MonthWindow(year, month), t) <==> DateOf(t).year == year && DateOf(t).month == month
  {
    var w := MonthWindow(year, month);
    var d := DateOf(t);
    var n := t / Day + 1;
    var first := Ordinal(Date(year, month, 1));
    assert w.start == (first - 1) * Day;
    assert InWindow(w, t) <==> first <= n < first + DaysInMonth(year, month);
    if InWindow(w, t) {
      var same := Date(year, month, n - first + 1);
      assert ValidDate(same) && Ordinal(same) == n;
      OrdinalInjective(same, d);
    }
  }
}
