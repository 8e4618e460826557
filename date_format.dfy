/** Text forms of dates used in report labels: the `%Y-%m-%d` day label
    (the extended calendar-date form of ISO 8601:2004, section 4.1.2.2) and
    the English month names that `%B` prints. */
module DateFormat {
  import opened Wrappers
  import opened Calendar

  predicate IsDigit(c: char) {
    '0' <= c <= '9'
  }

  predicate AllDigits(s: string) {
    forall i :: 0 <= i < |s| ==> IsDigit(s[i])
  }

  function DigitChar(k: int): (c: char)
    requires 0 <= k < 10
    ensures IsDigit(c) && c as int - '0' as int == k
  {
    ('0' as int + k) as char
  }

  /** The decimal value of a string of digits. */
  function ParseNat(s: string): nat
    requires AllDigits(s)
    decreases |s|
  {
    if |s| == 0 then 0
    else ParseNat(s[..|s| - 1]) * 10 + (s[|s| - 1] as int - '0' as int)
  }

  /** The shortest decimal digits of `n`. */
  function Digits(n: nat): (s: string)
    ensures AllDigits(s) && ParseNat(s) == n
    ensures n < 10 ==> |s| == 1
    ensures n < 100 ==> 1 <= |s| <= 2
    ensures n < 1000 ==> 1 <= |s| <= 3
    ensures n < 10000 ==> 1 <= |s| <= 4
    decreases n
  {
    if n < 10 then
      assert [DigitChar(n)][..0] == [];
      [DigitChar(n)]
    else
      var s := Digits(n / 10) + [DigitChar(n % 10)];
      assert s[..|s| - 1] == Digits(n / 10);
      s
  }

  lemma {:induction false} ParseNatLeadingZeros(k: nat, s: string)
    requires AllDigits(s)
    ensures AllDigits(seq(k, _ => '0') + s)
    ensures ParseNat(seq(k, _ => '0') + s) == ParseNat(s)
    decreases |s|
  {
    var z := seq(k, _ => '0');
    if |s| == 0 {
      assert z + s == z;
      ParseNatZeros(k);
    } else {
      var t := z + s;
      assert t[..|t| - 1] == z + s[..|s| - 1];
      ParseNatLeadingZeros(k, s[..|s| - 1]);
    }
  }

  lemma {:induction false} ParseNatZeros(k: nat)
    ensures ParseNat(seq(k, _ => '0')) == 0
    decreases k
  {
    if k > 0 {
      assert seq(k, _ => '0')[..k - 1] == seq(k - 1, _ => '0');
      ParseNatZeros(k - 1);
    }
  }

  /** `n` in decimal, left-padded with zeros to at least `width` characters. */
  function ZeroPadded(n: nat, width: nat): (s: string)
    ensures AllDigits(s) && ParseNat(s) == n && |s| >= width
    ensures n < 100 && width == 2 ==> |s| == 2
    ensures n < 10000 && width == 4 ==> |s| == 4
  {
    var d := Digits(n);
    ParseNatLeadingZeros(if |d| >= width then 0 else width - |d|, d);
    if |d| >= width then
      assert seq(0, _ => '0') + d == d;
      d
    else seq(width - |d|, _ => '0') + d
  }

  /** The `%Y-%m-%d` label of a date. */
  function FormatDate(d: Date): (s: string)
    requires ValidDate(d)
    ensures |s| >= 10 && (d.year <= 9999 ==> |s| == 10)
  {
    ZeroPadded(d.year, 4) + "-" + ZeroPadded(d.month, 2) + "-" + ZeroPadded(d.day, 2)
  }

  /** Reading a label back gives the date it was printed from. */
  lemma FormatDateRoundTrip(d: Date)
    requires ValidDate(d)
    ensures ParseDate(FormatDate(d)) == Some(d)
  {
    ParseJoined(ZeroPadded(d.year, 4), ZeroPadded(d.month, 2), ZeroPadded(d.day, 2));
  }

  /** A year of at least four digits, a two-digit month and a two-digit day
      joined by dashes read back as those three numbers. */
  lemma ParseJoined(y: string, m: string, dd: string)
    requires AllDigits(y) && AllDigits(m) && AllDigits(dd)
    requires |y| >= 4 && |m| == 2 && |dd| == 2
    ensures ParseDate(y + "-" + m + "-" + dd) == Some(Date(ParseNat(y), ParseNat(m), ParseNat(dd)))
  {
    var s := y + "-" + m + "-" + dd;
    JoinedParts(y, m, dd);
    ParseParts(s, y, m, dd);
  }

  /** Where the parts of a joined label sit. */
  lemma JoinedParts(y: string, m: string, dd: string)
    requires |m| == 2 && |dd| == 2
    ensures var s := y + "-" + m + "-" + dd;
      && |s| == |y| + 6 && s[..|s| - 6] == y && s[|s| - 6] == '-' && s[|s| - 3] == '-'
      && s[|s| - 5..|s| - 3] == m && s[|s| - 2..] == dd
  {
    var s := y + "-" + m + "-" + dd;
    assert s[..|y|] == y;
  }

  lemma ParseParts(s: string, y: string, m: string, dd: string)
    requires AllDigits(y) && AllDigits(m) && AllDigits(dd) && |y| >= 4
    requires |s| == |y| + 6 && s[..|s| - 6] == y && s[|s| - 6] == '-' && s[|s| - 3] == '-'
    requires s[|s| - 5..|s| - 3] == m && s[|s| - 2..] == dd
    ensures ParseDate(s) == Some(Date(ParseNat(y), ParseNat(m), ParseNat(dd)))
  {
  }

  /** Reads a label of the form `Y-MM-DD` (any number of year digits) back
      into its parts; `None` when the text does not have that form. */
  function ParseDate(s: string): Option<Date> {
    if |s| < 10 || s[|s| - 6] != '-' || s[|s| - 3] != '-'
       || !AllDigits(s[..|s| - 6]) || !AllDigits(s[|s| - 5..|s| - 3]) || !AllDigits(s[|s| - 2..])
    then None
    else Some(Date(ParseNat(s[..|s| - 6]), ParseNat(s[|s| - 5..|s| - 3]), ParseNat(s[|s| - 2..])))
  }

  /** Distinct dates have distinct labels, so a label identifies its day. */
  lemma FormatDateInjective(a: Date, b: Date)
    requires ValidDate(a) && ValidDate(b) && FormatDate(a) == FormatDate(b)
    ensures a == b
  {
    FormatDateRoundTrip(a);
    FormatDateRoundTrip(b);
  }

  /** The label of the date an instant falls on. */
  function DateLabel(t: Instant): string {
    FormatDate(DateOf(t))
  }

  /** Two instants share a label exactly when they fall on the same day. */
  lemma DateLabelSameDay(s: Instant, t: Instant)
    ensures DateLabel(s) == DateLabel(t) <==> s / Day == t / Day
  {
    SameDate(s, t);
    if DateLabel(s) == DateLabel(t) {
      FormatDateInjective(DateOf(s), DateOf(t));
    }
  }

  const MonthNames: seq<string> := [
    "January", "February", "March", "April", "May", "June",
    "July", "August", "September", "October", "November", "December"
  ]

  /** The English name `%B` prints for a month. */
  function MonthName(month: int): string
    requires 1 <= month <= 12
  {
    MonthNames[month - 1]
  }

  /** The month a name stands for, searching the table from `from`. */
  function MonthNumber(name: string, from: nat := 1): (r: Option<int>)
    requires 1 <= from <= 13
    ensures r.Some? ==> from <= r.value <= 12 && MonthName(r.value) == name
    ensures r.None? ==> forall m :: from <= m <= 12 ==> MonthName(m) != name
    decreases 13 - from
  {
    if from == 13 then None
    else if MonthNames[from - 1] == name then Some(from)
    else MonthNumber(name, from + 1)
  }

  /** The month-name table has twelve distinct entries, so a name gives back its month. */
  lemma MonthNameRoundTrip(month: int)
    requires 1 <= month <= 12
    ensures MonthNumber(MonthName(month)) == Some(month)
  {
  }
}
