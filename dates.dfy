/** Proleptic Gregorian calendar dates as Python's `datetime.date` has them:
    validity (years 1..9999), the day number `toordinal()` (so that
    `(a - b).days` is `Ordinal(a) - Ordinal(b)`), the day before, and the
    `YYYY-MM-DD` rendering (`isoformat`, `strftime("%Y-%m-%d")`) with its
    inverse `strptime(s, "%Y-%m-%d")`. */
module Dates {
  import opened Wrappers
  import opened Text

  datatype Date = Date(year: int, month: int, day: int)

  const MinDate := Date(1, 1, 1)

  predicate IsLeap(y: int) {
    y % 4 == 0 && (y % 100 != 0 || y % 400 == 0)
  }

  function DaysInMonth(y: int, m: int): int {
    if m == 2 then (if IsLeap(y) then 29 else 28)
    else if m == 4 || m == 6 || m == 9 || m == 11 then 30
    else 31
  }

  /** What `datetime.date(y, m, d)` accepts without raising ValueError. */
  predicate IsValid(d: Date) {
    1 <= d.year <= 9999 && 1 <= d.month <= 12 && 1 <= d.day <= DaysInMonth(d.year, d.month)
  }

  /** `datetime.date(y, m, d)`, with ValueError as None. */
  function MakeDate(y: int, m: int, d: int): (r: Option<Date>)
    ensures r.Some? <==> IsValid(Date(y, m, d))
    ensures r.Some? ==> r.value == Date(y, m, d)
  {
    if IsValid(Date(y, m, d)) then Some(Date(y, m, d)) else None
  }

  function DaysBeforeYear(y: int): int
    requires y >= 1
  {
    var p := y - 1;
    365 * p + p / 4 - p / 100 + p / 400
  }

  function DaysBeforeMonth(y: int, m: int): int
    requires 1 <= m <= 12
  {
    [0, 31, 59, 90, 120, 151, 181, 212, 243, 273, 304, 334][m - 1]
    + (if m > 2 && IsLeap(y) then 1 else 0)
  }

  /** `date.toordinal()`: 0001-01-01 is day 1. */
  function Ordinal(d: Date): int
    requires IsValid(d)
  {
    DaysBeforeYear(d.year) + DaysBeforeMonth(d.year, d.month) + d.day
  }

  /** `abs((a - b).days)`. */
  function Distance(a: Date, b: Date): nat
    requires IsValid(a) && IsValid(b)
  {
    if Ordinal(a) >= Ordinal(b) then Ordinal(a) - Ordinal(b) else Ordinal(b) - Ordinal(a)
  }

  /** A year holds 365 days, one more when it is a leap year. */
  lemma YearLength(y: int)
    requires y >= 1
    ensures DaysBeforeYear(y + 1) == DaysBeforeYear(y) + 365 + (if IsLeap(y) then 1 else 0)
  {
    var p := y - 1;
    assert y / 4 == p / 4 + (if y % 4 == 0 then 1 else 0);
    assert y / 100 == p / 100 + (if y % 100 == 0 then 1 else 0);
    assert y / 400 == p / 400 + (if y % 400 == 0 then 1 else 0);
  }

  /** `d - timedelta(days=1)`: the day before; it is one day number lower. */
  function Prev(d: Date): (r: Date)
    requires IsValid(d) && d != MinDate
    ensures IsValid(r) && Ordinal(r) == Ordinal(d) - 1
  {
    if d.day > 1 then Date(d.year, d.month, d.day - 1)
    else if d.month > 1 then Date(d.year, d.month - 1, DaysInMonth(d.year, d.month - 1))
    else YearLength(d.year - 1); Date(d.year - 1, 12, 31)
  }

  lemma {:induction false} DaysBeforeYearGrows(y1: int, y2: int)
    requires 1 <= y1 <= y2
    ensures DaysBeforeYear(y2) >= DaysBeforeYear(y1) + 365 * (y2 - y1)
    decreases y2 - y1
  {
    if y1 < y2 {
      DaysBeforeYearGrows(y1, y2 - 1);
      YearLength(y2 - 1);
    }
  }

  /** Within a year, the days before a month and that month's own days
      never pass the days before any later month, nor the year's length. */
  lemma MonthsAreOrdered(y: int, m1: int, m2: int)
    requires 1 <= m1 < m2 <= 12
    ensures DaysBeforeMonth(y, m1) + DaysInMonth(y, m1) <= DaysBeforeMonth(y, m2)
  {
  }

  lemma MonthsFitTheYear(y: int, m: int)
    requires 1 <= m <= 12
    ensures DaysBeforeMonth(y, m) + DaysInMonth(y, m) <= 365 + (if IsLeap(y) then 1 else 0)
  {
  }

  predicate Before(a: Date, b: Date) {
    a.year < b.year
    || (a.year == b.year && a.month < b.month)
    || (a.year == b.year && a.month == b.month && a.day < b.day)
  }

  /** Day numbers follow calendar order. */
  lemma OrdinalMonotone(a: Date, b: Date)
    requires IsValid(a) && IsValid(b) && Before(a, b)
    ensures Ordinal(a) < Ordinal(b)
  {
    if a.year < b.year {
      MonthsFitTheYear(a.year, a.month);
      YearLength(a.year);
      DaysBeforeYearGrows(a.year + 1, b.year);
    } else if a.month < b.month {
      MonthsAreOrdered(a.year, a.month, b.month);
    }
  }

  /** Two valid dates are zero days apart exactly when they are the same date. */
  lemma DistanceZeroIffSame(a: Date, b: Date)
    requires IsValid(a) && IsValid(b)
    ensures Distance(a, b) == 0 <==> a == b
  {
    if a != b {
      if Before(a, b) { OrdinalMonotone(a, b); } else { OrdinalMonotone(b, a); }
    }
  }

  /** `d.isoformat()` / `d.strftime("%Y-%m-%d")`. */
  function FormatIso(d: Date): (s: string)
    requires IsValid(d)
    ensures |s| == 10
  {
    Pad4(d.year) + "-" + Pad2(d.month) + "-" + Pad2(d.day)
  }

  /** Ten characters shaped `\d{4}-\d{2}-\d{2}`. */
  predicate IsoShaped(s: string) {
    |s| == 10 && AllDigits(s[..4]) && s[4] == '-' && AllDigits(s[5..7]) && s[7] == '-'
    && AllDigits(s[8..])
  }

  /** `datetime.strptime(s, "%Y-%m-%d").date()` on a ten-character string,
      with ValueError as None. */
  function ParseIso(s: string): (r: Option<Date>)
    ensures r.Some? ==> IsValid(r.value) && IsoShaped(s)
  {
    if IsoShaped(s) then MakeDate(DigitsValue(s[..4]), DigitsValue(s[5..7]), DigitsValue(s[8..]))
    else None
  }

  /** Parsing gives back every rendered date. */
  lemma ParseFormat(d: Date)
    requires IsValid(d)
    ensures ParseIso(FormatIso(d)) == Some(d)
  {
    var s := FormatIso(d);
    assert s[..4] == Pad4(d.year);
    assert s[5..7] == Pad2(d.month);
    assert s[8..] == Pad2(d.day);
  }

  /** So rendering never maps two dates to one string. */
  lemma FormatInjective(a: Date, b: Date)
    requires IsValid(a) && IsValid(b) && FormatIso(a) == FormatIso(b)
    ensures a == b
  {
    ParseFormat(a);
    ParseFormat(b);
  }
}
