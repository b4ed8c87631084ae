/** Proleptic-Gregorian calendar arithmetic used by every detector: day ordinals,
    the start of a month and of a quarter, the day of a quarter, month indices
    and the daily calendar between two month starts. */
module Dates {

  /** A (year, month, day) triple, not necessarily a real date. */
  datatype Ymd = Ymd(year: int, month: int, day: int)

  predicate IsLeapYear(y: int) {
    y % 4 == 0 && (y % 100 != 0 || y % 400 == 0)
  }

  function DaysInYear(y: int): int {
    if IsLeapYear(y) then 366 else 365
  }

  function DaysInMonth(y: int, m: int): (n: int)
    requires 1 <= m <= 12
    ensures 28 <= n <= 31
    ensures n == 29 <==> m == 2 && IsLeapYear(y)
  {
    if m == 2 then (if IsLeapYear(y) then 29 else 28)
    else if m == 4 || m == 6 || m == 9 || m == 11 then 30
    else 31
  }

  predicate IsValid(d: Ymd) {
    1 <= d.year && 1 <= d.month <= 12 && 1 <= d.day <= DaysInMonth(d.year, d.month)
  }

  /** A calendar date; years start at 1 as in Python's datetime. */
  type Date = d: Ymd | IsValid(d) witness Ymd(1970, 1, 1)

  /** Days in the years 1 .. y-1. */
  function DaysBeforeYear(y: int): int
    requires 1 <= y
  {
    365 * (y - 1) + (y - 1) / 4 - (y - 1) / 100 + (y - 1) / 400
  }

  /** Days in the months 1 .. m-1 of year y. */
  function DaysBeforeMonth(y: int, m: int): int
    requires 1 <= m <= 12
  {
    var leap := if IsLeapYear(y) then 1 else 0;
    match m
    case 1 => 0
    case 2 => 31
    case 3 => 59 + leap
    case 4 => 90 + leap
    case 5 => 120 + leap
    case 6 => 151 + leap
    case 7 => 181 + leap
    case 8 => 212 + leap
    case 9 => 243 + leap
    case 10 => 273 + leap
    case 11 => 304 + leap
    case _ => 334 + leap
  }

  /** The day ordinal of a date: 0001-01-01 is day 1 (Python's date.toordinal()).
      Differences of ordinals are the day counts of pandas' Timedelta values. */
  function DayNumber(d: Date): int {
    DaysBeforeYear(d.year) + DaysBeforeMonth(d.year, d.month) + d.day
  }

  lemma DaysBeforeMonthStep(y: int, m: int)
    requires 1 <= m < 12
    ensures DaysBeforeMonth(y, m + 1) == DaysBeforeMonth(y, m) + DaysInMonth(y, m)
  {
  }

  lemma DaysBeforeMonthBound(y: int, m: int)
    requires 1 <= m <= 12
    ensures DaysBeforeMonth(y, m) + DaysInMonth(y, m) <= DaysInYear(y)
  {
  }

  lemma DaysBeforeYearStep(y: int)
    requires 1 <= y
    ensures DaysBeforeYear(y + 1) == DaysBeforeYear(y) + DaysInYear(y)
  {
    assert y / 4 == (y - 1) / 4 + (if y % 4 == 0 then 1 else 0);
    assert y / 100 == (y - 1) / 100 + (if y % 100 == 0 then 1 else 0);
    assert y / 400 == (y - 1) / 400 + (if y % 400 == 0 then 1 else 0);
  }

  /** Every day of a year lies before the first day of any later year. */
  lemma {:induction false} DaysBeforeYearGrows(y1: int, y2: int)
    requires 1 <= y1 < y2
    ensures DaysBeforeYear(y1) + DaysInYear(y1) <= DaysBeforeYear(y2)
    decreases y2 - y1
  {
    DaysBeforeYearStep(y1);
    if y1 + 1 < y2 {
      DaysBeforeYearGrows(y1 + 1, y2);
    }
  }

  /** Calendar order on triples: by year, then month, then day. */
  predicate Before(a: Ymd, b: Ymd) {
    a.year < b.year
    || (a.year == b.year && a.month < b.month)
    || (a.year == b.year && a.month == b.month && a.day < b.day)
  }

  /** The ordinal is strictly increasing in calendar order. */
  lemma DayNumberMonotone(a: Date, b: Date)
    requires Before(a, b)
    ensures DayNumber(a) < DayNumber(b)
  {
    if a.year < b.year {
      DaysBeforeMonthBound(a.year, a.month);
      DaysBeforeYearGrows(a.year, b.year);
    } else if a.month < b.month {
      DaysBeforeMonthsGrow(a.year, a.month, b.month);
    }
  }

  lemma {:induction false} DaysBeforeMonthsGrow(y: int, m1: int, m2: int)
    requires 1 <= m1 < m2 <= 12
    ensures DaysBeforeMonth(y, m1) + DaysInMonth(y, m1) <= DaysBeforeMonth(y, m2)
    decreases m2 - m1
  {
    DaysBeforeMonthStep(y, m1);
    if m1 + 1 < m2 {
      DaysBeforeMonthsGrow(y, m1 + 1, m2);
    }
  }

  /** The ordinal orders dates exactly as the calendar does, so it identifies a date. */
  lemma DayNumberOrder(a: Date, b: Date)
    ensures DayNumber(a) < DayNumber(b) <==> Before(a, b)
    ensures DayNumber(a) == DayNumber(b) <==> a == b
  {
    if Before(a, b) {
      DayNumberMonotone(a, b);
    } else if Before(b, a) {
      DayNumberMonotone(b, a);
    }
  }

  /** `x.replace(day=1)`: the first day of the date's month. */
  function MonthStart(d: Date): (r: Date)
    ensures r.year == d.year && r.month == d.month && r.day == 1
    ensures DayNumber(r) == DayNumber(d) - d.day + 1
  {
    Ymd(d.year, d.month, 1)
  }

  /** Months counted from January of year 0; consecutive months have consecutive indices. */
  function MonthIndex(d: Date): int {
    d.year * 12 + d.month - 1
  }

  /** The first day of the month with the given index. */
  function FirstOfMonth(i: int): (r: Date)
    requires 12 <= i
    ensures MonthIndex(r) == i && r.day == 1
  {
    Ymd(i / 12, i % 12 + 1, 1)
  }

  lemma FirstOfMonthIndex(d: Date)
    ensures MonthIndex(d) >= 12
    ensures FirstOfMonth(MonthIndex(d)) == MonthStart(d)
  {
  }

  /** `x.quarter`: 1 for January-March, ..., 4 for October-December. */
  function Quarter(d: Date): (q: int)
    ensures 1 <= q <= 4 && 3 * q - 2 <= d.month <= 3 * q
  {
    (d.month - 1) / 3 + 1
  }

  /** `x.replace(day=1, month={1: 1, 2: 4, 3: 7, 4: 10}[x.quarter])`. */
  function QuarterStart(d: Date): (r: Date)
    ensures r.year == d.year && r.day == 1
    ensures r.month == 3 * Quarter(d) - 2
    ensures r.month <= d.month < r.month + 3
  {
    var q := Quarter(d);
    var m := if q == 1 then 1 else if q == 2 then 4 else if q == 3 then 7 else 10;
    Ymd(d.year, m, 1)
  }

  /** Quarters counted from the first quarter of year 0. */
  function QuarterIndex(d: Date): int {
    MonthIndex(d) / 3
  }

  lemma QuarterStartIndex(d: Date)
    ensures 3 * QuarterIndex(d) >= 12
    ensures FirstOfMonth(3 * QuarterIndex(d)) == QuarterStart(d)
    ensures QuarterIndex(QuarterStart(d)) == QuarterIndex(d)
  {
    var q := (d.month - 1) / 3;
    assert MonthIndex(d) == 3 * (4 * d.year + q) + (d.month - 1) % 3;
    assert QuarterIndex(d) == 4 * d.year + q;
    assert MonthIndex(QuarterStart(d)) == 3 * (4 * d.year + q);
  }

  /** Day of the quarter: the number of days since the quarter's start, plus one. */
  function DayOfQuarter(d: Date): (n: int)
    ensures 1 <= n <= 92
    ensures n == DaysBeforeMonth(d.year, d.month) - DaysBeforeMonth(d.year, QuarterStart(d).month) + d.day
  {
    DayNumber(d) - DayNumber(QuarterStart(d)) + 1
  }

  /** Two dates of one quarter compare by their days of the quarter. */
  lemma DayOfQuarterOrder(a: Date, b: Date)
    requires QuarterIndex(a) == QuarterIndex(b)
    ensures DayOfQuarter(a) - DayOfQuarter(b) == DayNumber(a) - DayNumber(b)
  {
    QuarterStartIndex(a);
    QuarterStartIndex(b);
  }

  /** The day after a date. */
  function NextDay(d: Date): (r: Date)
    ensures DayNumber(r) == DayNumber(d) + 1
  {
    if d.day < DaysInMonth(d.year, d.month) then Ymd(d.year, d.month, d.day + 1)
    else if d.month < 12 then
      DaysBeforeMonthStep(d.year, d.month);
      Ymd(d.year, d.month + 1, 1)
    else
      DaysBeforeYearStep(d.year);
      Ymd(d.year + 1, 1, 1)
  }

  /** The days of the months lo .. hi, each in order. */
  function DaysOfMonths(lo: int, hi: int): (r: seq<Date>)
    requires 12 <= lo
    decreases hi - lo
  {
    if hi < lo then []
    else DaysOfMonth(FirstOfMonth(lo)) + DaysOfMonths(lo + 1, hi)
  }

  /** The days of a month, from the given day to its last day. */
  function DaysOfMonth(d: Date): (r: seq<Date>)
    decreases DaysInMonth(d.year, d.month) - d.day
  {
    if d.day == DaysInMonth(d.year, d.month) then [d]
    else [d] + DaysOfMonth(Ymd(d.year, d.month, d.day + 1))
  }

  /** `pd.date_range(start, end, freq='D')` for start = the first of month lo and
      end = the first of month hi + 1: every month lo .. hi in full, then one day. */
  function DailyRange(lo: int, hi: int): seq<Date>
    requires 12 <= lo <= hi + 1
  {
    DaysOfMonths(lo, hi) + [FirstOfMonth(hi + 1)]
  }

  lemma {:induction false} DaysOfMonthShape(d: Date)
    ensures |DaysOfMonth(d)| > 0 && DaysOfMonth(d)[0] == d
    ensures Last(DaysOfMonth(d)).day == DaysInMonth(d.year, d.month)
    ensures Last(DaysOfMonth(d)).year == d.year && Last(DaysOfMonth(d)).month == d.month
    ensures forall i :: 0 <= i < |DaysOfMonth(d)| - 1 ==>
      DaysOfMonth(d)[i + 1] == NextDay(DaysOfMonth(d)[i])
    decreases DaysInMonth(d.year, d.month) - d.day
  {
    if d.day < DaysInMonth(d.year, d.month) {
      var e: Date := Ymd(d.year, d.month, d.day + 1);
      DaysOfMonthShape(e);
      var r := DaysOfMonth(d);
      assert r == [d] + DaysOfMonth(e);
      forall i | 0 <= i < |r| - 1 ensures r[i + 1] == NextDay(r[i]) {
        if i > 0 {
          assert r[i] == DaysOfMonth(e)[i - 1];
        }
      }
    }
  }

  function Last<T>(s: seq<T>): T
    requires |s| > 0
  {
    s[|s| - 1]
  }

  /** Each day of the daily range follows the previous one: the range is the
      consecutive calendar from the first of month lo to the first of month hi + 1. */
  lemma {:induction false} DaysOfMonthsConsecutive(lo: int, hi: int, next: Date)
    requires 12 <= lo <= hi + 1
    requires next == FirstOfMonth(hi + 1)
    ensures var r := DaysOfMonths(lo, hi) + [next];
      r[0] == FirstOfMonth(lo) &&
      forall i :: 0 <= i < |r| - 1 ==> r[i + 1] == NextDay(r[i])
    decreases hi - lo
  {
    var r := DaysOfMonths(lo, hi) + [next];
    if lo <= hi {
      var first := DaysOfMonth(FirstOfMonth(lo));
      var rest := DaysOfMonths(lo + 1, hi) + [next];
      DaysOfMonthShape(FirstOfMonth(lo));
      DaysOfMonthsConsecutive(lo + 1, hi, next);
      assert r == first + rest;
      assert rest[0] == FirstOfMonth(lo + 1);
      assert NextDay(Last(first)) == FirstOfMonth(lo + 1);
      forall i | 0 <= i < |r| - 1 ensures r[i + 1] == NextDay(r[i]) {
        if i < |first| - 1 {
          assert r[i] == first[i] && r[i + 1] == first[i + 1];
        } else if i == |first| - 1 {
          assert r[i] == Last(first) && r[i + 1] == rest[0];
        } else {
          assert r[i] == rest[i - |first|] && r[i + 1] == rest[i + 1 - |first|];
        }
      }
    }
  }

  /** The daily range runs from the first of month lo, one day at a time, to the
      first of month hi + 1. */
  lemma DailyRangeConsecutive(lo: int, hi: int)
    requires 12 <= lo <= hi + 1
    ensures var r := DailyRange(lo, hi);
      |r| > 0 && r[0] == FirstOfMonth(lo) && Last(r) == FirstOfMonth(hi + 1) &&
      forall i :: 0 <= i < |r| - 1 ==> DayNumber(r[i + 1]) == DayNumber(r[i]) + 1
  {
    DaysOfMonthsConsecutive(lo, hi, FirstOfMonth(hi + 1));
  }
}
