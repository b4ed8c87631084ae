/** The vendor-by-period grids the monthly and quarterly rules build: the month
    range from the first invoice month to the month after the last, the quarter
    starts inside it, and the per-vendor facts merged onto each grid cell. */
module Grid {
  import opened Dates
  import opened Records
  import opened Seqs

  /** The earliest invoice month, `invoice['invoice_date'].min().replace(day=1)`. */
  function MinMonth(invoices: seq<Invoice>): int
    requires |invoices| > 0
  {
    var first := MonthIndex(invoices[0].date);
    if |invoices| == 1 then first
    else
      var rest := MinMonth(invoices[1..]);
      if first <= rest then first else rest
  }

  /** The latest invoice month; the grids end one month after it. */
  function MaxMonth(invoices: seq<Invoice>): int
    requires |invoices| > 0
  {
    var first := MonthIndex(invoices[0].date);
    if |invoices| == 1 then first
    else
      var rest := MaxMonth(invoices[1..]);
      if first >= rest then first else rest
  }

  /** MinMonth is the month of some invoice, and no invoice is earlier. */
  lemma {:induction false} MinMonthIsMinimum(invoices: seq<Invoice>)
    requires |invoices| > 0
    ensures exists x :: x in invoices && MonthIndex(x.date) == MinMonth(invoices)
    ensures forall x :: x in invoices ==> MinMonth(invoices) <= MonthIndex(x.date)
  {
    assert invoices[0] in invoices;
    if |invoices| > 1 {
      MinMonthIsMinimum(invoices[1..]);
      assert forall x :: x in invoices[1..] ==> x in invoices;
      assert forall x :: x in invoices ==> x == invoices[0] || x in invoices[1..];
    }
  }

  /** MaxMonth is the month of some invoice, and no invoice is later. */
  lemma {:induction false} MaxMonthIsMaximum(invoices: seq<Invoice>)
    requires |invoices| > 0
    ensures exists x :: x in invoices && MonthIndex(x.date) == MaxMonth(invoices)
    ensures forall x :: x in invoices ==> MonthIndex(x.date) <= MaxMonth(invoices)
  {
    assert invoices[0] in invoices;
    if |invoices| > 1 {
      MaxMonthIsMaximum(invoices[1..]);
      assert forall x :: x in invoices[1..] ==> x in invoices;
      assert forall x :: x in invoices ==> x == invoices[0] || x in invoices[1..];
    }
  }

  lemma MonthBounds(invoices: seq<Invoice>)
    requires |invoices| > 0
    ensures 12 <= MinMonth(invoices) <= MaxMonth(invoices)
  {
    MinMonthIsMinimum(invoices);
    MaxMonthIsMaximum(invoices);
    var m := MinMonth(invoices);
    assert exists x :: x in invoices && MonthIndex(x.date) == m;
    var x :| x in invoices && MonthIndex(x.date) == m;
    FirstOfMonthIndex(x.date);
  }

  /** The period a rule groups invoices by. */
  function PeriodIndex(c: Cadence, d: Date): int {
    match c
    case Monthly => MonthIndex(d)
    case Quarterly => QuarterIndex(d)
  }

  /** The index of the first month of period p. */
  function StartMonth(c: Cadence, p: int): int {
    match c
    case Monthly => p
    case Quarterly => 3 * p
  }

  /** The first day of period p. */
  function PeriodStart(c: Cadence, p: int): Date
    requires 12 <= StartMonth(c, p)
  {
    FirstOfMonth(StartMonth(c, p))
  }

  /** The day of the period: day of the month, or day of the quarter. */
  function DayOfPeriod(c: Cadence, d: Date): (n: int)
    ensures 1 <= n <= 92
    ensures n == DayNumber(d) - DayNumber(PeriodStart(c, PeriodIndex(c, d))) + 1
  {
    match c
    case Monthly =>
      FirstOfMonthIndex(d);
      d.day
    case Quarterly =>
      QuarterStartIndex(d);
      DayOfQuarter(d)
  }

  /** Two dates of one period compare by their days of the period. */
  lemma DayOfPeriodOrder(c: Cadence, a: Date, b: Date)
    requires PeriodIndex(c, a) == PeriodIndex(c, b)
    ensures DayOfPeriod(c, a) - DayOfPeriod(c, b) == DayNumber(a) - DayNumber(b)
  {
  }

  /** The first and last grid period. The month grid is `date_range(min, max + 1
      month, freq='MS')`; the quarter grid, `freq='QS'` over the same bounds,
      starts at the first quarter start on or after the first invoice month. */
  function GridLow(c: Cadence, invoices: seq<Invoice>): int
    requires |invoices| > 0
  {
    match c
    case Monthly => MinMonth(invoices)
    case Quarterly => (MinMonth(invoices) + 2) / 3
  }

  function GridHigh(c: Cadence, invoices: seq<Invoice>): int
    requires |invoices| > 0
  {
    match c
    case Monthly => MaxMonth(invoices) + 1
    case Quarterly => (MaxMonth(invoices) + 1) / 3
  }

  /** The number of periods in each vendor's grid. */
  function GridSize(c: Cadence, invoices: seq<Invoice>): nat
    requires |invoices| > 0
  {
    if GridLow(c, invoices) <= GridHigh(c, invoices) then GridHigh(c, invoices) - GridLow(c, invoices) + 1 else 0
  }

  /** A grid period starts inside [first of the first invoice month, first of the
      month after the last]: the grid holds exactly those periods. */
  lemma GridPeriodsStartInRange(c: Cadence, invoices: seq<Invoice>, p: int)
    requires |invoices| > 0
    ensures GridLow(c, invoices) <= p <= GridHigh(c, invoices)
      <==> MinMonth(invoices) <= StartMonth(c, p) <= MaxMonth(invoices) + 1
  {
    MonthBounds(invoices);
  }

  /** The GridSize periods from GridLow run up to GridHigh, and they are exactly
      the periods whose first month lies between the first invoice month and the
      month after the last. */
  lemma GridSpan(c: Cadence, invoices: seq<Invoice>, p: int)
    requires |invoices| > 0
    ensures GridLow(c, invoices) + GridSize(c, invoices) == GridHigh(c, invoices) + 1
    ensures GridLow(c, invoices) <= p < GridLow(c, invoices) + GridSize(c, invoices)
      <==> MinMonth(invoices) <= StartMonth(c, p) <= MaxMonth(invoices) + 1
  {
    MonthBounds(invoices);
    GridPeriodsStartInRange(c, invoices, p);
  }

  /** Every day of the daily range lies in a month of the month grid. */
  lemma {:induction false} DaysOfMonthsInRange(lo: int, hi: int, d: Date)
    requires 12 <= lo && d in DaysOfMonths(lo, hi)
    ensures lo <= MonthIndex(d) <= hi
    decreases hi - lo
  {
    if lo <= hi {
      var start := FirstOfMonth(lo);
      var first := DaysOfMonth(start);
      var rest := DaysOfMonths(lo + 1, hi);
      assert DaysOfMonths(lo, hi) == first + rest;
      if d in first {
        DaysOfMonthSameMonth(start, d);
        assert MonthIndex(d) == MonthIndex(start);
      } else {
        assert d in rest;
        DaysOfMonthsInRange(lo + 1, hi, d);
      }
    }
  }

  lemma {:induction false} DaysOfMonthSameMonth(start: Date, d: Date)
    requires d in DaysOfMonth(start)
    ensures d.year == start.year && d.month == start.month
    decreases DaysInMonth(start.year, start.month) - start.day
  {
    if start.day < DaysInMonth(start.year, start.month) && d != start {
      DaysOfMonthSameMonth(Ymd(start.year, start.month, start.day + 1), d);
    }
  }

  /** The daily range of the grid, `date_range(min, max + 1 month, freq='D')`. */
  function Days(invoices: seq<Invoice>): seq<Date>
    requires |invoices| > 0
  {
    MonthBounds(invoices);
    DailyRange(MinMonth(invoices), MaxMonth(invoices))
  }

  /** The daily calendar lists no day twice. */
  lemma DaysDistinct(invoices: seq<Invoice>)
    requires |invoices| > 0
    ensures Distinct(Days(invoices))
  {
    MonthBounds(invoices);
    DailyRangeDistinct(MinMonth(invoices), MaxMonth(invoices));
  }

  lemma DailyRangeDistinct(lo: int, hi: int)
    requires 12 <= lo <= hi + 1
    ensures Distinct(DailyRange(lo, hi))
  {
    var r := DailyRange(lo, hi);
    DailyRangeConsecutive(lo, hi);
    forall i, j | 0 <= i < j < |r| ensures r[i] != r[j] {
      ConsecutiveGap(r, i, j);
    }
  }

  /** In a run of consecutive days, the days lie as far apart as their positions. */
  lemma {:induction false} ConsecutiveGap(r: seq<Date>, i: int, j: int)
    requires forall k :: 0 <= k < |r| - 1 ==> DayNumber(r[k + 1]) == DayNumber(r[k]) + 1
    requires 0 <= i <= j < |r|
    ensures DayNumber(r[j]) == DayNumber(r[i]) + (j - i)
    decreases j - i
  {
    if i < j {
      ConsecutiveGap(r, i, j - 1);
    }
  }

  lemma DaysInGrid(invoices: seq<Invoice>, d: Date)
    requires |invoices| > 0 && d in Days(invoices)
    ensures MinMonth(invoices) <= MonthIndex(d) <= MaxMonth(invoices) + 1
  {
    MonthBounds(invoices);
    DailyRangeInRange(MinMonth(invoices), MaxMonth(invoices), d);
  }

  /** Every day of the daily range of months lo .. hi lies in months lo .. hi + 1. */
  lemma DailyRangeInRange(lo: int, hi: int, d: Date)
    requires 12 <= lo <= hi + 1 && d in DailyRange(lo, hi)
    ensures lo <= MonthIndex(d) <= hi + 1
  {
    if d in DaysOfMonths(lo, hi) {
      DaysOfMonthsInRange(lo, hi, d);
    }
  }

  /** The earliest date among a vendor's invoices in a period: `groupby([vendor,
      period])['invoice_date'].agg('min')`; None when the vendor has none there. */
  function FirstInvoice(c: Cadence, invoices: seq<Invoice>, v: VendorId, p: int): Option<Date> {
    if invoices == [] then None
    else
      var x := invoices[0];
      var rest := FirstInvoice(c, invoices[1..], v, p);
      if x.vendor == v && PeriodIndex(c, x.date) == p then
        match rest
        case None => Some(x.date)
        case Some(e) => if DayNumber(e) < DayNumber(x.date) then rest else Some(x.date)
      else rest
  }

  /** FirstInvoice is None exactly when the vendor has no invoice in the period,
      and otherwise the date of one of them that no other precedes. */
  lemma {:induction false} FirstInvoiceIsEarliest(c: Cadence, invoices: seq<Invoice>, v: VendorId, p: int)
    ensures var r := FirstInvoice(c, invoices, v, p);
      && (r.None? <==> forall x :: x in invoices && x.vendor == v ==> PeriodIndex(c, x.date) != p)
      && (r.Some? ==> exists x :: x in invoices && x.vendor == v && PeriodIndex(c, x.date) == p && x.date == r.value)
      && (r.Some? ==> forall x :: x in invoices && x.vendor == v && PeriodIndex(c, x.date) == p ==>
            DayNumber(r.value) <= DayNumber(x.date))
  {
    if invoices != [] {
      FirstInvoiceIsEarliest(c, invoices[1..], v, p);
      assert invoices[0] in invoices;
      assert forall y :: y in invoices[1..] ==> y in invoices;
      assert forall y :: y in invoices ==> y == invoices[0] || y in invoices[1..];
    }
  }

  /** The days of the period of each of a vendor's invoices, in input order. */
  function InvoiceDays(c: Cadence, invoices: seq<Invoice>, v: VendorId): seq<int> {
    if invoices == [] then []
    else (if invoices[0].vendor == v then [DayOfPeriod(c, invoices[0].date)] else []) + InvoiceDays(c, invoices[1..], v)
  }

  /** InvoiceDays holds the day of the period of every invoice of the vendor, and nothing else. */
  lemma {:induction false} InvoiceDaysMember(c: Cadence, invoices: seq<Invoice>, v: VendorId)
    ensures forall n :: n in InvoiceDays(c, invoices, v) <==>
      exists x :: x in invoices && x.vendor == v && DayOfPeriod(c, x.date) == n
  {
    if invoices != [] {
      InvoiceDaysMember(c, invoices[1..], v);
      assert invoices[0] in invoices;
      assert forall y :: y in invoices[1..] ==> y in invoices;
      assert forall y :: y in invoices ==> y == invoices[0] || y in invoices[1..];
    }
  }

  /** The value of largest count among xs[..k], the earliest of them on a tie. */
  function MostFrequentIn(xs: seq<int>, k: nat): (m: int)
    requires 0 < k <= |xs|
    ensures m in xs[..k]
    ensures forall i :: 0 <= i < k ==> multiset(xs)[xs[i]] <= multiset(xs)[m]
  {
    if k == 1 then xs[0]
    else
      var best := MostFrequentIn(xs, k - 1);
      assert xs[..k] == xs[..k - 1] + [xs[k - 1]];
      if multiset(xs)[xs[k - 1]] > multiset(xs)[best] then xs[k - 1] else best
  }

  /** `x.value_counts().index[0]`: a most frequent value. */
  function Mode(xs: seq<int>): (m: int)
    requires |xs| > 0
    ensures m in xs
    ensures forall a :: a in xs ==> multiset(xs)[a] <= multiset(xs)[m]
  {
    assert xs[..|xs|] == xs;
    MostFrequentIn(xs, |xs|)
  }

  /** `most_frequent_day_dict[vendor]`: a most frequent day of the period among
      all of the vendor's invoice rows (0 for a vendor without invoices). */
  function MostFrequentDay(c: Cadence, invoices: seq<Invoice>, v: VendorId): int {
    var days := InvoiceDays(c, invoices, v);
    if |days| > 0 then Mode(days) else 0
  }

  /** The most frequent day of a vendor with invoices is the day of the period of
      one of them, and no day occurs among them more often. */
  lemma MostFrequentDayIsMode(c: Cadence, invoices: seq<Invoice>, v: VendorId)
    requires exists x :: x in invoices && x.vendor == v
    ensures exists x :: x in invoices && x.vendor == v && DayOfPeriod(c, x.date) == MostFrequentDay(c, invoices, v)
    ensures var days := InvoiceDays(c, invoices, v);
      forall n :: n in days ==> multiset(days)[n] <= multiset(days)[MostFrequentDay(c, invoices, v)]
  {
    InvoiceDaysMember(c, invoices, v);
    var x :| x in invoices && x.vendor == v;
    assert DayOfPeriod(c, x.date) in InvoiceDays(c, invoices, v);
  }
}
