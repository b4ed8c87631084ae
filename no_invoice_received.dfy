/** `no_invoice_received_monthly` and `no_invoice_received_quaterly`: a
    vendor-by-period frame of invoice flags with a rolling "every one of the
    last w periods had an invoice" flag shifted down one row, merged onto a
    vendor-by-day calendar, and the row rule `alarm_no_invoice_monthly` /
    `alarm_no_invoice_quarterly` applied to every day. The two detectors differ
    only in the period (month or quarter) and the window (3 or 2); both are
    modelled by one definition taking the cadence. */
module NoInvoiceReceived {
  import opened Dates
  import opened Records
  import opened Seqs
  import opened VendorOrder
  import opened Grid

  /** How many periods in a row must have had an invoice: 3 months or 2 quarters. */
  function Window(c: Cadence): nat {
    match c
    case Monthly => 3
    case Quarterly => 2
  }

  /** `invoice_bool`: whether vendor v has an invoice in period p. */
  predicate Invoiced(c: Cadence, invoices: seq<Invoice>, v: VendorId, p: int) {
    FirstInvoice(c, invoices, v, p).Some?
  }

  /** `rolling(window=w).mean() == 1` at position j of a vendor's 0/1 column: the
      window is full (the first w - 1 means are NaN) and holds only ones. */
  predicate RollingFull(flags: seq<bool>, j: int, w: nat)
    requires 0 <= j < |flags|
  {
    j + 1 >= w && forall t :: j + 1 - w <= t <= j ==> flags[t]
  }

  /** A vendor's `invoice_bool` column over its n grid periods from period low. */
  function Flags(c: Cadence, invoices: seq<Invoice>, v: VendorId, low: int, n: nat): (r: seq<bool>)
    ensures |r| == n && forall j :: 0 <= j < n ==> r[j] == Invoiced(c, invoices, v, low + j)
  {
    seq(n, j requires 0 <= j < n => Invoiced(c, invoices, v, low + j))
  }

  /** A row of the per-period frame: vendor, period, the earliest invoice date
      of the period (NaT when none, so `invoice_bool` is its presence) and the
      rolling flag before the shift. */
  datatype Cell = Cell(vendor: VendorId, period: int, first: Option<Date>, rolling: bool)

  function CellAt(c: Cadence, invoices: seq<Invoice>, v: VendorId, low: int, n: nat, j: int): Cell
    requires 0 <= j < n
  {
    Cell(v, low + j, FirstInvoice(c, invoices, v, low + j), RollingFull(Flags(c, invoices, v, low, n), j, Window(c)))
  }

  /** One vendor's rows, period by period. */
  function VendorCells(c: Cadence, invoices: seq<Invoice>, v: VendorId, low: int, n: nat): (r: seq<Cell>)
    ensures |r| == n && forall j :: 0 <= j < n ==> r[j] == CellAt(c, invoices, v, low, n, j)
  {
    seq(n, j requires 0 <= j < n => CellAt(c, invoices, v, low, n, j))
  }

  /** The frame after `groupby(['canonical_vendor_id', period])`: the vendors in
      the order given (sorted, as groupby sorts them), each with its n periods. */
  function Frame(c: Cadence, invoices: seq<Invoice>, vs: seq<VendorId>, low: int, n: nat): (r: seq<Cell>)
    ensures |r| == |vs| * n
  {
    if vs == [] then []
    else
      var rest := Frame(c, invoices, vs[1..], low, n);
      assert |vs| * n == n + (|vs| - 1) * n;
      VendorCells(c, invoices, vs[0], low, n) + rest
  }

  /** Row a * n + j of the frame is vendor a's j-th period. */
  lemma {:induction false} FrameAt(c: Cadence, invoices: seq<Invoice>, vs: seq<VendorId>, low: int, n: nat, a: int, j: int)
    requires 0 <= a < |vs| && 0 <= j < n
    ensures 0 <= a * n + j < |Frame(c, invoices, vs, low, n)|
    ensures Frame(c, invoices, vs, low, n)[a * n + j] == CellAt(c, invoices, vs[a], low, n, j)
  {
    IndexInGrid(a, |vs|, n, j);
    if a > 0 {
      FrameAt(c, invoices, vs[1..], low, n, a - 1, j);
      assert (a - 1) * n + j == a * n + j - n;
    }
  }

  /** Row a * n + j lies inside a frame of m vendors of n periods each. */
  lemma IndexInGrid(a: int, m: int, n: int, j: int)
    requires 0 <= a < m && 0 <= j < n
    ensures 0 <= a * n + j < m * n
  {
    assert a * n <= (m - 1) * n;
  }

  /** `consecutive = rolling.shift(1)` over the whole frame: each row reads the
      previous row's flag and the first row reads NaN, which is not 1. */
  function Shifted(frame: seq<Cell>): (r: seq<bool>)
    ensures |r| == |frame| && forall k :: 0 <= k < |frame| ==> r[k] == (k > 0 && frame[k - 1].rolling)
  {
    seq(|frame|, k requires 0 <= k < |frame| => k > 0 && frame[k - 1].rolling)
  }

  /** The shift is not grouped by vendor: a vendor's first period reads the last
      period of the vendor before it in the frame, and the first vendor's first
      period reads nothing. Every later period reads the vendor's own previous period. */
  lemma ShiftAcrossVendors(c: Cadence, invoices: seq<Invoice>, vs: seq<VendorId>, low: int, n: nat, a: int, j: int)
    requires 0 <= a < |vs| && 0 <= j < n
    ensures a * n + j < |Frame(c, invoices, vs, low, n)|
    ensures Shifted(Frame(c, invoices, vs, low, n))[a * n + j]
      == if j > 0 then RollingFull(Flags(c, invoices, vs[a], low, n), j - 1, Window(c))
         else a > 0 && RollingFull(Flags(c, invoices, vs[a - 1], low, n), n - 1, Window(c))
  {
    FrameAt(c, invoices, vs, low, n, a, j);
    if j > 0 {
      FrameAt(c, invoices, vs, low, n, a, j - 1);
    } else if a > 0 {
      FrameAt(c, invoices, vs, low, n, a - 1, n - 1);
      assert (a - 1) * n + (n - 1) == a * n + j - 1;
    }
  }

  /** A rolling flag of the vendor's column, in terms of periods: the w periods
      ending with period low + j are on the grid and all had an invoice. */
  lemma RollingFullMeans(c: Cadence, invoices: seq<Invoice>, v: VendorId, low: int, n: nat, j: int)
    requires 0 <= j < n
    ensures RollingFull(Flags(c, invoices, v, low, n), j, Window(c))
      <==> low + j + 1 - Window(c) >= low && PriorPeriodsInvoiced(c, invoices, v, low + j + 1)
  {
    var flags := Flags(c, invoices, v, low, n);
    var w := Window(c);
    if RollingFull(flags, j, w) {
      forall q | low + j + 1 - w <= q < low + j + 1 ensures Invoiced(c, invoices, v, q) {
        assert flags[q - low];
      }
    }
    if low + j + 1 - w >= low && PriorPeriodsInvoiced(c, invoices, v, low + j + 1) {
      forall t | j + 1 - w <= t <= j ensures flags[t] {
        assert Invoiced(c, invoices, v, low + t);
      }
    }
  }

  /** Each of the w periods before period p had an invoice from vendor v. */
  ghost predicate PriorPeriodsInvoiced(c: Cadence, invoices: seq<Invoice>, v: VendorId, p: int) {
    forall q :: p - Window(c) <= q < p ==> Invoiced(c, invoices, v, q)
  }

  /** The vendors of the frame, in the order groupby gives them. */
  function FrameVendors(invoices: seq<Invoice>): seq<VendorId> {
    SortedDistinct(Vendors(invoices))
  }

  /** The vendor just before v in sorted order, if any: the one whose last grid
      period the shifted flag carries into v's first grid period. */
  function PreviousVendor(invoices: seq<Invoice>, v: VendorId): Option<VendorId> {
    var vs := FrameVendors(invoices);
    if v in vs && FirstIndex(vs, v) > 0 then Some(vs[FirstIndex(vs, v) - 1]) else None
  }

  /** The flag the rule reads for vendor v in grid period p: whether the w
      periods before p, all on the grid, had invoices from v; in v's first grid
      period, the same flag for the period after the grid of the previous vendor
      (none for the first vendor). */
  ghost predicate FlagRead(c: Cadence, invoices: seq<Invoice>, v: VendorId, p: int)
    requires |invoices| > 0
  {
    var low, high := GridLow(c, invoices), GridHigh(c, invoices);
    if p > low then p - Window(c) >= low && PriorPeriodsInvoiced(c, invoices, v, p)
    else match PreviousVendor(invoices, v)
      case None => false
      case Some(u) => high + 1 - Window(c) >= low && PriorPeriodsInvoiced(c, invoices, u, high + 1)
  }

  /** A row of the daily frame (`merge(..., how='right')` onto the vendor-by-day
      calendar): the cadence, vendor, day, the vendor's most frequent day, the
      frame row of the day's period (None, all NaN, when that period is not on the
      grid) and its shifted flag. */
  datatype DailyRow = DailyRow(
    cadence: Cadence,
    vendor: VendorId,
    day: Date,
    mostFrequentDay: int,
    cell: Option<Cell>,
    consecutive: bool)

  /** The daily row of vendor v on day d. */
  function DailyRowOf(c: Cadence, invoices: seq<Invoice>, v: VendorId, d: Date): DailyRow
    requires |invoices| > 0
  {
    DailyRowIn(c, invoices, FrameVendors(invoices), GridLow(c, invoices), GridSize(c, invoices), v, d)
  }

  /** The daily row of vendor v on day d, for the frame of vendors vs over the n
      periods from low: the frame row of v's period of d, when that period is on
      the grid. */
  function DailyRowIn(c: Cadence, invoices: seq<Invoice>, vs: seq<VendorId>, low: int, n: nat, v: VendorId, d: Date): (r: DailyRow)
    ensures r.cadence == c && r.vendor == v && r.day == d
  {
    var p := PeriodIndex(c, d);
    var mfd := MostFrequentDay(c, invoices, v);
    if v in vs && low <= p < low + n then
      var a := FirstIndex(vs, v);
      IndexInGrid(a, |vs|, n, p - low);
      var frame := Frame(c, invoices, vs, low, n);
      DailyRow(c, v, d, mfd, Some(frame[a * n + (p - low)]), Shifted(frame)[a * n + (p - low)])
    else DailyRow(c, v, d, mfd, None, false)
  }

  /** The daily frame: every vendor in order of first appearance, each with every
      day from the first of the first invoice month to the first of the month
      after the last. */
  function DailyRows(c: Cadence, invoices: seq<Invoice>): (r: seq<DailyRow>)
    requires |invoices| > 0
    ensures var pairs := Pairs(Unique(Vendors(invoices)), Days(invoices));
      |r| == |pairs| && forall i :: 0 <= i < |pairs| ==> r[i] == DailyRowOf(c, invoices, pairs[i].0, pairs[i].1)
  {
    var pairs := Pairs(Unique(Vendors(invoices)), Days(invoices));
    seq(|pairs|, i requires 0 <= i < |pairs| => DailyRowOf(c, invoices, pairs[i].0, pairs[i].1))
  }

  /** `invoice_date.month == date.month and invoice_date.year == date.year`, or
      the same with quarters. */
  predicate SamePeriod(c: Cadence, a: Date, b: Date) {
    match c
    case Monthly => a.month == b.month && a.year == b.year
    case Quarterly => Quarter(a) == Quarter(b) && a.year == b.year
  }

  /** The glean text and tags of the rule for vendor v on day d. */
  function NoticeGlean(c: Cadence, v: VendorId, mfd: int, d: Date): (g: Glean)
    ensures g.kind.Code() == 4 && g.location.Code() == 2 && g.invoiceId == None
    ensures g.vendor == v && g.date == d
  {
    Glean(d, NotReceived(v, mfd, c, d), NoInvoiceReceived, AtVendor, None, v)
  }

  /** `alarm_no_invoice_monthly` / `alarm_no_invoice_quarterly`. The day of the
      period of the earliest invoice (condition 6) is measured from the start of
      the row's period, which is the invoice's own period. A row off the grid
      holds NaN everywhere, so neither condition 1 nor condition 4 holds. */
  function AlarmRow(row: DailyRow): (r: Option<Glean>)
    ensures row.cell.None? ==> r.None?
    ensures r.Some? ==> r.value == NoticeGlean(row.cadence, row.vendor, row.mostFrequentDay, row.day)
  {
    match row.cell
    case None => None
    case Some(cell) =>
      var c, d := row.cadence, row.day;
      var condition1 := cell.first.None?;
      var condition2 := row.consecutive;
      var condition3 := DayOfPeriod(c, d) > row.mostFrequentDay;
      var condition4 := cell.first.Some?;
      var condition5 := cell.first.Some? && SamePeriod(c, cell.first.value, d);
      var condition6 := cell.first.Some? && DayOfPeriod(c, cell.first.value) > DayOfPeriod(c, d);
      if (condition1 && condition2 && condition3) || (condition4 && condition5 && condition6 && condition3 && condition2) then
        Some(NoticeGlean(c, row.vendor, row.mostFrequentDay, d))
      else None
  }

  /** `no_invoice_received_monthly(invoice)` (c = Monthly) and
      `no_invoice_received_quaterly(invoice)` (c = Quarterly): the gleans in the
      order of the daily frame. (`main.py` raises on an empty invoice table.) */
  function NoInvoiceGleans(c: Cadence, invoices: seq<Invoice>): (r: seq<Glean>)
    requires |invoices| > 0
    ensures |r| <= |Unique(Vendors(invoices))| * |Days(invoices)|
  {
    FilterMap(DailyRows(c, invoices), AlarmRow)
  }

  /** The quarter index counts the quarters of the year after those of earlier years. */
  lemma QuarterIndexOf(d: Date)
    ensures QuarterIndex(d) == 4 * d.year + Quarter(d) - 1
  {
    var m := d.month - 1;
    assert MonthIndex(d) == 3 * (4 * d.year + m / 3) + m % 3;
  }

  /** Comparing month and year (or quarter and year) is comparing period indices. */
  lemma SamePeriodIff(c: Cadence, a: Date, b: Date)
    ensures SamePeriod(c, a, b) <==> PeriodIndex(c, a) == PeriodIndex(c, b)
  {
    if c == Quarterly {
      QuarterIndexOf(a);
      QuarterIndexOf(b);
    }
  }

  /** Vendor v has no invoice in the period of day d dated on or before d. */
  ghost predicate NoInvoiceYet(c: Cadence, invoices: seq<Invoice>, v: VendorId, d: Date) {
    forall x :: x in invoices && x.vendor == v && PeriodIndex(c, x.date) == PeriodIndex(c, d) ==>
      DayNumber(x.date) > DayNumber(d)
  }

  /** The rule, stated on the invoices: on day d, in a grid period, vendor v is
      reported when the flag the rule reads is set, d is later in its period than
      the vendor's most frequent day, and no invoice of v in that period is dated
      on or before d. */
  ghost predicate Alerts(c: Cadence, invoices: seq<Invoice>, v: VendorId, d: Date)
    requires |invoices| > 0
  {
    var p := PeriodIndex(c, d);
    && GridLow(c, invoices) <= p <= GridHigh(c, invoices)
    && FlagRead(c, invoices, v, p)
    && DayOfPeriod(c, d) > MostFrequentDay(c, invoices, v)
    && NoInvoiceYet(c, invoices, v, d)
  }

  /** Conditions 1, 4, 5 and 6 together: the period's earliest invoice is missing,
      or it lies in d's period after d, exactly when no invoice of the period is
      dated on or before d. */
  lemma EarliestAfter(c: Cadence, invoices: seq<Invoice>, v: VendorId, d: Date)
    ensures var e := FirstInvoice(c, invoices, v, PeriodIndex(c, d));
      (e.None? || (SamePeriod(c, e.value, d) && DayOfPeriod(c, e.value) > DayOfPeriod(c, d)))
      <==> NoInvoiceYet(c, invoices, v, d)
  {
    var p := PeriodIndex(c, d);
    var e := FirstInvoice(c, invoices, v, p);
    FirstInvoiceIsEarliest(c, invoices, v, p);
    if e.Some? {
      var y :| y in invoices && y.vendor == v && PeriodIndex(c, y.date) == p && y.date == e.value;
      SamePeriodIff(c, e.value, d);
      DayOfPeriodOrder(c, e.value, d);
    }
  }

  /** The flag the rule reads, for the frame of vendors vs over the n periods
      from low. */
  ghost predicate FlagIn(c: Cadence, invoices: seq<Invoice>, vs: seq<VendorId>, low: int, n: nat, v: VendorId, p: int)
    requires v in vs
  {
    var a := FirstIndex(vs, v);
    if p > low then p - Window(c) >= low && PriorPeriodsInvoiced(c, invoices, v, p)
    else a > 0 && low + n - Window(c) >= low && PriorPeriodsInvoiced(c, invoices, vs[a - 1], low + n)
  }

  /** Vendor v's row for a day d of a grid period holds the earliest invoice of
      the period. */
  lemma DailyRowCell(c: Cadence, invoices: seq<Invoice>, vs: seq<VendorId>, low: int, n: nat, v: VendorId, d: Date)
    requires v in vs && low <= PeriodIndex(c, d) < low + n
    ensures var row := DailyRowIn(c, invoices, vs, low, n, v, d);
      row.cell == Some(CellAt(c, invoices, v, low, n, PeriodIndex(c, d) - low))
  {
    var a, j := FirstIndex(vs, v), PeriodIndex(c, d) - low;
    DailyRowCellAt(c, invoices, vs, low, n, v, d, a, j);
    FrameAt(c, invoices, vs, low, n, a, j);
  }

  /** The shifted flag of vendor v's row for a day d of a grid period is the flag
      the rule reads. */
  lemma DailyRowFlag(c: Cadence, invoices: seq<Invoice>, vs: seq<VendorId>, low: int, n: nat, v: VendorId, d: Date)
    requires v in vs && low <= PeriodIndex(c, d) < low + n
    ensures DailyRowIn(c, invoices, vs, low, n, v, d).consecutive == FlagIn(c, invoices, vs, low, n, v, PeriodIndex(c, d))
  {
    var a, j := FirstIndex(vs, v), PeriodIndex(c, d) - low;
    ShiftAcrossVendors(c, invoices, vs, low, n, a, j);
    DailyRowShifted(c, invoices, vs, low, n, v, d, a, j);
    if j > 0 {
      OwnFlag(c, invoices, vs, low, n, a, j);
    } else if a > 0 {
      CarriedFlag(c, invoices, vs, low, n, a);
    }
  }

  /** Vendor v's row for a day d of a grid period carries the cell at that
      vendor's and period's place in the frame. */
  lemma DailyRowCellAt(c: Cadence, invoices: seq<Invoice>, vs: seq<VendorId>, low: int, n: nat, v: VendorId, d: Date, a: int, j: int)
    requires v in vs && a == FirstIndex(vs, v) && j == PeriodIndex(c, d) - low && 0 <= j < n
    ensures 0 <= a * n + j < |Frame(c, invoices, vs, low, n)|
    ensures DailyRowIn(c, invoices, vs, low, n, v, d).cell == Some(Frame(c, invoices, vs, low, n)[a * n + j])
  {
    IndexInGrid(a, |vs|, n, j);
  }

  /** Vendor v's row for a day d of a grid period carries the shifted flag at
      that vendor's and period's place in the frame. */
  lemma DailyRowShifted(c: Cadence, invoices: seq<Invoice>, vs: seq<VendorId>, low: int, n: nat, v: VendorId, d: Date, a: int, j: int)
    requires v in vs && a == FirstIndex(vs, v) && j == PeriodIndex(c, d) - low && 0 <= j < n
    ensures 0 <= a * n + j < |Frame(c, invoices, vs, low, n)|
    ensures DailyRowIn(c, invoices, vs, low, n, v, d).consecutive == Shifted(Frame(c, invoices, vs, low, n))[a * n + j]
  {
    IndexInGrid(a, |vs|, n, j);
  }

  /** After a vendor's first grid period, the shifted flag is the vendor's own. */
  lemma OwnFlag(c: Cadence, invoices: seq<Invoice>, vs: seq<VendorId>, low: int, n: nat, a: int, j: int)
    requires 0 <= a < |vs| && 0 < j < n
    ensures RollingFull(Flags(c, invoices, vs[a], low, n), j - 1, Window(c))
      == (low + j - Window(c) >= low && PriorPeriodsInvoiced(c, invoices, vs[a], low + j))
  {
    RollingFullMeans(c, invoices, vs[a], low, n, j - 1);
  }

  /** In a vendor's first grid period, the shifted flag is the previous vendor's
      flag for the period after the grid. */
  lemma CarriedFlag(c: Cadence, invoices: seq<Invoice>, vs: seq<VendorId>, low: int, n: nat, a: int)
    requires 0 < a < |vs| && 0 < n
    ensures RollingFull(Flags(c, invoices, vs[a - 1], low, n), n - 1, Window(c))
      == (low + n - Window(c) >= low && PriorPeriodsInvoiced(c, invoices, vs[a - 1], low + n))
  {
    RollingFullMeans(c, invoices, vs[a - 1], low, n, n - 1);
  }

  /** On the grid of the invoices, that flag is FlagRead. */
  lemma FlagReadOnGrid(c: Cadence, invoices: seq<Invoice>, v: VendorId, p: int)
    requires |invoices| > 0 && v in FrameVendors(invoices) && GridSize(c, invoices) > 0
    ensures FlagRead(c, invoices, v, p)
      == FlagIn(c, invoices, FrameVendors(invoices), GridLow(c, invoices), GridSize(c, invoices), v, p)
  {
    assert GridLow(c, invoices) + GridSize(c, invoices) == GridHigh(c, invoices) + 1;
  }

  /** The row rule, with the conditions grouped: the shifted flag, the day past
      the most frequent day, and no earlier invoice in the period. */
  lemma AlarmRowFires(row: DailyRow)
    requires row.cell.Some?
    ensures var c, d, first := row.cadence, row.day, row.cell.value.first;
      AlarmRow(row) == if row.consecutive && DayOfPeriod(c, d) > row.mostFrequentDay
        && (first.None? || (SamePeriod(c, first.value, d) && DayOfPeriod(c, first.value) > DayOfPeriod(c, d)))
      then Some(NoticeGlean(c, row.vendor, row.mostFrequentDay, d)) else None
  {
  }

  /** The row rule on vendor v's row for a day d of a grid period, for the frame
      of vendors vs over the n periods from low. */
  lemma AlarmInGrid(c: Cadence, invoices: seq<Invoice>, vs: seq<VendorId>, low: int, n: nat, v: VendorId, d: Date)
    requires v in vs && low <= PeriodIndex(c, d) < low + n
    ensures AlarmRow(DailyRowIn(c, invoices, vs, low, n, v, d))
      == if && FlagIn(c, invoices, vs, low, n, v, PeriodIndex(c, d))
            && DayOfPeriod(c, d) > MostFrequentDay(c, invoices, v)
            && NoInvoiceYet(c, invoices, v, d)
         then Some(NoticeGlean(c, v, MostFrequentDay(c, invoices, v), d)) else None
  {
    var row := DailyRowIn(c, invoices, vs, low, n, v, d);
    DailyRowCell(c, invoices, vs, low, n, v, d);
    DailyRowFlag(c, invoices, vs, low, n, v, d);
    EarliestAfter(c, invoices, v, d);
    AlarmRowFires(row);
  }

  /** The row rule on vendor v's row for day d is the rule stated on the invoices. */
  lemma RowAlarm(c: Cadence, invoices: seq<Invoice>, v: VendorId, d: Date)
    requires |invoices| > 0 && v in Vendors(invoices)
    ensures AlarmRow(DailyRowOf(c, invoices, v, d))
      == if Alerts(c, invoices, v, d) then Some(NoticeGlean(c, v, MostFrequentDay(c, invoices, v), d)) else None
  {
    var vs, low, n := FrameVendors(invoices), GridLow(c, invoices), GridSize(c, invoices);
    var p := PeriodIndex(c, d);
    assert v in vs;
    if low <= p < low + n {
      AlarmInGrid(c, invoices, vs, low, n, v, d);
      FlagReadOnGrid(c, invoices, v, p);
    } else {
      assert DailyRowIn(c, invoices, vs, low, n, v, d).cell == None;
    }
  }

  /** The gleans of the detector are the alarms of the rows of vendors with
      invoices on days of the calendar. */
  lemma NoInvoiceMember(c: Cadence, invoices: seq<Invoice>, g: Glean)
    requires |invoices| > 0
    ensures g in NoInvoiceGleans(c, invoices) <==> exists v, d ::
      v in Vendors(invoices) && d in Days(invoices) && AlarmRow(DailyRowOf(c, invoices, v, d)) == Some(g)
  {
    if g in NoInvoiceGleans(c, invoices) {
      var v, d := DailyRowOfGlean(c, invoices, g);
    }
    if exists v, d :: v in Vendors(invoices) && d in Days(invoices) && AlarmRow(DailyRowOf(c, invoices, v, d)) == Some(g) {
      var v, d :| v in Vendors(invoices) && d in Days(invoices) && AlarmRow(DailyRowOf(c, invoices, v, d)) == Some(g);
      DailyRowGlean(c, invoices, v, d);
    }
  }

  /** The row a glean of the detector comes from. */
  lemma DailyRowOfGlean(c: Cadence, invoices: seq<Invoice>, g: Glean) returns (v: VendorId, d: Date)
    requires |invoices| > 0 && g in NoInvoiceGleans(c, invoices)
    ensures v in Vendors(invoices) && d in Days(invoices) && AlarmRow(DailyRowOf(c, invoices, v, d)) == Some(g)
  {
    var left, right := Unique(Vendors(invoices)), Days(invoices);
    var pairs := Pairs(left, right);
    var rows := DailyRows(c, invoices);
    FilterMapMember(rows, AlarmRow, g);
    var i :| 0 <= i < |rows| && AlarmRow(rows[i]) == Some(g);
    v, d := pairs[i].0, pairs[i].1;
    assert pairs[i] == (v, d);
    PairsMember(left, right, v, d);
    assert rows[i] == DailyRowOf(c, invoices, v, d);
  }

  /** The alarm of the row of a vendor with invoices on a day of the calendar is
      a glean of the detector. */
  lemma DailyRowGlean(c: Cadence, invoices: seq<Invoice>, v: VendorId, d: Date)
    requires |invoices| > 0 && v in Vendors(invoices) && d in Days(invoices)
    requires AlarmRow(DailyRowOf(c, invoices, v, d)).Some?
    ensures AlarmRow(DailyRowOf(c, invoices, v, d)).value in NoInvoiceGleans(c, invoices)
  {
    var left, right := Unique(Vendors(invoices)), Days(invoices);
    var pairs := Pairs(left, right);
    var rows := DailyRows(c, invoices);
    var g := AlarmRow(DailyRowOf(c, invoices, v, d)).value;
    PairsMember(left, right, v, d);
    var i :| 0 <= i < |pairs| && pairs[i] == (v, d);
    assert pairs[i].0 == v && pairs[i].1 == d;
    assert rows[i] == DailyRowOf(c, invoices, v, d);
    FilterMapMember(rows, AlarmRow, g);
  }

  /** Every glean of the detector is the notice for its vendor and day, and that
      vendor and day satisfy the rule. */
  lemma NoInvoiceSound(c: Cadence, invoices: seq<Invoice>, g: Glean)
    requires |invoices| > 0 && g in NoInvoiceGleans(c, invoices)
    ensures g.vendor in Vendors(invoices) && g.date in Days(invoices)
    ensures Alerts(c, invoices, g.vendor, g.date)
    ensures g == NoticeGlean(c, g.vendor, MostFrequentDay(c, invoices, g.vendor), g.date)
  {
    NoInvoiceMember(c, invoices, g);
    var v, d :| v in Vendors(invoices) && d in Days(invoices) && AlarmRow(DailyRowOf(c, invoices, v, d)) == Some(g);
    RowAlarm(c, invoices, v, d);
  }

  /** The detector in full: it reports vendor v on day d exactly when v has an
      invoice, d is a day of the calendar and the rule holds. */
  lemma NoInvoiceIff(c: Cadence, invoices: seq<Invoice>, v: VendorId, d: Date)
    requires |invoices| > 0
    ensures (exists g :: g in NoInvoiceGleans(c, invoices) && g.vendor == v && g.date == d)
      <==> (v in Vendors(invoices) && d in Days(invoices) && Alerts(c, invoices, v, d))
  {
    if exists g :: g in NoInvoiceGleans(c, invoices) && g.vendor == v && g.date == d {
      var g :| g in NoInvoiceGleans(c, invoices) && g.vendor == v && g.date == d;
      NoInvoiceSound(c, invoices, g);
    }
    if v in Vendors(invoices) && d in Days(invoices) && Alerts(c, invoices, v, d) {
      RowAlarm(c, invoices, v, d);
      var g := NoticeGlean(c, v, MostFrequentDay(c, invoices, v), d);
      NoInvoiceMember(c, invoices, g);
    }
  }

  /** One glean per vendor and day: the daily frame holds one row per vendor and
      day, and a row raises at most the notice for its own vendor and day. */
  lemma NoInvoiceOnePerDay(c: Cadence, invoices: seq<Invoice>)
    requires |invoices| > 0
    ensures var gs := NoInvoiceGleans(c, invoices);
      forall i, j :: 0 <= i < j < |gs| ==> (gs[i].vendor, gs[i].date) != (gs[j].vendor, gs[j].date)
  {
    var left, right := Unique(Vendors(invoices)), Days(invoices);
    var pairs := Pairs(left, right);
    DaysDistinct(invoices);
    PairsDistinct(left, right);
    var rows := DailyRows(c, invoices);
    var gs := NoInvoiceGleans(c, invoices);
    forall i, j | 0 <= i < j < |gs| ensures (gs[i].vendor, gs[i].date) != (gs[j].vendor, gs[j].date) {
      var a, b := FilterMapOrder(rows, AlarmRow, i, j);
      assert rows[a] == DailyRowOf(c, invoices, pairs[a].0, pairs[a].1);
      assert rows[b] == DailyRowOf(c, invoices, pairs[b].0, pairs[b].1);
      assert pairs[a] != pairs[b];
    }
  }

  /** No vendor has an invoice in the month after the last invoice month, the
      last month of the monthly grid. */
  lemma NothingAfterLastMonth(invoices: seq<Invoice>, u: VendorId)
    requires |invoices| > 0
    ensures !Invoiced(Monthly, invoices, u, MaxMonth(invoices) + 1)
  {
    MaxMonthIsMaximum(invoices);
    FirstInvoiceIsEarliest(Monthly, invoices, u, MaxMonth(invoices) + 1);
  }

  /** For months the unusual shift is harmless: the flag carried into a vendor's
      first grid month from the previous vendor covers the month after the last
      invoice month, which has no invoices, so it is never set. The flag read in
      month p is set exactly when p is at least three months into the grid and
      each of the three months before p had an invoice. */
  lemma MonthlyFlagRead(invoices: seq<Invoice>, v: VendorId, p: int)
    requires |invoices| > 0 && GridLow(Monthly, invoices) <= p
    ensures FlagRead(Monthly, invoices, v, p)
      <==> p >= MinMonth(invoices) + 3 && PriorPeriodsInvoiced(Monthly, invoices, v, p)
  {
    var high := GridHigh(Monthly, invoices);
    if p == GridLow(Monthly, invoices) {
      NothingAfterLastMonth(invoices, v);
      match PreviousVendor(invoices, v)
      case None =>
      case Some(u) =>
        NothingAfterLastMonth(invoices, u);
        assert !PriorPeriodsInvoiced(Monthly, invoices, u, high + 1) by {
          assert high + 1 - Window(Monthly) <= high < high + 1;
        }
    }
  }

  /** `no_invoice_received_monthly` in full: vendor v is reported on day d exactly
      when v has an invoice, d is a day of the calendar at least three months into
      the grid, each of the three months before d's month had an invoice from v,
      d's day of the month is past v's most frequent invoice day of the month, and
      v has no invoice dated in d's month on or before d. */
  lemma MonthlyIff(invoices: seq<Invoice>, v: VendorId, d: Date)
    requires |invoices| > 0
    ensures (exists g :: g in NoInvoiceGleans(Monthly, invoices) && g.vendor == v && g.date == d)
      <==> (&& v in Vendors(invoices) && d in Days(invoices)
            && MonthIndex(d) >= MinMonth(invoices) + 3
            && PriorPeriodsInvoiced(Monthly, invoices, v, MonthIndex(d))
            && d.day > MostFrequentDay(Monthly, invoices, v)
            && NoInvoiceYet(Monthly, invoices, v, d))
  {
    NoInvoiceIff(Monthly, invoices, v, d);
    if d in Days(invoices) {
      DaysInGrid(invoices, d);
      MonthlyFlagRead(invoices, v, MonthIndex(d));
    }
  }
}

