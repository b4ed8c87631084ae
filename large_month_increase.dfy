/** `large_month_increase_mtd`: every vendor's spend in every month of the month
    grid, the mean of the last twelve of those monthly totals, and `lmi_mtd`'s
    three amount tiers with a floor of 100. */
module LargeMonthIncrease {
  import opened Dates
  import opened Records
  import opened Seqs
  import opened VendorOrder
  import opened Grid

  /** The length of the rolling window, in months. */
  const WindowMonths := 12
  /** Below this monthly total no glean is raised. */
  const Floor := 100.0
  /** The boundaries between the three amount tiers. */
  const MidTier := 1000.0
  const TopTier := 10000.0

  /** How many times the average a month in the given tier must exceed. */
  function TierFactor(total: real): real {
    if total > TopTier then 0.5 else if total > MidTier then 2.0 else 5.0
  }

  /** The rule `lmi_mtd` applies, stated by tier: a total of at least 100 that is
      not exactly on a tier boundary and exceeds its tier's multiple of the average. */
  predicate Exceeds(total: real, average: real) {
    total >= Floor && total != MidTier && total != TopTier && total > TierFactor(total) * average
  }

  /** `lmi_mtd(row)`. A missing average (the NaN of the first eleven months of a
      rolling mean) fails every comparison, so it gives no text. */
  function LmiText(v: VendorId, total: real, average: Option<real>): (r: Option<GleanText>)
    ensures r.Some? <==> average.Some? && Exceeds(total, average.value)
    ensures r.Some? ==> r.value == MonthlySpendHigher(v, total, average.value)
  {
    match average
    case None => None
    case Some(avg) =>
      var condition1 := total > TopTier && total > 0.5 * avg;
      var condition2 := total < TopTier && total > MidTier && total > 2.0 * avg;
      var condition3 := total < MidTier && total > 5.0 * avg;
      var condition4 := total < Floor;
      if condition4 then None
      else if condition1 || condition2 || condition3 then Some(MonthlySpendHigher(v, total, avg))
      else None
  }

  /** The monthly spend with vendor v in month i: the sum of `total_amount` over
      the invoices merged onto that grid cell. */
  function MonthlyTotal(invoices: seq<Invoice>, v: VendorId, i: int): (r: real)
  {
    if invoices == [] then 0.0
    else
      var x := invoices[0];
      (if x.vendor == v && MonthIndex(x.date) == i then x.total else 0.0) + MonthlyTotal(invoices[1..], v, i)
  }

  /** A month in which the vendor has no invoice counts as a spend of 0. */
  lemma {:induction false} EmptyMonthIsZero(invoices: seq<Invoice>, v: VendorId, i: int)
    requires forall x :: x in invoices ==> x.vendor != v || MonthIndex(x.date) != i
    ensures MonthlyTotal(invoices, v, i) == 0.0
  {
    if invoices != [] {
      assert forall x :: x in invoices[1..] ==> x in invoices;
      EmptyMonthIsZero(invoices[1..], v, i);
    }
  }

  /** The total spend with vendor v over all its invoices. */
  function VendorSpend(invoices: seq<Invoice>, v: VendorId): real {
    if invoices == [] then 0.0
    else (if invoices[0].vendor == v then invoices[0].total else 0.0) + VendorSpend(invoices[1..], v)
  }

  /** The monthly totals of months a, a + 1, ..., a + k - 1, added up. */
  function MonthsSum(invoices: seq<Invoice>, v: VendorId, a: int, k: nat): real
    decreases k
  {
    if k == 0 then 0.0 else MonthlyTotal(invoices, v, a) + MonthsSum(invoices, v, a + 1, k - 1)
  }

  /** The spend of the twelve months ending with month i. */
  function WindowTotal(invoices: seq<Invoice>, v: VendorId, i: int): real {
    MonthsSum(invoices, v, i + 1 - WindowMonths, WindowMonths)
  }

  /** The `total_amount` column of one vendor's n grid months from month lo. */
  function MonthlyTotals(invoices: seq<Invoice>, v: VendorId, lo: int, n: nat): (r: seq<real>)
    ensures |r| == n
    ensures forall j :: 0 <= j < n ==> r[j] == MonthlyTotal(invoices, v, lo + j)
  {
    seq(n, j requires 0 <= j < n => MonthlyTotal(invoices, v, lo + j))
  }

  /** `rolling(window=12).mean()` at position j of a vendor's column: None until
      twelve values are available. */
  function TrailingAverage(totals: seq<real>, j: int): Option<real>
    requires 0 <= j < |totals|
  {
    if j + 1 >= WindowMonths then Some(Sum(totals[j + 1 - WindowMonths..j + 1]) / 12.0) else None
  }

  /** A row of the monthly frame: vendor, grid month, spend and 12-month average. */
  datatype SpendRow = SpendRow(vendor: VendorId, month: Date, total: real, average: Option<real>)

  /** The row of vendor v's j-th grid month, for a grid of n months from month lo. */
  function RowAt(invoices: seq<Invoice>, v: VendorId, lo: int, n: nat, j: int): SpendRow
    requires 12 <= lo && 0 <= j < n
  {
    var totals := MonthlyTotals(invoices, v, lo, n);
    SpendRow(v, FirstOfMonth(lo + j), totals[j], TrailingAverage(totals, j))
  }

  /** One vendor's rows, month by month. */
  function VendorRows(invoices: seq<Invoice>, v: VendorId, lo: int, n: nat): (r: seq<SpendRow>)
    requires 12 <= lo
    ensures |r| == n && forall j :: 0 <= j < n ==> r[j] == RowAt(invoices, v, lo, n, j)
  {
    seq(n, j requires 0 <= j < n => RowAt(invoices, v, lo, n, j))
  }

  /** The frame after `groupby(['canonical_vendor_id', 'invoice_date'])`: vendor
      after vendor in the order given, each with its n grid months. */
  function SpendRows(invoices: seq<Invoice>, vs: seq<VendorId>, lo: int, n: nat): seq<SpendRow>
    requires 12 <= lo
  {
    if vs == [] then [] else VendorRows(invoices, vs[0], lo, n) + SpendRows(invoices, vs[1..], lo, n)
  }

  lemma {:induction false} SpendRowsMember(invoices: seq<Invoice>, vs: seq<VendorId>, lo: int, n: nat, row: SpendRow)
    requires 12 <= lo
    ensures row in SpendRows(invoices, vs, lo, n)
      <==> exists v, j :: v in vs && 0 <= j < n && row == RowAt(invoices, v, lo, n, j)
  {
    if vs != [] {
      SpendRowsMember(invoices, vs[1..], lo, n, row);
      var first := VendorRows(invoices, vs[0], lo, n);
      assert row in SpendRows(invoices, vs, lo, n) <==> row in first || row in SpendRows(invoices, vs[1..], lo, n);
      if row in first {
        var j :| 0 <= j < n && first[j] == row;
        assert vs[0] in vs;
      }
      if exists v, j :: v in vs && 0 <= j < n && row == RowAt(invoices, v, lo, n, j) {
        var v, j :| v in vs && 0 <= j < n && row == RowAt(invoices, v, lo, n, j);
        if v == vs[0] {
          assert first[j] == row;
        } else {
          assert v in vs[1..];
        }
      }
    }
  }

  /** The row function: a vendor-level glean dated on the first of the month. */
  function LmiRow(row: SpendRow): (r: Option<Glean>)
    ensures r.Some? <==> row.average.Some? && Exceeds(row.total, row.average.value)
    ensures r.Some? ==> && r.value.kind.Code() == 3 && r.value.location.Code() == 2 && r.value.invoiceId.None?
                        && r.value.vendor == row.vendor && r.value.date == row.month
  {
    match LmiText(row.vendor, row.total, row.average)
    case None => None
    case Some(t) => Some(Glean(row.month, t, LargeMonthIncrease, AtVendor, None, row.vendor))
  }

  /** The number of grid months: from the first invoice month to the month after the last. */
  function MonthCount(invoices: seq<Invoice>): nat
    requires |invoices| > 0
  {
    MonthBounds(invoices);
    MaxMonth(invoices) - MinMonth(invoices) + 2
  }

  /** The MonthCount grid months from the first invoice month are exactly the
      months up to the month after the last: every invoice month is among them,
      before the last one. */
  lemma MonthGrid(invoices: seq<Invoice>, i: int)
    requires |invoices| > 0
    ensures MinMonth(invoices) + MonthCount(invoices) - 1 == MaxMonth(invoices) + 1
    ensures 0 <= i - MinMonth(invoices) < MonthCount(invoices) <==> MinMonth(invoices) <= i <= MaxMonth(invoices) + 1
    ensures (exists x :: x in invoices && MonthIndex(x.date) == i) ==> 0 <= i - MinMonth(invoices) < MonthCount(invoices) - 1
  {
    MinMonthIsMinimum(invoices);
    MaxMonthIsMaximum(invoices);
  }

  /** `large_month_increase_mtd(invoice)`: the gleans in vendor order, then month
      order. (`main.py` raises on an empty invoice table.) */
  function LargeMonthIncreaseGleans(invoices: seq<Invoice>): (r: seq<Glean>)
    requires |invoices| > 0
    ensures |r| > 0 ==> MinMonth(invoices) + 11 <= MaxMonth(invoices) + 1
  {
    MonthBounds(invoices);
    var lo, n := MinMonth(invoices), MonthCount(invoices);
    var vs := SortedDistinct(Vendors(invoices));
    FrameGleanLate(invoices, vs, lo, n);
    FilterMap(SpendRows(invoices, vs, lo, n), LmiRow)
  }

  /** A slice of a vendor's monthly totals adds up to the totals of those months. */
  lemma {:induction false} MonthlyTotalsSum(invoices: seq<Invoice>, v: VendorId, a: int, k: nat)
    ensures Sum(MonthlyTotals(invoices, v, a, k)) == MonthsSum(invoices, v, a, k)
    decreases k
  {
    if k > 0 {
      var r := MonthlyTotals(invoices, v, a, k);
      assert r[1..] == MonthlyTotals(invoices, v, a + 1, k - 1);
      MonthlyTotalsSum(invoices, v, a + 1, k - 1);
    }
  }

  /** A slice of a vendor's monthly totals adds up to the totals of its months. */
  lemma SliceSum(invoices: seq<Invoice>, v: VendorId, lo: int, n: nat, s: nat, k: nat)
    requires s + k <= n
    ensures Sum(MonthlyTotals(invoices, v, lo, n)[s..s + k]) == MonthsSum(invoices, v, lo + s, k)
  {
    var totals := MonthlyTotals(invoices, v, lo, n);
    var months := MonthlyTotals(invoices, v, lo + s, k);
    assert totals[s..s + k] == months;
    MonthlyTotalsSum(invoices, v, lo + s, k);
  }

  /** The rolling mean at grid month lo + j is missing in the first eleven grid
      months and is otherwise the spend of the twelve months ending there over 12. */
  lemma TrailingAverageOfMonths(invoices: seq<Invoice>, v: VendorId, lo: int, n: nat, j: int)
    requires 0 <= j < n
    ensures TrailingAverage(MonthlyTotals(invoices, v, lo, n), j)
      == if j + 1 >= WindowMonths then Some(WindowTotal(invoices, v, lo + j) / 12.0) else None
  {
    if j + 1 >= WindowMonths {
      var totals := MonthlyTotals(invoices, v, lo, n);
      var k := WindowMonths;
      assert TrailingAverage(totals, j) == Some(Sum(totals[j + 1 - k..j + 1]) / 12.0);
      assert WindowTotal(invoices, v, lo + j) == MonthsSum(invoices, v, lo + j + 1 - k, k);
      SliceSum(invoices, v, lo, n, j + 1 - k, k);
    }
  }

  /** What a row of the frame raises: the glean of vendor w for grid month lo + j
      when that month's spend exceeds its 12-month average. */
  lemma {:induction false} RowAtGlean(invoices: seq<Invoice>, w: VendorId, lo: int, n: nat, j: int)
    requires 12 <= lo && 0 <= j < n
    ensures var i := lo + j;
      LmiRow(RowAt(invoices, w, lo, n, j)).Some?
      <==> (j + 1 >= WindowMonths && Exceeds(MonthlyTotal(invoices, w, i), WindowTotal(invoices, w, i) / 12.0))
    ensures var i := lo + j;
      LmiRow(RowAt(invoices, w, lo, n, j)).Some? ==> LmiRow(RowAt(invoices, w, lo, n, j)).value == Glean(FirstOfMonth(i),
        MonthlySpendHigher(w, MonthlyTotal(invoices, w, i), WindowTotal(invoices, w, i) / 12.0),
        LargeMonthIncrease, AtVendor, None, w)
  {
    TrailingAverageOfMonths(invoices, w, lo, n, j);
  }

  /** The glean of vendor v for month i, as the rule writes it: a vendor-level
      glean of type 3 without invoice id, dated on the first of the month, whose
      text carries the month's spend and its 12-month average. */
  function MonthGlean(invoices: seq<Invoice>, v: VendorId, i: int): (g: Glean)
    requires 12 <= i
    ensures g.kind.Code() == 3 && g.location.Code() == 2 && g.invoiceId == None && g.vendor == v
    ensures g.date.day == 1 && MonthIndex(g.date) == i
  {
    Glean(FirstOfMonth(i), MonthlySpendHigher(v, MonthlyTotal(invoices, v, i), WindowTotal(invoices, v, i) / 12.0),
      LargeMonthIncrease, AtVendor, None, v)
  }

  /** The glean a row raises, in terms of the row's vendor and month. */
  lemma RowGlean(invoices: seq<Invoice>, g: Glean, w: VendorId, lo: int, n: nat, j: int, i: int)
    requires 12 <= lo && 0 <= j < n && i == lo + j
    requires LmiRow(RowAt(invoices, w, lo, n, j)) == Some(g)
    ensures 11 <= j && 12 <= i
    ensures Exceeds(MonthlyTotal(invoices, w, i), WindowTotal(invoices, w, i) / 12.0)
    ensures g == MonthGlean(invoices, w, i)
  {
    RowAtGlean(invoices, w, lo, n, j);
  }

  /** Soundness: each glean of the rule is the glean of some vendor for some
      month at least eleven months into the grid whose spend exceeds its average. */
  lemma GleanSource(invoices: seq<Invoice>, g: Glean) returns (w: VendorId, i: int)
    requires |invoices| > 0 && g in LargeMonthIncreaseGleans(invoices)
    ensures w in Vendors(invoices) && MinMonth(invoices) + 11 <= i <= MaxMonth(invoices) + 1
    ensures Exceeds(MonthlyTotal(invoices, w, i), WindowTotal(invoices, w, i) / 12.0)
    ensures g == MonthGlean(invoices, w, i)
  {
    MonthBounds(invoices);
    var lo, n := MinMonth(invoices), MonthCount(invoices);
    w, i := GleanSourceIn(invoices, SortedDistinct(Vendors(invoices)), lo, n, g);
  }

  /** Each glean of the frame of vendors vs over the n grid months from lo is the
      glean of one of those vendors for a month at least eleven months into the
      grid whose spend exceeds its average. */
  lemma GleanSourceIn(invoices: seq<Invoice>, vs: seq<VendorId>, lo: int, n: nat, g: Glean) returns (w: VendorId, i: int)
    requires 12 <= lo && g in FilterMap(SpendRows(invoices, vs, lo, n), LmiRow)
    ensures w in vs && lo + 11 <= i < lo + n
    ensures Exceeds(MonthlyTotal(invoices, w, i), WindowTotal(invoices, w, i) / 12.0)
    ensures g == MonthGlean(invoices, w, i)
  {
    var j;
    w, j := RowOfGleanIn(invoices, vs, lo, n, g);
    i := lo + j;
    RowGlean(invoices, g, w, lo, n, j, i);
  }

  /** A frame with a glean spans at least twelve months. */
  lemma FrameGleanLate(invoices: seq<Invoice>, vs: seq<VendorId>, lo: int, n: nat)
    requires 12 <= lo
    ensures |FilterMap(SpendRows(invoices, vs, lo, n), LmiRow)| > 0 ==> 12 <= n
  {
    var r := FilterMap(SpendRows(invoices, vs, lo, n), LmiRow);
    if |r| > 0 {
      var w, i := GleanSourceIn(invoices, vs, lo, n, r[0]);
    }
  }

  /** The row of the frame a glean comes from. */
  lemma RowOfGleanIn(invoices: seq<Invoice>, vs: seq<VendorId>, lo: int, n: nat, g: Glean) returns (w: VendorId, j: int)
    requires 12 <= lo && g in FilterMap(SpendRows(invoices, vs, lo, n), LmiRow)
    ensures w in vs && 0 <= j < n && LmiRow(RowAt(invoices, w, lo, n, j)) == Some(g)
  {
    var rows := SpendRows(invoices, vs, lo, n);
    FilterMapMember(rows, LmiRow, g);
    var k :| 0 <= k < |rows| && LmiRow(rows[k]) == Some(g);
    SpendRowsMember(invoices, vs, lo, n, rows[k]);
    w, j :| w in vs && 0 <= j < n && rows[k] == RowAt(invoices, w, lo, n, j);
  }

  /** A row whose spend exceeds its average raises that month's glean. */
  lemma GleanOfRow(invoices: seq<Invoice>, w: VendorId, lo: int, n: nat, j: int)
    requires 12 <= lo && 11 <= j < n
    requires Exceeds(MonthlyTotal(invoices, w, lo + j), WindowTotal(invoices, w, lo + j) / 12.0)
    ensures LmiRow(RowAt(invoices, w, lo, n, j)) == Some(MonthGlean(invoices, w, lo + j))
  {
    RowAtGlean(invoices, w, lo, n, j);
  }

  /** Conversely the rule raises the glean of every such vendor and month. */
  lemma GleanOfMonth(invoices: seq<Invoice>, v: VendorId, i: int)
    requires |invoices| > 0 && v in Vendors(invoices) && MinMonth(invoices) + 11 <= i <= MaxMonth(invoices) + 1
    requires Exceeds(MonthlyTotal(invoices, v, i), WindowTotal(invoices, v, i) / 12.0)
    ensures 12 <= i && MonthGlean(invoices, v, i) in LargeMonthIncreaseGleans(invoices)
  {
    MonthBounds(invoices);
    var lo, n := MinMonth(invoices), MonthCount(invoices);
    var vs := SortedDistinct(Vendors(invoices));
    assert v in vs;
    MonthGleanIn(invoices, vs, lo, n, v, i);
  }

  /** The glean of a vendor of the frame for a month at least eleven months into
      the n grid months from lo whose spend exceeds its average. */
  lemma MonthGleanIn(invoices: seq<Invoice>, vs: seq<VendorId>, lo: int, n: nat, v: VendorId, i: int)
    requires 12 <= lo && lo + 11 <= i < lo + n && v in vs
    requires Exceeds(MonthlyTotal(invoices, v, i), WindowTotal(invoices, v, i) / 12.0)
    ensures MonthGlean(invoices, v, i) in FilterMap(SpendRows(invoices, vs, lo, n), LmiRow)
  {
    var j := i - lo;
    assert lo + j == i;
    GleanOfRow(invoices, v, lo, n, j);
    RowGleanIn(invoices, vs, lo, n, v, j);
  }

  /** The glean of the row of a vendor of the frame is among the gleans of the
      frame of vendors vs over the n months from lo. */
  lemma RowGleanIn(invoices: seq<Invoice>, vs: seq<VendorId>, lo: int, n: nat, v: VendorId, j: int)
    requires 12 <= lo && v in vs && 0 <= j < n && LmiRow(RowAt(invoices, v, lo, n, j)).Some?
    ensures LmiRow(RowAt(invoices, v, lo, n, j)).value in FilterMap(SpendRows(invoices, vs, lo, n), LmiRow)
  {
    var row := RowAt(invoices, v, lo, n, j);
    var rows := SpendRows(invoices, vs, lo, n);
    SpendRowsMember(invoices, vs, lo, n, row);
    FilterMapMember(rows, LmiRow, LmiRow(row).value);
  }

  /** The rule in full: vendor v gets a glean for month i exactly when v has an
      invoice, month i is at least the twelfth month of the grid (which runs up to
      the month after the last invoice), and the month's spend exceeds, by its
      tier, the mean of the twelve monthly totals ending with month i, months
      without invoices counting as 0. */
  lemma LmiIff(invoices: seq<Invoice>, v: VendorId, i: int)
    requires |invoices| > 0
    ensures (exists g :: g in LargeMonthIncreaseGleans(invoices) && g.vendor == v && MonthIndex(g.date) == i)
      <==> ((exists x :: x in invoices && x.vendor == v)
        && MinMonth(invoices) + 11 <= i <= MaxMonth(invoices) + 1
        && Exceeds(MonthlyTotal(invoices, v, i), WindowTotal(invoices, v, i) / 12.0))
  {
    VendorsMember(invoices, v);
    if exists g :: g in LargeMonthIncreaseGleans(invoices) && g.vendor == v && MonthIndex(g.date) == i {
      var g :| g in LargeMonthIncreaseGleans(invoices) && g.vendor == v && MonthIndex(g.date) == i;
      var w, i' := GleanSource(invoices, g);
    }
    if && (exists x :: x in invoices && x.vendor == v)
       && MinMonth(invoices) + 11 <= i <= MaxMonth(invoices) + 1
       && Exceeds(MonthlyTotal(invoices, v, i), WindowTotal(invoices, v, i) / 12.0)
    {
      GleanOfMonth(invoices, v, i);
    }
  }

  /** A vendor's spend is the sum of the monthly totals of any range of months
      holding all its invoices. */
  lemma {:induction false} MonthsSumCoversSpend(invoices: seq<Invoice>, v: VendorId, a: int, k: nat)
    requires forall x :: x in invoices && x.vendor == v ==> a <= MonthIndex(x.date) < a + k
    ensures MonthsSum(invoices, v, a, k) == VendorSpend(invoices, v)
  {
    if invoices != [] {
      var x := invoices[0];
      assert forall y :: y in invoices[1..] ==> y in invoices;
      MonthsSumCoversSpend(invoices[1..], v, a, k);
      MonthsSumSplit(invoices, v, a, k);
      OneInvoiceMonths(x, v, a, k);
      assert x in invoices;
      assert MonthsSum([x], v, a, k) == if x.vendor == v then x.total else 0.0;
      assert VendorSpend(invoices, v) == (if x.vendor == v then x.total else 0.0) + VendorSpend(invoices[1..], v);
    } else {
      NoInvoicesNoSpend(v, a, k);
    }
  }

  lemma {:induction false} NoInvoicesNoSpend(v: VendorId, a: int, k: nat)
    ensures MonthsSum([], v, a, k) == 0.0
    decreases k
  {
    if k > 0 {
      NoInvoicesNoSpend(v, a + 1, k - 1);
    }
  }

  /** The months sum of a table is its first row's share plus the rest's. */
  lemma {:induction false} MonthsSumSplit(invoices: seq<Invoice>, v: VendorId, a: int, k: nat)
    requires invoices != []
    ensures MonthsSum(invoices, v, a, k) == MonthsSum([invoices[0]], v, a, k) + MonthsSum(invoices[1..], v, a, k)
    decreases k
  {
    if k > 0 {
      MonthsSumSplit(invoices, v, a + 1, k - 1);
      assert [invoices[0]][1..] == [];
      assert MonthlyTotal(invoices, v, a) == MonthlyTotal([invoices[0]], v, a) + MonthlyTotal(invoices[1..], v, a);
    }
  }

  /** A single invoice adds its total to exactly one month of any range holding it. */
  lemma {:induction false} OneInvoiceMonths(x: Invoice, v: VendorId, a: int, k: nat)
    ensures MonthsSum([x], v, a, k)
      == if x.vendor == v && a <= MonthIndex(x.date) < a + k then x.total else 0.0
    decreases k
  {
    if k > 0 {
      OneInvoiceMonths(x, v, a + 1, k - 1);
      assert [x][1..] == [];
      assert MonthlyTotal([x], v, a) == if x.vendor == v && MonthIndex(x.date) == a then x.total else 0.0;
    }
  }

  /** The month grid loses no spend: a vendor's monthly totals over the grid add
      up to its total spend. */
  lemma GridCoversSpend(invoices: seq<Invoice>, v: VendorId)
    requires |invoices| > 0
    ensures Sum(MonthlyTotals(invoices, v, MinMonth(invoices), MonthCount(invoices))) == VendorSpend(invoices, v)
  {
    var lo, n := MinMonth(invoices), MonthCount(invoices);
    MinMonthIsMinimum(invoices);
    MaxMonthIsMaximum(invoices);
    MonthlyTotalsSum(invoices, v, lo, n);
    MonthsSumCoversSpend(invoices, v, lo, n);
  }

  /** No two rows share a vendor and a month. */
  predicate OneRowPerMonth(rows: seq<SpendRow>) {
    forall a, b :: 0 <= a < b < |rows| ==> (rows[a].vendor, rows[a].month) != (rows[b].vendor, rows[b].month)
  }

  /** The rows of the frame of distinct vendors vs hold each vendor and month once. */
  lemma {:induction false} SpendRowsDistinctKeys(invoices: seq<Invoice>, vs: seq<VendorId>, lo: int, n: nat)
    requires 12 <= lo && Distinct(vs)
    ensures OneRowPerMonth(SpendRows(invoices, vs, lo, n))
  {
    if vs != [] {
      var first := VendorRows(invoices, vs[0], lo, n);
      var rest := SpendRows(invoices, vs[1..], lo, n);
      var rows: seq<SpendRow> := first + rest;
      SpendRowsDistinctKeys(invoices, vs[1..], lo, n);
      assert SpendRows(invoices, vs, lo, n) == rows;
      DistinctHead(vs);
      forall a, b | 0 <= a < b < |rows| ensures (rows[a].vendor, rows[a].month) != (rows[b].vendor, rows[b].month) {
        if b < |first| {
          assert MonthIndex(first[a].month) == lo + a && MonthIndex(first[b].month) == lo + b;
        } else if a < |first| {
          assert rest[b - |first|] in rest;
          RowVendorIn(invoices, vs[1..], lo, n, rest[b - |first|]);
        } else {
          assert rows[a] == rest[a - |first|] && rows[b] == rest[b - |first|];
        }
      }
    }
  }

  /** Every row of the frame belongs to one of its vendors. */
  lemma RowVendorIn(invoices: seq<Invoice>, vs: seq<VendorId>, lo: int, n: nat, row: SpendRow)
    requires 12 <= lo && row in SpendRows(invoices, vs, lo, n)
    ensures row.vendor in vs
  {
    SpendRowsMember(invoices, vs, lo, n, row);
  }

  /** The first of distinct vendors does not recur. */
  lemma DistinctHead(vs: seq<VendorId>)
    requires Distinct(vs) && vs != []
    ensures vs[0] !in vs[1..]
  {
    forall m | 0 <= m < |vs[1..]| ensures vs[1..][m] != vs[0] {
      assert vs[1..][m] == vs[m + 1];
    }
  }

  /** One glean per vendor and month: the grouped frame holds one row per vendor
      and grid month, and a row raises only its own vendor's glean for its month. */
  lemma LmiOnePerMonth(invoices: seq<Invoice>)
    requires |invoices| > 0
    ensures var gs := LargeMonthIncreaseGleans(invoices);
      forall i, j :: 0 <= i < j < |gs| ==> (gs[i].vendor, gs[i].date) != (gs[j].vendor, gs[j].date)
  {
    MonthBounds(invoices);
    var lo, n := MinMonth(invoices), MonthCount(invoices);
    var vs := SortedDistinct(Vendors(invoices));
    StrictlySortedDistinct(vs);
    FrameOnePerMonth(invoices, vs, lo, n);
    assert LargeMonthIncreaseGleans(invoices) == FilterMap(SpendRows(invoices, vs, lo, n), LmiRow);
  }

  lemma FrameOnePerMonth(invoices: seq<Invoice>, vs: seq<VendorId>, lo: int, n: nat)
    requires 12 <= lo && Distinct(vs)
    ensures var gs := FilterMap(SpendRows(invoices, vs, lo, n), LmiRow);
      forall i, j :: 0 <= i < j < |gs| ==> (gs[i].vendor, gs[i].date) != (gs[j].vendor, gs[j].date)
  {
    var rows := SpendRows(invoices, vs, lo, n);
    var gs := FilterMap(rows, LmiRow);
    SpendRowsDistinctKeys(invoices, vs, lo, n);
    forall i, j | 0 <= i < j < |gs| ensures (gs[i].vendor, gs[i].date) != (gs[j].vendor, gs[j].date) {
      var a, b := FilterMapOrder(rows, LmiRow, i, j);
      assert LmiRow(rows[a]) == Some(gs[i]) && LmiRow(rows[b]) == Some(gs[j]);
      assert (rows[a].vendor, rows[a].month) != (rows[b].vendor, rows[b].month);
    }
  }
}
