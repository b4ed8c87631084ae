/** `vendor_not_seen_in_a_while`: sort the invoices by vendor and date, take
    each invoice's distance in days to the previous invoice of the same vendor
    (-1 for a vendor's first invoice) and flag the invoices where it exceeds 90. */
module VendorNotSeen {
  import opened Dates
  import opened Records
  import opened Seqs
  import opened VendorOrder

  /** The longest gap, in days, that raises no glean. */
  const MaxQuietDays := 90

  /** The sort key of `sort_values(by=['canonical_vendor_id', 'invoice_date'])`. */
  predicate KeyLess(a: Invoice, b: Invoice) {
    LexLess(a.vendor, b.vendor)
    || (a.vendor == b.vendor && DayNumber(a.date) < DayNumber(b.date))
  }

  predicate SortedByKey(t: seq<Invoice>) {
    forall i, j :: 0 <= i < j < |t| ==> !KeyLess(t[j], t[i])
  }

  lemma KeyLessAsymmetric(a: Invoice, b: Invoice)
    requires KeyLess(a, b)
    ensures !KeyLess(b, a)
  {
    if LexLess(a.vendor, b.vendor) {
      LexLessAsymmetric(a.vendor, b.vendor);
    } else {
      LexLessIrreflexive(a.vendor);
    }
  }

  /** Not-less is transitive: the key is a total preorder. */
  lemma KeyNotLessTransitive(a: Invoice, b: Invoice, c: Invoice)
    requires !KeyLess(b, a) && !KeyLess(c, b)
    ensures !KeyLess(c, a)
  {
    LexLessTotal(a.vendor, b.vendor);
    LexLessTotal(b.vendor, c.vendor);
    if LexLess(c.vendor, a.vendor) {
      if LexLess(a.vendor, b.vendor) {
        LexLessTransitive(c.vendor, a.vendor, b.vendor);
      }
      if a.vendor == b.vendor {
        LexLessAsymmetric(c.vendor, a.vendor);
      }
    }
  }

  /** No element of t sorts before p. */
  predicate NoneBelow(t: seq<Invoice>, p: Invoice) {
    forall j :: 0 <= j < |t| ==> !KeyLess(t[j], p)
  }

  /** Putting p in front of sorted invoices none of which sorts before p keeps
      them sorted, and keeps every bound that p and the rest satisfy. */
  lemma ConsSorted(p: Invoice, t: seq<Invoice>)
    requires SortedByKey(t) && NoneBelow(t, p)
    ensures SortedByKey([p] + t)
    ensures forall q :: NoneBelow(t, q) && !KeyLess(p, q) ==> NoneBelow([p] + t, q)
  {
    forall i, j | 0 <= i < j < |[p] + t| ensures !KeyLess(([p] + t)[j], ([p] + t)[i]) {
      if i > 0 {
        assert ([p] + t)[i] == t[i - 1] && ([p] + t)[j] == t[j - 1];
      } else {
        assert ([p] + t)[j] == t[j - 1];
      }
    }
  }

  /** Inserts x before the first element whose key is not less than x's, so that
      invoices with equal keys keep their input order. */
  function InsertByKey(x: Invoice, t: seq<Invoice>): (r: seq<Invoice>)
    requires SortedByKey(t)
    ensures SortedByKey(r)
    ensures multiset(r) == multiset(t) + multiset{x}
    ensures forall p :: NoneBelow(t, p) && !KeyLess(x, p) ==> NoneBelow(r, p)
  {
    if t == [] then [x]
    else if !KeyLess(t[0], x) then
      InsertFront(x, t);
      [x] + t
    else
      var rest := InsertByKey(x, t[1..]);
      InsertBehind(x, t, rest);
      assert t == [t[0]] + t[1..];
      [t[0]] + rest
  }

  /** x goes in front when the first element does not sort before it. */
  lemma InsertFront(x: Invoice, t: seq<Invoice>)
    requires SortedByKey(t) && t != [] && !KeyLess(t[0], x)
    ensures SortedByKey([x] + t)
    ensures forall p :: NoneBelow(t, p) && !KeyLess(x, p) ==> NoneBelow([x] + t, p)
  {
    forall j | 0 < j < |t| ensures !KeyLess(t[j], x) {
      KeyNotLessTransitive(x, t[0], t[j]);
    }
    ConsSorted(x, t);
  }

  /** t[0] stays in front when it sorts before x and x went into the rest. */
  lemma InsertBehind(x: Invoice, t: seq<Invoice>, rest: seq<Invoice>)
    requires SortedByKey(t) && t != [] && KeyLess(t[0], x)
    requires SortedByKey(rest) && forall p :: NoneBelow(t[1..], p) && !KeyLess(x, p) ==> NoneBelow(rest, p)
    ensures SortedByKey([t[0]] + rest)
    ensures forall p :: NoneBelow(t, p) && !KeyLess(x, p) ==> NoneBelow([t[0]] + rest, p)
  {
    KeyLessAsymmetric(t[0], x);
    assert NoneBelow(t[1..], t[0]);
    ConsSorted(t[0], rest);
    forall p | NoneBelow(t, p) && !KeyLess(x, p) ensures NoneBelow([t[0]] + rest, p) {
      assert NoneBelow(t[1..], p) by {
        forall j | 0 <= j < |t[1..]| ensures !KeyLess(t[1..][j], p) {
          assert t[1..][j] == t[j + 1];
        }
      }
    }
  }

  /** The invoices in the order of the in-place `sort_values` (stable on ties). */
  function SortByKey(s: seq<Invoice>): (t: seq<Invoice>)
    ensures SortedByKey(t)
    ensures multiset(t) == multiset(s)
  {
    if s == [] then []
    else
      assert s == [s[0]] + s[1..];
      InsertByKey(s[0], SortByKey(s[1..]))
  }

  /** The `groupby(...).diff()` column after `fillna(Timedelta(days=-1))`: the
      days since the previous row when it belongs to the same vendor, else -1. */
  function GapDays(t: seq<Invoice>, k: nat): int
    requires k < |t|
  {
    if k > 0 && t[k - 1].vendor == t[k].vendor then DayNumber(t[k].date) - DayNumber(t[k - 1].date)
    else -1
  }

  /** A row of the sorted frame with its `vendor_not_seen_in_a_while` column. */
  datatype GapRow = GapRow(invoice: Invoice, gap: int)

  /** The sorted frame with the gap column assigned. */
  function GapColumn(t: seq<Invoice>): (r: seq<GapRow>)
    ensures |r| == |t| && forall k :: 0 <= k < |t| ==> r[k] == GapRow(t[k], GapDays(t, k))
  {
    seq(|t|, k requires 0 <= k < |t| => GapRow(t[k], GapDays(t, k)))
  }

  /** The row function: a glean dated on the invoice, at the invoice, when the
      gap exceeds 90 days. */
  function NotSeenRow(row: GapRow): Option<Glean> {
    if row.gap > MaxQuietDays then
      var x := row.invoice;
      Some(Glean(x.date, FirstNewBill(row.gap, x.vendor), VendorNotSeen, AtInvoice, Some(x.id), x.vendor))
    else None
  }

  /** `vendor_not_seen_in_a_while(invoice)`: the gleans in the sorted row order.
      At most one per invoice, and the first row of the sorted frame never
      raises one. */
  function VendorNotSeenGleans(invoices: seq<Invoice>): (r: seq<Glean>)
    ensures |r| <= |invoices|
    ensures |invoices| > 0 ==> |r| < |invoices|
  {
    var t := SortByKey(invoices);
    var rows := GapColumn(t);
    assert |t| == |multiset(t)| == |invoices|;
    assert rows != [] ==> NotSeenRow(rows[0]).None?;
    FilterMap(rows, NotSeenRow)
  }

  lemma SortByKeyElements(s: seq<Invoice>)
    ensures forall y :: y in SortByKey(s) <==> y in s
  {
    var t := SortByKey(s);
    forall y ensures y in t <==> y in s {
      assert y in t <==> y in multiset(t);
      assert y in s <==> y in multiset(s);
    }
  }

  /** A glean comes from a row of the sorted frame with a gap over 90 days. */
  lemma NotSeenRowOf(s: seq<Invoice>, g: Glean) returns (k: nat)
    requires g in VendorNotSeenGleans(s)
    ensures k < |SortByKey(s)|
    ensures var t := SortByKey(s);
      GapDays(t, k) > MaxQuietDays && g == NotSeenRow(GapRow(t[k], GapDays(t, k))).value
  {
    var rows := GapColumn(SortByKey(s));
    FilterMapMember(rows, NotSeenRow, g);
    var i :| 0 <= i < |rows| && NotSeenRow(rows[i]) == Some(g);
    k := i;
  }

  /** A vendor's invoices appear in date order in the sorted frame. */
  lemma SameVendorOrdered(t: seq<Invoice>, i: int, j: int)
    requires SortedByKey(t) && 0 <= i < j < |t| && t[i].vendor == t[j].vendor
    ensures DayNumber(t[i].date) <= DayNumber(t[j].date)
  {
    assert !KeyLess(t[j], t[i]);
  }

  /** A vendor's invoices are contiguous in the sorted frame. */
  lemma SandwichedVendor(t: seq<Invoice>, i: int, k: int, j: int)
    requires SortedByKey(t) && 0 <= i < k < j < |t| && t[i].vendor == t[j].vendor
    ensures t[k].vendor == t[i].vendor
  {
    assert !KeyLess(t[k], t[i]) && !KeyLess(t[j], t[k]);
    LexLessTotal(t[i].vendor, t[k].vendor);
  }

  /** The vendor has an invoice before day n, and every one of them is more than
      90 days before it. */
  ghost predicate Triggers(s: seq<Invoice>, v: VendorId, n: int) {
    && (exists y :: y in s && y.vendor == v && DayNumber(y.date) < n)
    && (forall y :: y in s && y.vendor == v && DayNumber(y.date) < n ==> n - DayNumber(y.date) > MaxQuietDays)
  }

  /** In the sorted frame, a row whose gap exceeds 90 days follows a row of the
      same vendor, and that row holds the vendor's latest earlier date. */
  lemma SortedGapFacts(t: seq<Invoice>, k: nat)
    requires SortedByKey(t) && k < |t| && GapDays(t, k) > MaxQuietDays
    ensures k > 0 && t[k - 1].vendor == t[k].vendor
    ensures forall j :: 0 <= j < |t| && t[j].vendor == t[k].vendor && DayNumber(t[j].date) < DayNumber(t[k].date) ==>
      DayNumber(t[j].date) <= DayNumber(t[k - 1].date)
  {
    forall j | 0 <= j < |t| && t[j].vendor == t[k].vendor && DayNumber(t[j].date) < DayNumber(t[k].date)
      ensures DayNumber(t[j].date) <= DayNumber(t[k - 1].date)
    {
      if j > k {
        SameVendorOrdered(t, k, j);
      } else if j < k - 1 {
        SameVendorOrdered(t, j, k - 1);
      }
    }
  }

  /** Every vendor_not_seen glean belongs to an input invoice and reports the
      distance to that vendor's latest earlier invoice, which is over 90 days. */
  lemma NotSeenSound(s: seq<Invoice>, g: Glean)
    requires g in VendorNotSeenGleans(s)
    ensures g.kind == VendorNotSeen && g.kind.Code() == 1
    ensures g.location == AtInvoice && g.location.Code() == 1
    ensures exists x :: x in s && g.invoiceId == Some(x.id) && x.vendor == g.vendor && x.date == g.date
    ensures g.text.FirstNewBill? && g.text.vendor == g.vendor && g.text.gapDays > MaxQuietDays
    ensures exists y :: y in s && y.vendor == g.vendor && DayNumber(y.date) == DayNumber(g.date) - g.text.gapDays
    ensures forall y :: y in s && y.vendor == g.vendor && DayNumber(y.date) < DayNumber(g.date) ==>
      DayNumber(y.date) <= DayNumber(g.date) - g.text.gapDays
    ensures Triggers(s, g.vendor, DayNumber(g.date))
  {
    var t := SortByKey(s);
    SortByKeyElements(s);
    var k := NotSeenRowOf(s, g);
    GapRowSound(s, t, k, g);
  }

  /** NotSeenSound for row k of a sorted frame t holding the same invoices as s. */
  lemma GapRowSound(s: seq<Invoice>, t: seq<Invoice>, k: nat, g: Glean)
    requires SortedByKey(t) && (forall y :: y in t <==> y in s)
    requires k < |t| && GapDays(t, k) > MaxQuietDays && g == NotSeenRow(GapRow(t[k], GapDays(t, k))).value
    ensures exists x :: x in s && g.invoiceId == Some(x.id) && x.vendor == g.vendor && x.date == g.date
    ensures g.text.FirstNewBill? && g.text.vendor == g.vendor && g.text.gapDays > MaxQuietDays
    ensures exists y :: y in s && y.vendor == g.vendor && DayNumber(y.date) == DayNumber(g.date) - g.text.gapDays
    ensures forall y :: y in s && y.vendor == g.vendor && DayNumber(y.date) < DayNumber(g.date) ==>
      DayNumber(y.date) <= DayNumber(g.date) - g.text.gapDays
  {
    SortedGapFacts(t, k);
    assert t[k] in s && t[k - 1] in s;
    forall y | y in s && y.vendor == g.vendor && DayNumber(y.date) < DayNumber(g.date)
      ensures DayNumber(y.date) <= DayNumber(t[k - 1].date)
    {
      var j :| 0 <= j < |t| && t[j] == y;
    }
  }

  /** Walks back from row k over the rows with the same vendor and day. */
  lemma {:induction false} FirstOfTies(t: seq<Invoice>, k: nat) returns (m: nat)
    requires k < |t|
    ensures m <= k
    ensures t[m].vendor == t[k].vendor && DayNumber(t[m].date) == DayNumber(t[k].date)
    ensures m > 0 ==> t[m - 1].vendor != t[k].vendor || DayNumber(t[m - 1].date) != DayNumber(t[k].date)
    ensures forall j :: m <= j <= k ==> t[j].vendor == t[k].vendor && DayNumber(t[j].date) == DayNumber(t[k].date)
  {
    if k > 0 && t[k - 1].vendor == t[k].vendor && DayNumber(t[k - 1].date) == DayNumber(t[k].date) {
      m := FirstOfTies(t, k - 1);
    } else {
      m := k;
    }
  }

  /** In the sorted frame: if row k's vendor has a row j0 dated before it and
      all such rows are over 90 days back, the first row of k's ties raises a glean. */
  lemma SortedComplete(t: seq<Invoice>, k: nat, j0: nat) returns (m: nat)
    requires SortedByKey(t) && k < |t| && j0 < |t|
    requires t[j0].vendor == t[k].vendor && DayNumber(t[j0].date) < DayNumber(t[k].date)
    requires forall j :: 0 <= j < |t| && t[j].vendor == t[k].vendor && DayNumber(t[j].date) < DayNumber(t[k].date) ==>
      DayNumber(t[k].date) - DayNumber(t[j].date) > MaxQuietDays
    ensures m < |t| && GapDays(t, m) > MaxQuietDays
    ensures t[m].vendor == t[k].vendor && DayNumber(t[m].date) == DayNumber(t[k].date)
  {
    if j0 > k {
      SameVendorOrdered(t, k, j0);
    }
    m := FirstOfTies(t, k);
    assert j0 < m;
    if j0 < m - 1 {
      SandwichedVendor(t, j0, m - 1, m);
    }
    SameVendorOrdered(t, m - 1, m);
  }

  /** A vendor's invoice on day n whose earlier invoices all lie more than 90 days
      back raises a glean for that vendor and date. */
  lemma NotSeenComplete(s: seq<Invoice>, x: Invoice)
    requires x in s && Triggers(s, x.vendor, DayNumber(x.date))
    ensures exists g :: g in VendorNotSeenGleans(s) && g.vendor == x.vendor && g.date == x.date
  {
    var t := SortByKey(s);
    SortByKeyElements(s);
    var v, n := x.vendor, DayNumber(x.date);
    var k :| 0 <= k < |t| && t[k] == x;
    var y0 :| y0 in s && y0.vendor == v && DayNumber(y0.date) < n;
    var j0 :| 0 <= j0 < |t| && t[j0] == y0;
    var m := SortedComplete(t, k, j0);
    DayNumberOrder(t[m].date, x.date);
    var rows := GapColumn(t);
    var g := NotSeenRow(rows[m]).value;
    FilterMapMember(rows, NotSeenRow, g);
  }

  /** The rule in full: some glean is raised for vendor v on day n exactly when v
      has an invoice on day n and an earlier one, all earlier ones more than 90
      days back. In particular a vendor's earliest invoices never raise one. */
  lemma NotSeenIff(s: seq<Invoice>, v: VendorId, n: int)
    ensures (exists g :: g in VendorNotSeenGleans(s) && g.vendor == v && DayNumber(g.date) == n)
      <==> (exists x :: x in s && x.vendor == v && DayNumber(x.date) == n) && Triggers(s, v, n)
  {
    if exists g :: g in VendorNotSeenGleans(s) && g.vendor == v && DayNumber(g.date) == n {
      var g :| g in VendorNotSeenGleans(s) && g.vendor == v && DayNumber(g.date) == n;
      NotSeenSound(s, g);
    }
    if exists x :: x in s && x.vendor == v && DayNumber(x.date) == n {
      var x :| x in s && x.vendor == v && DayNumber(x.date) == n;
      if Triggers(s, v, n) {
        NotSeenComplete(s, x);
      }
    }
  }

  /** Of two rows of one vendor in the sorted frame, the later one raises a glean
      only if it lies more than 90 days after the earlier one: ties on a day give
      the later rows a gap of 0. */
  lemma GleanRowLater(t: seq<Invoice>, a: int, b: int)
    requires SortedByKey(t) && 0 <= a < b < |t| && GapDays(t, b) > MaxQuietDays
    ensures t[a].vendor == t[b].vendor ==> DayNumber(t[b].date) - DayNumber(t[a].date) > MaxQuietDays
  {
    if t[a].vendor == t[b].vendor {
      SortedGapFacts(t, b);
      if a < b - 1 {
        SameVendorOrdered(t, a, b - 1);
      }
    }
  }

  /** One glean per vendor and day: a vendor's gleans come in date order, more
      than 90 days apart, so no two of them share a vendor and a date. */
  lemma NotSeenOnePerDay(s: seq<Invoice>)
    ensures var gs := VendorNotSeenGleans(s);
      forall i, j :: 0 <= i < j < |gs| && gs[i].vendor == gs[j].vendor ==>
        DayNumber(gs[j].date) - DayNumber(gs[i].date) > MaxQuietDays
    ensures var gs := VendorNotSeenGleans(s);
      forall i, j :: 0 <= i < j < |gs| ==> (gs[i].vendor, gs[i].date) != (gs[j].vendor, gs[j].date)
  {
    var t := SortByKey(s);
    var rows := GapColumn(t);
    var gs := VendorNotSeenGleans(s);
    forall i, j | 0 <= i < j < |gs| && gs[i].vendor == gs[j].vendor
      ensures DayNumber(gs[j].date) - DayNumber(gs[i].date) > MaxQuietDays
    {
      var a, b := FilterMapOrder(rows, NotSeenRow, i, j);
      GleanRowLater(t, a, b);
    }
  }
}
