/** The typed records the detectors read and the glean rows they produce. */
module Records {
  import opened Dates

  datatype Option<+T> = None | Some(value: T)

  type VendorId = string
  type InvoiceId = string

  /** An invoice row: the columns of invoice.csv that the rules read.
      `periodEnd` is None where the pandas column holds NaT. */
  datatype Invoice = Invoice(
    id: InvoiceId,
    vendor: VendorId,
    date: Date,
    total: real,
    periodEnd: Option<Date>)

  /** A line-item row: its owning invoice and the end of the period it covers. */
  datatype LineItem = LineItem(
    id: string,
    invoiceId: InvoiceId,
    periodEnd: Option<Date>)

  /** The period a no-invoice rule works in. */
  datatype Cadence = Monthly | Quarterly

  /** The glean text, as the values its format string is filled from. */
  datatype GleanText =
    | FirstNewBill(gapDays: int, vendor: VendorId)
    | FuturePeriods(vendor: VendorId, through: Date)
    | MonthlySpendHigher(vendor: VendorId, total: real, average: real)
    | NotReceived(vendor: VendorId, mostFrequentDay: int, cadence: Cadence, on: Date)

  datatype GleanType = VendorNotSeen | AccrualAlert | LargeMonthIncrease | NoInvoiceReceived
  {
    /** The integer written to the `glean_type` column. */
    function Code(): (c: int)
      ensures 1 <= c <= 4
    {
      match this
      case VendorNotSeen => 1
      case AccrualAlert => 2
      case LargeMonthIncrease => 3
      case NoInvoiceReceived => 4
    }
  }

  datatype Location = AtInvoice | AtVendor
  {
    /** The integer written to the `glean_location` column. */
    function Code(): (c: int)
      ensures 1 <= c <= 2
    {
      match this
      case AtInvoice => 1
      case AtVendor => 2
    }
  }

  /** One output row before numbering. */
  datatype Glean = Glean(
    date: Date,
    text: GleanText,
    kind: GleanType,
    location: Location,
    invoiceId: Option<InvoiceId>,
    vendor: VendorId)

  /** One output row of output.csv. */
  datatype GleanRow = GleanRow(id: nat, glean: Glean)

  /** The `canonical_vendor_id` column, in row order. */
  function Vendors(invoices: seq<Invoice>): (r: seq<VendorId>)
    ensures |r| == |invoices|
    ensures forall i :: 0 <= i < |invoices| ==> r[i] == invoices[i].vendor
  {
    seq(|invoices|, i requires 0 <= i < |invoices| => invoices[i].vendor)
  }

  lemma VendorsMember(invoices: seq<Invoice>, v: VendorId)
    ensures v in Vendors(invoices) <==> exists x :: x in invoices && x.vendor == v
  {
    var r := Vendors(invoices);
    if v in r {
      var i :| 0 <= i < |r| && r[i] == v;
      assert invoices[i] in invoices;
    }
    if exists x :: x in invoices && x.vendor == v {
      var x :| x in invoices && x.vendor == v;
      var i :| 0 <= i < |invoices| && invoices[i] == x;
      assert r[i] == v;
    }
  }
}
