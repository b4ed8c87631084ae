/** `accrual_alert`: the latest period end over an invoice and its line items,
    compared with the invoice date. */
module AccrualAlert {
  import opened Dates
  import opened Records
  import opened Seqs

  /** The longest distance, in days, from invoice date to period end that raises no glean. */
  const MaxCoverDays := 90

  /** The later of two optional dates; a missing date (NaT) is skipped, as
      `max(axis=1)` and `agg('max')` skip it. */
  function Later(a: Option<Date>, b: Option<Date>): Option<Date> {
    match (a, b)
    case (None, _) => b
    case (_, None) => a
    case (Some(x), Some(y)) => if DayNumber(x) < DayNumber(y) then b else a
  }

  /** The latest of a column of optional dates; None when all are missing. */
  function Latest(ds: seq<Option<Date>>): (r: Option<Date>)
    ensures r.None? <==> forall i :: 0 <= i < |ds| ==> ds[i].None?
    ensures r.Some? ==> r in ds
    ensures r.Some? ==> forall i :: 0 <= i < |ds| && ds[i].Some? ==> DayNumber(ds[i].value) <= DayNumber(r.value)
  {
    if ds == [] then None
    else
      var rest := Latest(ds[1..]);
      assert forall i :: 1 <= i < |ds| ==> ds[i] == ds[1..][i - 1];
      Later(ds[0], rest)
  }

  /** The period-end column of the left merge of the invoices with the line items,
      restricted to one invoice id: the invoice rows' own period ends, then the
      line items' (an invoice without line items contributes a missing value). */
  function EndCandidates(invoices: seq<Invoice>, items: seq<LineItem>, id: InvoiceId): seq<Option<Date>> {
    InvoiceEnds(invoices, id) + ItemEnds(items, id)
  }

  function InvoiceEnds(invoices: seq<Invoice>, id: InvoiceId): (r: seq<Option<Date>>)
    ensures forall e :: Some(e) in r <==> exists x :: x in invoices && x.id == id && x.periodEnd == Some(e)
  {
    if invoices == [] then []
    else (if invoices[0].id == id then [invoices[0].periodEnd] else []) + InvoiceEnds(invoices[1..], id)
  }

  function ItemEnds(items: seq<LineItem>, id: InvoiceId): (r: seq<Option<Date>>)
    ensures forall e :: Some(e) in r <==> exists li :: li in items && li.invoiceId == id && li.periodEnd == Some(e)
  {
    if items == [] then []
    else (if items[0].invoiceId == id then [items[0].periodEnd] else []) + ItemEnds(items[1..], id)
  }

  /** `latest_period_end_date` of `end_dates`, for one invoice id. */
  function LatestPeriodEnd(invoices: seq<Invoice>, items: seq<LineItem>, id: InvoiceId): Option<Date> {
    Latest(EndCandidates(invoices, items, id))
  }

  /** The period ends an invoice id covers: those of its invoice rows and of its line items. */
  ghost predicate CoveredEnd(invoices: seq<Invoice>, items: seq<LineItem>, id: InvoiceId, e: Date) {
    (exists x :: x in invoices && x.id == id && x.periodEnd == Some(e))
    || (exists li :: li in items && li.invoiceId == id && li.periodEnd == Some(e))
  }

  /** The latest period end is a covered end, and no covered end is later. */
  lemma LatestPeriodEndIsMaximum(invoices: seq<Invoice>, items: seq<LineItem>, id: InvoiceId)
    ensures var r := LatestPeriodEnd(invoices, items, id);
      && (r.None? <==> forall e :: !CoveredEnd(invoices, items, id, e))
      && (r.Some? ==> CoveredEnd(invoices, items, id, r.value))
      && (r.Some? ==> forall e :: CoveredEnd(invoices, items, id, e) ==> DayNumber(e) <= DayNumber(r.value))
  {
    var cs := EndCandidates(invoices, items, id);
    var r := Latest(cs);
    forall e ensures CoveredEnd(invoices, items, id, e) <==> Some(e) in cs {
      assert Some(e) in cs <==> Some(e) in InvoiceEnds(invoices, id) || Some(e) in ItemEnds(items, id);
    }
    if r.None? {
      forall e ensures !CoveredEnd(invoices, items, id, e) {
        assert Some(e) !in cs;
      }
    } else {
      forall e | CoveredEnd(invoices, items, id, e) ensures DayNumber(e) <= DayNumber(r.value) {
        var i :| 0 <= i < |cs| && cs[i] == Some(e);
      }
    }
  }

  /** A row of `invoice.merge(end_dates, on='invoice_id')`. */
  datatype EndRow = EndRow(invoice: Invoice, latestEnd: Option<Date>)

  /** The merge: every invoice row, in input order, with its id's latest period end. */
  function EndDateColumn(invoices: seq<Invoice>, items: seq<LineItem>): (r: seq<EndRow>)
    ensures |r| == |invoices|
    ensures forall i :: 0 <= i < |r| ==> r[i] == EndRow(invoices[i], LatestPeriodEnd(invoices, items, invoices[i].id))
  {
    seq(|invoices|, i requires 0 <= i < |invoices| => EndRow(invoices[i], LatestPeriodEnd(invoices, items, invoices[i].id)))
  }

  /** The row function: a glean dated on the invoice when the latest period end
      lies more than 90 days after the invoice date. */
  function AccrualRow(row: EndRow): Option<Glean> {
    match row.latestEnd
    case Some(e) =>
      var x := row.invoice;
      if DayNumber(e) - DayNumber(x.date) > MaxCoverDays then
        Some(Glean(x.date, FuturePeriods(x.vendor, e), AccrualAlert, AtInvoice, Some(x.id), x.vendor))
      else None
    case None => None
  }

  /** `accrual_alert(invoice, line_item)`: the gleans in input invoice order. */
  function AccrualAlertGleans(invoices: seq<Invoice>, items: seq<LineItem>): (r: seq<Glean>)
    ensures |r| <= |invoices|
  {
    FilterMap(EndDateColumn(invoices, items), AccrualRow)
  }

  /** The invoice (or one of its line items) covers a period ending more than 90
      days after the invoice date. */
  ghost predicate CoversFuture(invoices: seq<Invoice>, items: seq<LineItem>, x: Invoice) {
    exists e :: CoveredEnd(invoices, items, x.id, e) && DayNumber(e) - DayNumber(x.date) > MaxCoverDays
  }

  /** The rule in full: an accrual glean is raised for an invoice exactly when
      some period it covers ends more than 90 days after its date; the glean
      names the latest such end. An invoice with no line items is judged on its
      own period end, and one with no period end at all never raises one. */
  lemma AccrualIff(invoices: seq<Invoice>, items: seq<LineItem>, x: Invoice)
    requires x in invoices
    ensures (exists g :: g in AccrualAlertGleans(invoices, items) && g.invoiceId == Some(x.id) && g.date == x.date)
      <==> CoversFuture(invoices, items, x)
  {
    if exists g :: g in AccrualAlertGleans(invoices, items) && g.invoiceId == Some(x.id) && g.date == x.date {
      var g :| g in AccrualAlertGleans(invoices, items) && g.invoiceId == Some(x.id) && g.date == x.date;
      GleanCoversFuture(invoices, items, x, g);
    }
    if CoversFuture(invoices, items, x) {
      CoversFutureGlean(invoices, items, x);
    }
  }

  /** A glean for the invoice means a period it covers ends over 90 days on. */
  lemma GleanCoversFuture(invoices: seq<Invoice>, items: seq<LineItem>, x: Invoice, g: Glean)
    requires g in AccrualAlertGleans(invoices, items) && g.invoiceId == Some(x.id) && g.date == x.date
    ensures CoversFuture(invoices, items, x)
  {
    var rows := EndDateColumn(invoices, items);
    LatestPeriodEndIsMaximum(invoices, items, x.id);
    FilterMapMember(rows, AccrualRow, g);
    var i :| 0 <= i < |rows| && AccrualRow(rows[i]) == Some(g);
    assert invoices[i].id == x.id;
  }

  /** A period ending over 90 days after the invoice date raises a glean for its row. */
  lemma CoversFutureGlean(invoices: seq<Invoice>, items: seq<LineItem>, x: Invoice)
    requires x in invoices && CoversFuture(invoices, items, x)
    ensures exists g :: g in AccrualAlertGleans(invoices, items) && g.invoiceId == Some(x.id) && g.date == x.date
  {
    var rows := EndDateColumn(invoices, items);
    var e :| CoveredEnd(invoices, items, x.id, e) && DayNumber(e) - DayNumber(x.date) > MaxCoverDays;
    var r := LatestPeriodEnd(invoices, items, x.id);
    LatestPeriodEndIsMaximum(invoices, items, x.id);
    assert r.Some? && DayNumber(e) <= DayNumber(r.value);
    var i :| 0 <= i < |invoices| && invoices[i] == x;
    assert rows[i] == EndRow(x, r);
    var g := AccrualRow(rows[i]).value;
    FilterMapMember(rows, AccrualRow, g);
    assert g in AccrualAlertGleans(invoices, items) && g.invoiceId == Some(x.id) && g.date == x.date;
  }

  /** Every accrual glean is an invoice-level glean of type 2 whose text names the
      invoice's latest covered period end. */
  lemma AccrualSound(invoices: seq<Invoice>, items: seq<LineItem>, g: Glean)
    requires g in AccrualAlertGleans(invoices, items)
    ensures g.kind.Code() == 2 && g.location.Code() == 1 && g.text.FuturePeriods?
    ensures exists x :: (x in invoices && g.invoiceId == Some(x.id) && g.vendor == x.vendor && g.date == x.date
      && LatestPeriodEnd(invoices, items, x.id) == Some(g.text.through)
      && DayNumber(g.text.through) - DayNumber(x.date) > MaxCoverDays)
  {
    var rows := EndDateColumn(invoices, items);
    FilterMapMember(rows, AccrualRow, g);
    var i :| 0 <= i < |rows| && AccrualRow(rows[i]) == Some(g);
    var x := invoices[i];
    assert rows[i] == EndRow(x, LatestPeriodEnd(invoices, items, x.id));
    assert x in invoices;
  }

  /** One glean per invoice row: of two gleans, the earlier belongs to an
      earlier invoice row, and each carries its row's id, vendor and date. */
  lemma AccrualOnePerRow(invoices: seq<Invoice>, items: seq<LineItem>, i: int, j: int) returns (a: nat, b: nat)
    requires 0 <= i < j < |AccrualAlertGleans(invoices, items)|
    ensures a < b < |invoices|
    ensures var gs := AccrualAlertGleans(invoices, items);
      && gs[i].invoiceId == Some(invoices[a].id) && gs[i].vendor == invoices[a].vendor && gs[i].date == invoices[a].date
      && gs[j].invoiceId == Some(invoices[b].id) && gs[j].vendor == invoices[b].vendor && gs[j].date == invoices[b].date
  {
    var rows := EndDateColumn(invoices, items);
    a, b := FilterMapOrder(rows, AccrualRow, i, j);
  }
}
