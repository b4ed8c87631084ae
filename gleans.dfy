/** `concat_gleans`: the outputs of the five detectors, concatenated in a fixed
    order and numbered from 0. */
module Gleans {
  import opened Records
  import VendorNotSeen
  import AccrualAlert
  import LargeMonthIncrease
  import NoInvoiceReceived

  datatype Result<T> = Success(value: T) | Failure(error: string)

  /** The gleans of the five detectors, in the order `glean1` to `glean5`. The
      three grid detectors fail on an empty invoice table (the earliest invoice
      date of no invoices is missing and has no first of the month), and so does
      the whole concatenation. */
  function AllGleans(invoices: seq<Invoice>, items: seq<LineItem>): (r: Result<seq<Glean>>)
    ensures r.Failure? <==> |invoices| == 0
  {
    if |invoices| == 0 then Failure("no invoices")
    else Success(
      VendorNotSeen.VendorNotSeenGleans(invoices)
      + AccrualAlert.AccrualAlertGleans(invoices, items)
      + LargeMonthIncrease.LargeMonthIncreaseGleans(invoices)
      + NoInvoiceReceived.NoInvoiceGleans(Monthly, invoices)
      + NoInvoiceReceived.NoInvoiceGleans(Quarterly, invoices))
  }

  /** The glean columns of numbered rows. */
  function Unnumbered(rows: seq<GleanRow>): (r: seq<Glean>)
    ensures |r| == |rows| && forall i :: 0 <= i < |rows| ==> r[i] == rows[i].glean
  {
    seq(|rows|, i requires 0 <= i < |rows| => rows[i].glean)
  }

  /** `reset_index(drop=True)` followed by `glean_id = index`: the rows keep their
      order and gleans, and row i gets id i, so the ids are distinct and increasing. */
  method NumberGleans(gleans: seq<Glean>) returns (rows: seq<GleanRow>)
    ensures Unnumbered(rows) == gleans
    ensures forall i :: 0 <= i < |rows| ==> rows[i].id == i
  {
    rows := [];
    var i := 0;
    while i < |gleans|
      invariant 0 <= i <= |gleans| && |rows| == i
      invariant forall k :: 0 <= k < i ==> rows[k].glean == gleans[k] && rows[k].id == k
    {
      rows := rows + [GleanRow(i, gleans[i])];
      i := i + 1;
    }
  }

  /** `concat_gleans()` on already-read records: the numbered gleans of the five
      detectors, or the failure of an empty invoice table. */
  method ConcatGleans(invoices: seq<Invoice>, items: seq<LineItem>) returns (r: Result<seq<GleanRow>>)
    ensures r.Failure? <==> |invoices| == 0
    ensures r.Success? ==> Unnumbered(r.value) == AllGleans(invoices, items).value
    ensures r.Success? ==> forall i :: 0 <= i < |r.value| ==> r.value[i].id == i
  {
    var all := AllGleans(invoices, items);
    if all.Failure? {
      return Failure(all.error);
    }
    var rows := NumberGleans(all.value);
    return Success(rows);
  }

  /** The glean type codes never decrease along a sequence. */
  predicate KindsInOrder(gs: seq<Glean>) {
    forall i, j :: 0 <= i < j < |gs| ==> gs[i].kind.Code() <= gs[j].kind.Code()
  }

  /** Appending gleans all of type k to gleans of type at most k keeps the types
      in order. */
  lemma AppendKind(a: seq<Glean>, b: seq<Glean>, k: int)
    requires KindsInOrder(a) && forall g :: g in a ==> g.kind.Code() <= k
    requires forall g :: g in b ==> g.kind.Code() == k
    ensures KindsInOrder(a + b) && forall g :: g in a + b ==> g.kind.Code() <= k
  {
    forall i, j | 0 <= i < j < |a + b| ensures (a + b)[i].kind.Code() <= (a + b)[j].kind.Code() {
      if j < |a| {
        assert (a + b)[i] == a[i] && (a + b)[j] == a[j];
      } else if i < |a| {
        assert (a + b)[i] == a[i] && (a + b)[i] in a;
        assert (a + b)[j] == b[j - |a|] && b[j - |a|] in b;
      } else {
        assert (a + b)[i] == b[i - |a|] && b[i - |a|] in b;
        assert (a + b)[j] == b[j - |a|] && b[j - |a|] in b;
      }
    }
  }

  /** The concatenation groups the gleans by type: first type 1, then 2, 3 and 4. */
  lemma GleansGroupedByKind(invoices: seq<Invoice>, items: seq<LineItem>)
    requires |invoices| > 0
    ensures KindsInOrder(AllGleans(invoices, items).value)
  {
    var g1 := VendorNotSeen.VendorNotSeenGleans(invoices);
    var g2 := AccrualAlert.AccrualAlertGleans(invoices, items);
    var g3 := LargeMonthIncrease.LargeMonthIncreaseGleans(invoices);
    var g4 := NoInvoiceReceived.NoInvoiceGleans(Monthly, invoices);
    var g5 := NoInvoiceReceived.NoInvoiceGleans(Quarterly, invoices);
    forall g | g in g1 ensures g.kind.Code() == 1 {
      VendorNotSeen.NotSeenSound(invoices, g);
    }
    forall g | g in g2 ensures g.kind.Code() == 2 {
      AccrualAlert.AccrualSound(invoices, items, g);
    }
    forall g | g in g3 ensures g.kind.Code() == 3 {
      var w, i := LargeMonthIncrease.GleanSource(invoices, g);
    }
    forall g | g in g4 ensures g.kind.Code() == 4 {
      NoInvoiceReceived.NoInvoiceSound(Monthly, invoices, g);
    }
    forall g | g in g5 ensures g.kind.Code() == 4 {
      NoInvoiceReceived.NoInvoiceSound(Quarterly, invoices, g);
    }
    AppendKind([], g1, 1);
    assert [] + g1 == g1;
    AppendKind(g1, g2, 2);
    AppendKind(g1 + g2, g3, 3);
    AppendKind(g1 + g2 + g3, g4, 4);
    AppendKind(g1 + g2 + g3 + g4, g5, 4);
  }

  /** The fixed columns of every glean: types 1 and 2 sit at the invoice and carry
      its id, types 3 and 4 sit at the vendor and carry none. */
  lemma GleanTags(invoices: seq<Invoice>, items: seq<LineItem>, g: Glean)
    requires |invoices| > 0 && g in AllGleans(invoices, items).value
    ensures 1 <= g.kind.Code() <= 4
    ensures g.kind.Code() <= 2 ==>
      (&& g.location.Code() == 1
       && exists x :: x in invoices && g.invoiceId == Some(x.id) && g.vendor == x.vendor && g.date == x.date)
    ensures g.kind.Code() >= 3 ==>
      (&& g.location.Code() == 2 && g.invoiceId.None?
       && exists x :: x in invoices && x.vendor == g.vendor)
  {
    var g1 := VendorNotSeen.VendorNotSeenGleans(invoices);
    var g2 := AccrualAlert.AccrualAlertGleans(invoices, items);
    var g3 := LargeMonthIncrease.LargeMonthIncreaseGleans(invoices);
    var g4 := NoInvoiceReceived.NoInvoiceGleans(Monthly, invoices);
    var g5 := NoInvoiceReceived.NoInvoiceGleans(Quarterly, invoices);
    assert g in g1 || g in g2 || g in g3 || g in g4 || g in g5;
    if g in g1 {
      VendorNotSeen.NotSeenSound(invoices, g);
    } else if g in g2 {
      AccrualAlert.AccrualSound(invoices, items, g);
    } else if g in g3 {
      var w, i := LargeMonthIncrease.GleanSource(invoices, g);
      VendorsMember(invoices, w);
    } else if g in g4 {
      NoInvoiceReceived.NoInvoiceSound(Monthly, invoices, g);
      VendorsMember(invoices, g.vendor);
    } else {
      NoInvoiceReceived.NoInvoiceSound(Quarterly, invoices, g);
      VendorsMember(invoices, g.vendor);
    }
  }
}
