/** Invoice creation's arithmetic in the v2 flow: the lines a challan turns
    into, the projected total credit control checks, the credit-limit rule
    itself, and the date filter of the party statement. */
module Billing {
  import opened Common
  import opened Records
  import opened Pricing
  import opened Totals

  /** Item rows keyed by their own id. */
  predicate Keyed(items: map<int, Item>)
  {
    forall id :: id in items ==> items[id].id == id
  }

  /** The invoice line a challan line becomes: priced afresh for the party. */
  function Repriced(invoiceId: int, it: Item, prices: PriceTable, partyId: int, qty: int): InvoiceLine
  {
    var pr := ApplyPartyPrice(prices, partyId, it);
    InvoiceLine(invoiceId, it.id, qty, pr.rate, it.gstPercent, pr.discountPercent)
  }

  /** The challan lines invoice creation copies: those whose item exists, in
      table order. */
  function Kept(dcLines: seq<ChallanLine>, items: map<int, Item>): (r: seq<ChallanLine>)
    ensures |r| <= |dcLines|
    ensures forall d :: d in r ==> d in dcLines && d.itemId in items
    ensures (forall j :: 0 <= j < |dcLines| ==> dcLines[j].itemId in items) ==> r == dcLines
  {
    if dcLines == [] then []
    else
      var dln := dcLines[|dcLines| - 1];
      var init := dcLines[..|dcLines| - 1];
      assert init + [dln] == dcLines;
      Kept(init, items) + (if dln.itemId in items then [dln] else [])
  }

  /** Every challan line whose item exists is copied. */
  lemma {:induction false} KeptMembers(dcLines: seq<ChallanLine>, items: map<int, Item>)
    ensures forall d :: d in Kept(dcLines, items) <==> d in dcLines && d.itemId in items
  {
    if dcLines != [] {
      var init := dcLines[..|dcLines| - 1];
      KeptMembers(init, items);
      assert dcLines == init + [dcLines[|dcLines| - 1]];
    }
  }

  /** The invoice lines written for challan lines `dcLines`: one per line whose
      item exists, in table order, with that line's item and qty and the
      party's price; lines of a missing item are skipped. */
  function Reprice(dcLines: seq<ChallanLine>, items: map<int, Item>, prices: PriceTable, partyId: int, invoiceId: int)
    : (r: seq<InvoiceLine>)
    requires Keyed(items)
    ensures |r| <= |dcLines|
    ensures forall l :: l in r ==>
      l.invoiceId == invoiceId && l.itemId in items
      && l.gstPercent == items[l.itemId].gstPercent
      && l.rate == ApplyPartyPrice(prices, partyId, items[l.itemId]).rate
      && l.discountPercent == ApplyPartyPrice(prices, partyId, items[l.itemId]).discountPercent
    ensures (forall j :: 0 <= j < |dcLines| ==> dcLines[j].itemId in items) ==> |r| == |dcLines|
  {
    if dcLines == [] then []
    else
      var dln := dcLines[|dcLines| - 1];
      Reprice(dcLines[..|dcLines| - 1], items, prices, partyId, invoiceId)
        + (if dln.itemId in items then [Repriced(invoiceId, items[dln.itemId], prices, partyId, dln.qty)] else [])
  }

  /** Invoice line j is challan line j of the copied ones, with its item and
      qty, repriced for the party. */
  lemma {:induction false} RepriceCopies(
    dcLines: seq<ChallanLine>, items: map<int, Item>, prices: PriceTable, partyId: int, invoiceId: int)
    requires Keyed(items)
    ensures var r := Reprice(dcLines, items, prices, partyId, invoiceId);
      var k := Kept(dcLines, items);
      |r| == |k|
      && forall j :: 0 <= j < |r| ==>
           k[j].itemId in items && r[j] == Repriced(invoiceId, items[k[j].itemId], prices, partyId, k[j].qty)
  {
    if dcLines != [] {
      var init := dcLines[..|dcLines| - 1];
      var dln := dcLines[|dcLines| - 1];
      RepriceCopies(init, items, prices, partyId, invoiceId);
      var r0 := Reprice(init, items, prices, partyId, invoiceId);
      var k0 := Kept(init, items);
      if dln.itemId in items {
        assert Kept(dcLines, items) == k0 + [dln];
        assert Reprice(dcLines, items, prices, partyId, invoiceId)
          == r0 + [Repriced(invoiceId, items[dln.itemId], prices, partyId, dln.qty)];
      } else {
        assert Kept(dcLines, items) == k0;
        assert Reprice(dcLines, items, prices, partyId, invoiceId) == r0;
      }
    }
  }

  /** Projected subtotal: qty x rate less discount, over the lines whose item exists. */
  function ProjectedSub(dcLines: seq<ChallanLine>, items: map<int, Item>, prices: PriceTable, partyId: int): real
  {
    if dcLines == [] then 0.0
    else
      var dln := dcLines[|dcLines| - 1];
      ProjectedSub(dcLines[..|dcLines| - 1], items, prices, partyId)
        + (if dln.itemId in items then ProjectedTaxable(dln, items[dln.itemId], prices, partyId) else 0.0)
  }

  /** Projected GST: each taxable amount at its item's GST rate. */
  function ProjectedGst(dcLines: seq<ChallanLine>, items: map<int, Item>, prices: PriceTable, partyId: int): real
  {
    if dcLines == [] then 0.0
    else
      var dln := dcLines[|dcLines| - 1];
      ProjectedGst(dcLines[..|dcLines| - 1], items, prices, partyId)
        + (if dln.itemId in items
           then ProjectedTaxable(dln, items[dln.itemId], prices, partyId) * (items[dln.itemId].gstPercent / 100.0)
           else 0.0)
  }

  function ProjectedTaxable(dln: ChallanLine, it: Item, prices: PriceTable, partyId: int): real
  {
    var pr := ApplyPartyPrice(prices, partyId, it);
    var amt := dln.qty as real * pr.rate;
    amt - amt * (pr.discountPercent / 100.0)
  }

  function Projected(dcLines: seq<ChallanLine>, items: map<int, Item>, prices: PriceTable, partyId: int): real
  {
    ProjectedSub(dcLines, items, prices, partyId) + ProjectedGst(dcLines, items, prices, partyId)
  }

  /** The challan line last in the walk, repriced: how `Reprice` ends. */
  lemma RepriceLast(
    dcLines: seq<ChallanLine>, items: map<int, Item>, prices: PriceTable, partyId: int, invoiceId: int)
    requires Keyed(items)
    requires dcLines != []
    ensures var dln := dcLines[|dcLines| - 1];
      var r0 := Reprice(dcLines[..|dcLines| - 1], items, prices, partyId, invoiceId);
      Reprice(dcLines, items, prices, partyId, invoiceId)
        == if dln.itemId in items then r0 + [Repriced(invoiceId, items[dln.itemId], prices, partyId, dln.qty)] else r0
  {
  }

  lemma {:induction false} ProjectedSubIsSubtotal(
    dcLines: seq<ChallanLine>, items: map<int, Item>, prices: PriceTable, partyId: int, invoiceId: int)
    requires Keyed(items)
    ensures ProjectedSub(dcLines, items, prices, partyId) == Subtotal(Reprice(dcLines, items, prices, partyId, invoiceId))
  {
    if dcLines != [] {
      var init := dcLines[..|dcLines| - 1];
      var dln := dcLines[|dcLines| - 1];
      ProjectedSubIsSubtotal(init, items, prices, partyId, invoiceId);
      RepriceLast(dcLines, items, prices, partyId, invoiceId);
      var r0 := Reprice(init, items, prices, partyId, invoiceId);
      if dln.itemId in items {
        var l := Repriced(invoiceId, items[dln.itemId], prices, partyId, dln.qty);
        SumsAppend(r0, l);
        RepricedTaxable(invoiceId, dln, items[dln.itemId], prices, partyId);
      }
    }
  }

  /** A repriced line's taxable amount and GST rate are those projected for
      its challan line. */
  lemma RepricedTaxable(invoiceId: int, dln: ChallanLine, it: Item, prices: PriceTable, partyId: int)
    ensures var l := Repriced(invoiceId, it, prices, partyId, dln.qty);
      Taxable(l) == ProjectedTaxable(dln, it, prices, partyId) && l.gstPercent == it.gstPercent
  {
  }

  lemma {:induction false} ProjectedGstIsGst(
    dcLines: seq<ChallanLine>, items: map<int, Item>, prices: PriceTable, partyId: int, invoiceId: int)
    requires Keyed(items)
    ensures ProjectedGst(dcLines, items, prices, partyId) == Gst(Reprice(dcLines, items, prices, partyId, invoiceId))
  {
    if dcLines != [] {
      var init := dcLines[..|dcLines| - 1];
      var dln := dcLines[|dcLines| - 1];
      ProjectedGstIsGst(init, items, prices, partyId, invoiceId);
      RepriceLast(dcLines, items, prices, partyId, invoiceId);
      var r0 := Reprice(init, items, prices, partyId, invoiceId);
      if dln.itemId in items {
        var it := items[dln.itemId];
        var l := Repriced(invoiceId, it, prices, partyId, dln.qty);
        SumsAppend(r0, l);
        RepricedTaxable(invoiceId, dln, it, prices, partyId);
      }
    }
  }

  /** The projected figures are the unrounded subtotal and GST of the very
      lines invoice creation then writes. */
  lemma ProjectionIsInvoiceTotal(
    dcLines: seq<ChallanLine>, items: map<int, Item>, prices: PriceTable, partyId: int, invoiceId: int)
    requires Keyed(items)
    ensures ProjectedSub(dcLines, items, prices, partyId) == Subtotal(Reprice(dcLines, items, prices, partyId, invoiceId))
    ensures ProjectedGst(dcLines, items, prices, partyId) == Gst(Reprice(dcLines, items, prices, partyId, invoiceId))
    ensures Projected(dcLines, items, prices, partyId) == RawTotal(Reprice(dcLines, items, prices, partyId, invoiceId))
  {
    ProjectedSubIsSubtotal(dcLines, items, prices, partyId, invoiceId);
    ProjectedGstIsGst(dcLines, items, prices, partyId, invoiceId);
  }

  /** The projected total of invoice_create: the same walk over the challan
      lines that invoice_totals makes over invoice lines. */
  method ProjectedTotal(dcLines: seq<ChallanLine>, items: map<int, Item>, prices: PriceTable, partyId: int)
    returns (total: real)
    requires Keyed(items)
    ensures total == Projected(dcLines, items, prices, partyId)
    ensures forall invoiceId :: total == RawTotal(Reprice(dcLines, items, prices, partyId, invoiceId))
  {
    var sub, gst := 0.0, 0.0;
    var i := 0;
    while i < |dcLines|
      invariant 0 <= i <= |dcLines|
      invariant sub == ProjectedSub(dcLines[..i], items, prices, partyId)
      invariant gst == ProjectedGst(dcLines[..i], items, prices, partyId)
    {
      var dln := dcLines[i];
      assert dcLines[..i + 1][..i] == dcLines[..i];
      if dln.itemId in items {
        var it := items[dln.itemId];
        var pr := ApplyPartyPrice(prices, partyId, it);
        var amt := dln.qty as real * pr.rate;
        var discAmt := amt * (pr.discountPercent / 100.0);
        var taxable := amt - discAmt;
        sub := sub + taxable;
        gst := gst + taxable * (it.gstPercent / 100.0);
      }
      i := i + 1;
    }
    assert dcLines[..i] == dcLines;
    total := sub + gst;
    forall invoiceId
      ensures total == RawTotal(Reprice(dcLines, items, prices, partyId, invoiceId))
    {
      ProjectionIsInvoiceTotal(dcLines, items, prices, partyId, invoiceId);
    }
  }

  // ---------------------------------------------------------------------
  // Credit limit

  /** The credit-limit rule: a limit of zero means no limit; any other limit
      (even a negative one) refuses an invoice that would take the party
      beyond it, reporting the limit, the outstanding and the rounded invoice. */
  function CreditCheck(limit: real, outstanding: real, projected: real): (r: Option<Failure>)
    ensures r.Some? <==> limit != 0.0 && outstanding + projected > limit
    ensures r.Some? ==> r.value == CreditLimitExceeded(limit, outstanding, Round2(projected))
  {
    if limit != 0.0 && outstanding + projected > limit then
      Some(CreditLimitExceeded(limit, outstanding, Round2(projected)))
    else None
  }

  /** A limit of 1000 with 800 outstanding refuses an invoice of 300 and
      accepts one of 150. */
  lemma CreditExample()
    ensures CreditCheck(1000.0, 800.0, 300.0) == Some(CreditLimitExceeded(1000.0, 800.0, 300.0))
    ensures CreditCheck(1000.0, 800.0, 150.0) == None
  {
    Round2Paise(30000);
  }

  /** Staying within the limit never trips the check, and a zero limit never does. */
  lemma WithinLimitPasses(limit: real, outstanding: real, projected: real)
    requires limit == 0.0 || outstanding + projected <= limit
    ensures CreditCheck(limit, outstanding, projected) == None
  {
  }

  // ---------------------------------------------------------------------
  // Statement date range

  /** Inside the optional, inclusive [from, to] range of the statement. */
  predicate WithinDates(iv: Invoice, fromDate: Option<int>, toDate: Option<int>)
  {
    (fromDate.None? || iv.invoiceDate >= fromDate.value)
    && (toDate.None? || iv.invoiceDate <= toDate.value)
  }

  /** The invoices a statement shows, in table order; `InRangeMembers`
      states which they are. */
  function InRange(invs: seq<Invoice>, fromDate: Option<int>, toDate: Option<int>): (r: seq<Invoice>)
    ensures |r| <= |invs|
  {
    if invs == [] then []
    else
      var iv := invs[|invs| - 1];
      InRange(invs[..|invs| - 1], fromDate, toDate) + (if WithinDates(iv, fromDate, toDate) then [iv] else [])
  }

  /** The statement shows exactly the invoices dated within the range. */
  lemma {:induction false} InRangeMembers(invs: seq<Invoice>, fromDate: Option<int>, toDate: Option<int>)
    ensures forall iv :: iv in InRange(invs, fromDate, toDate) <==> iv in invs && WithinDates(iv, fromDate, toDate)
  {
    if invs != [] {
      var init := invs[..|invs| - 1];
      InRangeMembers(init, fromDate, toDate);
      assert invs == init + [invs[|invs| - 1]];
    }
  }

  /** Extending the walk by one invoice adds it exactly when it is in range. */
  lemma InRangeStep(invs: seq<Invoice>, i: int, fromDate: Option<int>, toDate: Option<int>)
    requires 0 <= i < |invs|
    ensures InRange(invs[..i + 1], fromDate, toDate)
      == if WithinDates(invs[i], fromDate, toDate) then InRange(invs[..i], fromDate, toDate) + [invs[i]]
         else InRange(invs[..i], fromDate, toDate)
  {
    assert invs[..i + 1][..i] == invs[..i];
    if !WithinDates(invs[i], fromDate, toDate) {
      assert InRange(invs[..i], fromDate, toDate) + [] == InRange(invs[..i], fromDate, toDate);
    }
  }

  /** With no bounds a statement covers every invoice of the party. */
  lemma {:induction false} UnboundedRangeIsAll(invs: seq<Invoice>)
    ensures InRange(invs, None, None) == invs
  {
    if invs != [] {
      UnboundedRangeIsAll(invs[..|invs| - 1]);
      assert invs[..|invs| - 1] + [invs[|invs| - 1]] == invs;
    }
  }
}
