/** The financial aggregator: invoice totals from lines and payments, the
    invoice status derived from them, and a party's outstanding and overdue
    balances. */
module Totals {
  import opened Common
  import opened Records

  /** The five figures of an invoice, each rounded to paise. */
  datatype Totals = Totals(subtotal: real, gst: real, total: real, paid: real, balance: real)

  /** outstanding and overdue, each rounded to paise */
  datatype Summary = Summary(outstanding: real, overdue: real)

  // ---------------------------------------------------------------------
  // Queries: the rows a `select ... where <id> == ...` returns, in table order.

  function LinesOf(lines: seq<InvoiceLine>, invoiceId: int): (r: seq<InvoiceLine>)
    ensures forall l :: l in r <==> l in lines && l.invoiceId == invoiceId
  {
    if lines == [] then []
    else
      var last := lines[|lines| - 1];
      LinesOf(lines[..|lines| - 1], invoiceId) + (if last.invoiceId == invoiceId then [last] else [])
  }

  function PaymentsOf(payments: seq<Payment>, invoiceId: int): (r: seq<Payment>)
    ensures forall p :: p in r <==> p in payments && p.invoiceId == invoiceId
  {
    if payments == [] then []
    else
      var last := payments[|payments| - 1];
      PaymentsOf(payments[..|payments| - 1], invoiceId) + (if last.invoiceId == invoiceId then [last] else [])
  }

  function InvoicesOf(invoices: seq<Invoice>, partyId: int): (r: seq<Invoice>)
    ensures forall iv :: iv in r <==> iv in invoices && iv.partyId == partyId
  {
    if invoices == [] then []
    else
      var last := invoices[|invoices| - 1];
      InvoicesOf(invoices[..|invoices| - 1], partyId) + (if last.partyId == partyId then [last] else [])
  }

  // ---------------------------------------------------------------------
  // Unrounded sums over a list of lines (services.py invoice_totals)

  function LineAmount(l: InvoiceLine): real
  {
    l.qty as real * l.rate
  }

  /** qty x rate less its discount percentage */
  function Taxable(l: InvoiceLine): real
  {
    LineAmount(l) - LineAmount(l) * (l.discountPercent / 100.0)
  }

  function Subtotal(ls: seq<InvoiceLine>): real
  {
    if ls == [] then 0.0 else Subtotal(ls[..|ls| - 1]) + Taxable(ls[|ls| - 1])
  }

  function Gst(ls: seq<InvoiceLine>): real
  {
    if ls == [] then 0.0
    else Gst(ls[..|ls| - 1]) + Taxable(ls[|ls| - 1]) * (ls[|ls| - 1].gstPercent / 100.0)
  }

  /** Subtotal plus GST before any rounding. */
  function RawTotal(ls: seq<InvoiceLine>): real
  {
    Subtotal(ls) + Gst(ls)
  }

  function PaidSum(ps: seq<Payment>): real
  {
    if ps == [] then 0.0 else PaidSum(ps[..|ps| - 1]) + ps[|ps| - 1].amount
  }

  /** The figures of an invoice with lines `ls` and payments `ps`: sums are
      taken unrounded, and only the five results are rounded. */
  function TotalsOf(ls: seq<InvoiceLine>, ps: seq<Payment>): Totals
  {
    Totals(
      Round2(Subtotal(ls)),
      Round2(Gst(ls)),
      Round2(RawTotal(ls)),
      Round2(PaidSum(ps)),
      Round2(RawTotal(ls) - PaidSum(ps)))
  }

  /** What the five figures say: no lines give zero sums, no payments leave
      the whole total due, and the balance is positive only while less than
      the total has been paid. */
  lemma TotalsFigures(ls: seq<InvoiceLine>, ps: seq<Payment>)
    ensures var t := TotalsOf(ls, ps);
      (ls == [] ==> t.subtotal == 0.0 && t.gst == 0.0 && t.total == 0.0)
      && (ps == [] ==> t.paid == 0.0 && t.balance == t.total)
      && (PaidSum(ps) >= RawTotal(ls) ==> t.balance <= 0.0)
      && (PaidSum(ps) <= RawTotal(ls) ==> t.balance >= 0.0)
  {
    Round2Sign(0.0);
    Round2Sign(RawTotal(ls) - PaidSum(ps));
  }

  function InvoiceTotalsOf(lines: seq<InvoiceLine>, payments: seq<Payment>, invoiceId: int): Totals
  {
    TotalsOf(LinesOf(lines, invoiceId), PaymentsOf(payments, invoiceId))
  }

  lemma SumsStep(ls: seq<InvoiceLine>, i: int, taxable: real)
    requires 0 <= i < |ls| && taxable == Taxable(ls[i])
    ensures Subtotal(ls[..i + 1]) == Subtotal(ls[..i]) + taxable
    ensures Gst(ls[..i + 1]) == Gst(ls[..i]) + taxable * (ls[i].gstPercent / 100.0)
  {
    assert ls[..i + 1][..i] == ls[..i];
  }

  /** One more line adds its taxable amount to the subtotal and its GST to the GST. */
  lemma SumsAppend(ls: seq<InvoiceLine>, l: InvoiceLine)
    ensures Subtotal(ls + [l]) == Subtotal(ls) + Taxable(l)
    ensures Gst(ls + [l]) == Gst(ls) + Taxable(l) * (l.gstPercent / 100.0)
  {
    assert (ls + [l])[..|ls|] == ls;
  }

  /** `invoice_totals` of services.py: accumulates subtotal and GST over the
      invoice's lines, then sums its payments. */
  method InvoiceTotals(lines: seq<InvoiceLine>, payments: seq<Payment>, invoiceId: int) returns (t: Totals)
    ensures t == InvoiceTotalsOf(lines, payments, invoiceId)
  {
    var ls := LinesOf(lines, invoiceId);
    var subtotal, gst := 0.0, 0.0;
    var i := 0;
    while i < |ls|
      invariant 0 <= i <= |ls|
      invariant subtotal == Subtotal(ls[..i])
      invariant gst == Gst(ls[..i])
    {
      var ln := ls[i];
      var amt := LineAmount(ln);
      var discAmt := amt * (ln.discountPercent / 100.0);
      var taxable := amt - discAmt;
      var lineGst := taxable * (ln.gstPercent / 100.0);
      SumsStep(ls, i, taxable);
      subtotal := subtotal + taxable;
      gst := gst + lineGst;
      i := i + 1;
    }
    assert ls[..i] == ls;
    assert subtotal == Subtotal(ls) && gst == Gst(ls);
    var total := subtotal + gst;
    var paid := PaidSum(PaymentsOf(payments, invoiceId));
    var balance := total - paid;
    t := Totals(Round2(subtotal), Round2(gst), Round2(total), Round2(paid), Round2(balance));
  }

  /** An invoice with no lines and no payments has all five figures zero. */
  lemma EmptyInvoiceIsZero(lines: seq<InvoiceLine>, payments: seq<Payment>, invoiceId: int)
    requires forall l :: l in lines ==> l.invoiceId != invoiceId
    requires forall p :: p in payments ==> p.invoiceId != invoiceId
    ensures InvoiceTotalsOf(lines, payments, invoiceId) == Totals(0.0, 0.0, 0.0, 0.0, 0.0)
  {
    Round2Sign(0.0);
  }

  /** The sum of qty x rate over the lines. */
  function Gross(ls: seq<InvoiceLine>): real
  {
    if ls == [] then 0.0 else Gross(ls[..|ls| - 1]) + LineAmount(ls[|ls| - 1])
  }

  /** With every discount and every GST rate at zero, the total is the sum of qty x rate. */
  lemma {:induction false} NoDiscountNoGstTotal(ls: seq<InvoiceLine>)
    requires forall l :: l in ls ==> l.discountPercent == 0.0 && l.gstPercent == 0.0
    ensures Subtotal(ls) == Gross(ls) && Gst(ls) == 0.0
    ensures RawTotal(ls) == Gross(ls)
  {
    if ls != [] {
      var init := ls[..|ls| - 1];
      assert forall l :: l in init ==> l in ls;
      NoDiscountNoGstTotal(init);
      assert ls[|ls| - 1] in ls;
    }
  }

  /** A payment changes `paid` exactly when it is for this invoice, and by its amount. */
  lemma PaidCountsOwnPaymentsOnly(payments: seq<Payment>, p: Payment, invoiceId: int)
    ensures PaidSum(PaymentsOf(payments + [p], invoiceId))
            == PaidSum(PaymentsOf(payments, invoiceId)) + (if p.invoiceId == invoiceId then p.amount else 0.0)
  {
    assert (payments + [p])[..|payments|] == payments;
    var own := PaymentsOf(payments, invoiceId);
    if p.invoiceId == invoiceId {
      assert (own + [p])[..|own|] == own;
    } else {
      assert own + [] == own;
    }
  }

  // ---------------------------------------------------------------------
  // app.py invoice_totals: the older schema has no discount column

  function LegacyLinesOf(lines: seq<LegacyInvoiceLine>, invoiceId: int): (r: seq<LegacyInvoiceLine>)
    ensures forall l :: l in r <==> l in lines && l.invoiceId == invoiceId
  {
    if lines == [] then []
    else
      var last := lines[|lines| - 1];
      LegacyLinesOf(lines[..|lines| - 1], invoiceId) + (if last.invoiceId == invoiceId then [last] else [])
  }

  function LegacyLineAmount(l: LegacyInvoiceLine): real
  {
    l.qty as real * l.rate
  }

  function LegacySubtotal(ls: seq<LegacyInvoiceLine>): real
  {
    if ls == [] then 0.0 else LegacySubtotal(ls[..|ls| - 1]) + LegacyLineAmount(ls[|ls| - 1])
  }

  function LegacyGst(ls: seq<LegacyInvoiceLine>): real
  {
    if ls == [] then 0.0
    else LegacyGst(ls[..|ls| - 1]) + LegacyLineAmount(ls[|ls| - 1]) * (ls[|ls| - 1].gstPercent / 100.0)
  }

  function LegacyTotalsOf(ls: seq<LegacyInvoiceLine>, ps: seq<Payment>): Totals
  {
    var sub, gst := LegacySubtotal(ls), LegacyGst(ls);
    Totals(Round2(sub), Round2(gst), Round2(sub + gst), Round2(PaidSum(ps)), Round2(sub + gst - PaidSum(ps)))
  }

  function LegacyInvoiceTotalsOf(lines: seq<LegacyInvoiceLine>, payments: seq<Payment>, invoiceId: int): Totals
  {
    LegacyTotalsOf(LegacyLinesOf(lines, invoiceId), PaymentsOf(payments, invoiceId))
  }

  lemma LegacySumsStep(ls: seq<LegacyInvoiceLine>, i: int)
    requires 0 <= i < |ls|
    ensures LegacySubtotal(ls[..i + 1]) == LegacySubtotal(ls[..i]) + LegacyLineAmount(ls[i])
    ensures LegacyGst(ls[..i + 1]) == LegacyGst(ls[..i]) + LegacyLineAmount(ls[i]) * (ls[i].gstPercent / 100.0)
  {
    assert ls[..i + 1][..i] == ls[..i];
  }

  /** `invoice_totals` of app.py. */
  method LegacyInvoiceTotals(lines: seq<LegacyInvoiceLine>, payments: seq<Payment>, invoiceId: int) returns (t: Totals)
    ensures t == LegacyInvoiceTotalsOf(lines, payments, invoiceId)
  {
    var ls := LegacyLinesOf(lines, invoiceId);
    var subtotal, gst := 0.0, 0.0;
    var i := 0;
    while i < |ls|
      invariant 0 <= i <= |ls|
      invariant subtotal == LegacySubtotal(ls[..i])
      invariant gst == LegacyGst(ls[..i])
    {
      var ln := ls[i];
      LegacySumsStep(ls, i);
      var lineAmount := LegacyLineAmount(ln);
      subtotal := subtotal + lineAmount;
      gst := gst + lineAmount * (ln.gstPercent / 100.0);
      i := i + 1;
    }
    assert ls[..i] == ls;
    var total := subtotal + gst;
    var paidAmt := PaidSum(PaymentsOf(payments, invoiceId));
    var balance := total - paidAmt;
    t := Totals(Round2(subtotal), Round2(gst), Round2(total), Round2(paidAmt), Round2(balance));
  }

  /** An older-schema line read as a v2 line with discount 0. */
  function AsUndiscounted(l: LegacyInvoiceLine): InvoiceLine
  {
    InvoiceLine(l.invoiceId, l.itemId, l.qty, l.rate, l.gstPercent, 0.0)
  }

  function AllUndiscounted(ls: seq<LegacyInvoiceLine>): (r: seq<InvoiceLine>)
    ensures |r| == |ls|
    ensures forall j :: 0 <= j < |ls| ==> r[j] == AsUndiscounted(ls[j])
  {
    if ls == [] then [] else AllUndiscounted(ls[..|ls| - 1]) + [AsUndiscounted(ls[|ls| - 1])]
  }

  /** The older totals are the discount-aware totals of the same lines with
      every discount at zero. */
  lemma {:induction false} LegacyTotalsAreUndiscounted(ls: seq<LegacyInvoiceLine>, ps: seq<Payment>)
    ensures LegacyTotalsOf(ls, ps) == TotalsOf(AllUndiscounted(ls), ps)
  {
    LegacySumsAreUndiscounted(ls);
  }

  lemma {:induction false} LegacySumsAreUndiscounted(ls: seq<LegacyInvoiceLine>)
    ensures LegacySubtotal(ls) == Subtotal(AllUndiscounted(ls))
    ensures LegacyGst(ls) == Gst(AllUndiscounted(ls))
  {
    if ls != [] {
      var init := ls[..|ls| - 1];
      var r := AllUndiscounted(ls);
      LegacySumsAreUndiscounted(init);
      assert r[..|r| - 1] == AllUndiscounted(init);
      var l := ls[|ls| - 1];
      assert LineAmount(AsUndiscounted(l)) == LegacyLineAmount(l);
      assert Taxable(AsUndiscounted(l)) == LegacyLineAmount(l);
    }
  }

  // ---------------------------------------------------------------------
  // app.py update_invoice_status

  /** The status an invoice is given from its (rounded) figures. */
  function StatusFor(t: Totals): (s: InvoiceStatus)
    ensures s != InvoiceStatus.Cancelled
    ensures s == InvoiceStatus.Paid <==> t.total > 0.0 && t.balance <= 0.001
    ensures s == InvoiceStatus.Partial <==> t.total > 0.0 && t.balance > 0.001 && t.paid > 0.0
    ensures s == InvoiceStatus.Open <==> t.total <= 0.0 || (t.balance > 0.001 && t.paid <= 0.0)
  {
    if t.total <= 0.0 then InvoiceStatus.Open
    else if t.balance <= 0.001 then InvoiceStatus.Paid
    else if t.paid > 0.0 then InvoiceStatus.Partial
    else InvoiceStatus.Open
  }

  /** A rounded amount that is positive is at least one paisa. */
  lemma Round2PositiveIsAPaisa(x: real)
    requires Round2(x) > 0.0
    ensures Round2(x) >= 0.01
  {
    var a := (x * 100.0 + 0.5).Floor;
    assert a >= 1;
  }

  /** Paying at least the total of an invoice with a positive total makes it PAID,
      however large the over-payment. */
  lemma OverpaymentIsPaid(ls: seq<LegacyInvoiceLine>, ps: seq<Payment>)
    requires Round2(LegacySubtotal(ls) + LegacyGst(ls)) > 0.0
    requires PaidSum(ps) >= LegacySubtotal(ls) + LegacyGst(ls)
    ensures StatusFor(LegacyTotalsOf(ls, ps)) == InvoiceStatus.Paid
  {
    Round2Sign(LegacySubtotal(ls) + LegacyGst(ls) - PaidSum(ps));
  }

  /** An invoice whose own payments reach its unrounded total is PAID. */
  lemma SettledInvoiceIsPaid(lines: seq<LegacyInvoiceLine>, payments: seq<Payment>, invoiceId: int)
    requires Round2(LegacySubtotal(LegacyLinesOf(lines, invoiceId)) + LegacyGst(LegacyLinesOf(lines, invoiceId))) > 0.0
    requires PaidSum(PaymentsOf(payments, invoiceId))
      >= LegacySubtotal(LegacyLinesOf(lines, invoiceId)) + LegacyGst(LegacyLinesOf(lines, invoiceId))
    ensures StatusFor(LegacyInvoiceTotalsOf(lines, payments, invoiceId)) == InvoiceStatus.Paid
  {
    OverpaymentIsPaid(LegacyLinesOf(lines, invoiceId), PaymentsOf(payments, invoiceId));
  }

  /** With no payments, an invoice is OPEN whatever its total. */
  lemma UnpaidIsOpen(ls: seq<LegacyInvoiceLine>)
    ensures StatusFor(LegacyTotalsOf(ls, [])) == InvoiceStatus.Open
  {
    var raw := LegacySubtotal(ls) + LegacyGst(ls);
    assert raw - PaidSum([]) == raw;
    Round2Sign(0.0);
    if Round2(raw) > 0.0 {
      Round2PositiveIsAPaisa(raw);
    }
  }

  /** A positive payment that leaves at least a paisa due makes a positive invoice PARTIAL. */
  lemma PartPaymentIsPartial(ls: seq<LegacyInvoiceLine>, ps: seq<Payment>)
    requires Round2(LegacySubtotal(ls) + LegacyGst(ls)) > 0.0
    requires Round2(PaidSum(ps)) > 0.0
    requires Round2(LegacySubtotal(ls) + LegacyGst(ls) - PaidSum(ps)) > 0.0
    ensures StatusFor(LegacyTotalsOf(ls, ps)) == InvoiceStatus.Partial
  {
    Round2PositiveIsAPaisa(LegacySubtotal(ls) + LegacyGst(ls) - PaidSum(ps));
  }

  // ---------------------------------------------------------------------
  // main.py calc_party_summary

  function BalanceOf(lines: seq<InvoiceLine>, payments: seq<Payment>, invoiceId: int): real
  {
    InvoiceTotalsOf(lines, payments, invoiceId).balance
  }

  /** Due: the party has payment terms and today is past invoice date + terms. */
  predicate IsOverdue(iv: Invoice, terms: int, today: int)
  {
    terms > 0 && today > iv.invoiceDate + terms
  }

  /** Sum of the positive (rounded) balances of `invs`. */
  function Outstanding(invs: seq<Invoice>, lines: seq<InvoiceLine>, payments: seq<Payment>): real
  {
    if invs == [] then 0.0
    else
      var bal := BalanceOf(lines, payments, invs[|invs| - 1].id);
      Outstanding(invs[..|invs| - 1], lines, payments) + (if bal > 0.0 then bal else 0.0)
  }

  /** Sum of the positive (rounded) balances of the overdue invoices of `invs`. */
  function Overdue(invs: seq<Invoice>, lines: seq<InvoiceLine>, payments: seq<Payment>, terms: int, today: int): real
  {
    if invs == [] then 0.0
    else
      var iv := invs[|invs| - 1];
      var bal := BalanceOf(lines, payments, iv.id);
      Overdue(invs[..|invs| - 1], lines, payments, terms, today)
        + (if bal > 0.0 && IsOverdue(iv, terms, today) then bal else 0.0)
  }

  function SummaryOf(invs: seq<Invoice>, lines: seq<InvoiceLine>, payments: seq<Payment>, terms: int, today: int): Summary
  {
    Summary(Round2(Outstanding(invs, lines, payments)), Round2(Overdue(invs, lines, payments, terms, today)))
  }

  lemma {:induction false} OverdueWithinOutstanding(
    invs: seq<Invoice>, lines: seq<InvoiceLine>, payments: seq<Payment>, terms: int, today: int)
    ensures 0.0 <= Overdue(invs, lines, payments, terms, today) <= Outstanding(invs, lines, payments)
  {
    if invs != [] {
      OverdueWithinOutstanding(invs[..|invs| - 1], lines, payments, terms, today);
    }
  }

  /** The rounded summary keeps 0 <= overdue <= outstanding. */
  lemma SummaryBounds(invs: seq<Invoice>, lines: seq<InvoiceLine>, payments: seq<Payment>, terms: int, today: int)
    ensures 0.0 <= SummaryOf(invs, lines, payments, terms, today).overdue
    ensures SummaryOf(invs, lines, payments, terms, today).overdue <= SummaryOf(invs, lines, payments, terms, today).outstanding
  {
    OverdueWithinOutstanding(invs, lines, payments, terms, today);
    Round2Sign(Overdue(invs, lines, payments, terms, today));
    Round2Monotone(Overdue(invs, lines, payments, terms, today), Outstanding(invs, lines, payments));
  }

  /** A party without payment terms never has anything overdue. */
  lemma {:induction false} NoTermsNoOverdue(
    invs: seq<Invoice>, lines: seq<InvoiceLine>, payments: seq<Payment>, terms: int, today: int)
    requires terms <= 0
    ensures Overdue(invs, lines, payments, terms, today) == 0.0
  {
    if invs != [] {
      NoTermsNoOverdue(invs[..|invs| - 1], lines, payments, terms, today);
    }
  }

  /** `calc_party_summary`: walks the party's invoices, adding each positive
      balance to the outstanding sum and, when it is past due, to the overdue sum. */
  method CalcPartySummary(invoices: seq<Invoice>, lines: seq<InvoiceLine>, payments: seq<Payment>, party: Party, today: int)
    returns (s: Summary)
    ensures s == SummaryOf(InvoicesOf(invoices, party.id), lines, payments, party.paymentTermsDays, today)
    ensures 0.0 <= s.overdue <= s.outstanding
  {
    var invs := InvoicesOf(invoices, party.id);
    var totalOut, overdue := 0.0, 0.0;
    var i := 0;
    while i < |invs|
      invariant 0 <= i <= |invs|
      invariant totalOut == Outstanding(invs[..i], lines, payments)
      invariant overdue == Overdue(invs[..i], lines, payments, party.paymentTermsDays, today)
    {
      var iv := invs[i];
      assert invs[..i + 1][..i] == invs[..i];
      var t := InvoiceTotals(lines, payments, iv.id);
      var bal := t.balance;
      if bal > 0.0 {
        totalOut := totalOut + bal;
        var terms := party.paymentTermsDays;
        if terms > 0 {
          var dueOrdinal := iv.invoiceDate + terms;
          if today > dueOrdinal {
            overdue := overdue + bal;
          }
        }
      }
      i := i + 1;
    }
    assert invs[..i] == invs;
    s := Summary(Round2(totalOut), Round2(overdue));
    SummaryBounds(invs, lines, payments, party.paymentTermsDays, today);
  }
}
