/** The older app.py flow: invoices are raised directly against a warehouse,
    each line sells stock as it is added, payments and lines recompute the
    invoice's status, and return lines put stock back at once. */
module Legacy {
  import opened Common
  import opened Records
  import opened Ledger
  import opened Totals
  import opened Numbering
  import opened Dispatch

  /** The tables of the app.py database that its handlers touch. */
  datatype LegacyDb = LegacyDb(
    parties: set<int>,
    stock: map<Key, int>,
    invoices: seq<LegacyInvoice>,
    invoiceLines: seq<LegacyInvoiceLine>,
    payments: seq<Payment>,
    returnNotes: seq<LegacyReturnNote>,
    returnLines: seq<ReturnLine>)

  datatype LegacyReply<T> = LegacyReply(result: T, db: LegacyDb)

  /** Header rows carry their position + 1 as id. */
  predicate LegacyConsistent(db: LegacyDb)
  {
    (forall j :: 0 <= j < |db.invoices| ==> db.invoices[j].id == j + 1)
    && (forall j :: 0 <= j < |db.returnNotes| ==> db.returnNotes[j].id == j + 1)
  }

  function LegacyInvoiceNos(invs: seq<LegacyInvoice>): (r: seq<string>)
    ensures |r| == |invs| && forall j :: 0 <= j < |invs| ==> r[j] == invs[j].invoiceNo
  {
    seq(|invs|, j requires 0 <= j < |invs| => invs[j].invoiceNo)
  }

  predicate HasInvoice(db: LegacyDb, invoiceId: int)
  {
    1 <= invoiceId <= |db.invoices|
  }

  // ---------------------------------------------------------------------
  // update_invoice_status

  /** `update_invoice_status`: a missing invoice changes nothing; otherwise
      the invoice's status becomes the one its totals give, and nothing else
      changes. */
  function StatusUpdated(db: LegacyDb, invoiceId: int): (r: LegacyDb)
    ensures !HasInvoice(db, invoiceId) ==> r == db
    ensures HasInvoice(db, invoiceId) ==>
      |r.invoices| == |db.invoices|
      && r == db.(invoices := db.invoices[invoiceId - 1 := db.invoices[invoiceId - 1].(status := r.invoices[invoiceId - 1].status)])
    ensures HasInvoice(db, invoiceId) ==>
      r.invoices[invoiceId - 1].status in {InvoiceStatus.Open, InvoiceStatus.Paid, InvoiceStatus.Partial}
  {
    if !HasInvoice(db, invoiceId) then db
    else
      var t := LegacyInvoiceTotalsOf(db.invoiceLines, db.payments, invoiceId);
      db.(invoices := db.invoices[invoiceId - 1 := db.invoices[invoiceId - 1].(status := StatusFor(t))])
  }

  /** The status written is the one `update_invoice_status` derives from the
      invoice's rounded totals. */
  lemma StatusFollowsTotals(db: LegacyDb, invoiceId: int)
    requires HasInvoice(db, invoiceId)
    ensures StatusUpdated(db, invoiceId).invoices[invoiceId - 1].status
      == StatusFor(LegacyInvoiceTotalsOf(db.invoiceLines, db.payments, invoiceId))
  {
  }

  // ---------------------------------------------------------------------
  // invoices_create / invoice_add_line

  function NewInvoice(db: LegacyDb, partyId: int, warehouseId: int, invoiceDate: int, period: string): LegacyInvoice
  {
    LegacyInvoice(|db.invoices| + 1, NextNoOf("INV", period, LegacyInvoiceNos(db.invoices)),
                  partyId, warehouseId, invoiceDate, InvoiceStatus.Open)
  }

  /** `invoice_add_line`: refused for a missing invoice; otherwise the
      warehouse row is fetched (and created at 0 if absent), the sale is
      refused with the available qty when it exceeds the stock, and otherwise
      the stock drops by qty, the line is added and the status recomputed. */
  function InvoiceAddLineOf(db: LegacyDb, invoiceId: int, itemId: int, qty: int, rate: real, gstPercent: real)
    : (r: LegacyReply<Outcome>)
    ensures !HasInvoice(db, invoiceId) ==> r == LegacyReply(Fail(InvoiceNotFound), db)
  {
    if !HasInvoice(db, invoiceId) then LegacyReply(Fail(InvoiceNotFound), db)
    else
      var k := (db.invoices[invoiceId - 1].warehouseId, itemId);
      var stock := WithRow(db.stock, k);
      if stock[k] < qty then LegacyReply(Fail(InsufficientStock(itemId, stock[k])), db.(stock := stock))
      else
        var sold := db.(stock := stock[k := stock[k] - qty],
                        invoiceLines := db.invoiceLines + [LegacyInvoiceLine(invoiceId, itemId, qty, rate, gstPercent)]);
        LegacyReply(Pass, StatusUpdated(sold, invoiceId))
  }

  /** An added line sells exactly its qty from the invoice's warehouse, and
      only when that much is in stock; a refused sale leaves every qty as it
      was and reports what is available. */
  lemma AddLineSells(db: LegacyDb, invoiceId: int, itemId: int, qty: int, rate: real, gstPercent: real)
    requires HasInvoice(db, invoiceId)
    ensures var r := InvoiceAddLineOf(db, invoiceId, itemId, qty, rate, gstPercent);
      var k := (db.invoices[invoiceId - 1].warehouseId, itemId);
      (r.result == Pass <==> Qty(db.stock, k) >= qty)
      && (r.result == Pass ==>
            Qty(r.db.stock, k) == Qty(db.stock, k) - qty
            && (forall k2: Key :: k2 != k ==> Qty(r.db.stock, k2) == Qty(db.stock, k2))
            && r.db.invoiceLines == db.invoiceLines + [LegacyInvoiceLine(invoiceId, itemId, qty, rate, gstPercent)]
            && |r.db.invoices| == |db.invoices|
            && r.db.invoices[invoiceId - 1] == db.invoices[invoiceId - 1].(status := r.db.invoices[invoiceId - 1].status)
            && r.db.invoices[invoiceId - 1].status
               == StatusFor(LegacyInvoiceTotalsOf(r.db.invoiceLines, r.db.payments, invoiceId))
            && (forall j :: 0 <= j < |db.invoices| && j != invoiceId - 1 ==> r.db.invoices[j] == db.invoices[j])
            && r.db.parties == db.parties && r.db.payments == db.payments
            && r.db.returnNotes == db.returnNotes && r.db.returnLines == db.returnLines)
      && (r.result.Fail? ==>
            r.result.error == InsufficientStock(itemId, Qty(db.stock, k))
            && (forall k2: Key :: Qty(r.db.stock, k2) == Qty(db.stock, k2))
            && r.db.invoiceLines == db.invoiceLines)
  {
    var r := InvoiceAddLineOf(db, invoiceId, itemId, qty, rate, gstPercent);
    var k := (db.invoices[invoiceId - 1].warehouseId, itemId);
    if Qty(db.stock, k) >= qty {
      var stock := WithRow(db.stock, k);
      var sold := db.(stock := stock[k := stock[k] - qty],
                      invoiceLines := db.invoiceLines + [LegacyInvoiceLine(invoiceId, itemId, qty, rate, gstPercent)]);
      assert r.db == StatusUpdated(sold, invoiceId);
      StatusFollowsTotals(sold, invoiceId);
    }
  }

  /** Adding a line never takes a row below zero. */
  lemma AddLineKeepsNonNegative(db: LegacyDb, invoiceId: int, itemId: int, qty: int, rate: real, gstPercent: real)
    requires NonNegative(db.stock)
    ensures NonNegative(InvoiceAddLineOf(db, invoiceId, itemId, qty, rate, gstPercent).db.stock)
  {
  }

  // ---------------------------------------------------------------------
  // payments_create

  /** `payments_create`: the payment is recorded as given (no invoice or
      balance check), then the invoice's status is recomputed; nothing but
      the payments and that status changes. */
  function PaymentsCreateOf(db: LegacyDb, partyId: int, invoiceId: int, payDate: int, amount: real): (r: LegacyDb)
    ensures r.payments == db.payments + [Payment(partyId, invoiceId, payDate, amount)]
    ensures |r.invoices| == |db.invoices|
    ensures forall j :: 0 <= j < |db.invoices| ==>
      r.invoices[j] == db.invoices[j].(status := r.invoices[j].status)
    ensures r.parties == db.parties && r.stock == db.stock && r.invoiceLines == db.invoiceLines
      && r.returnNotes == db.returnNotes && r.returnLines == db.returnLines
  {
    StatusUpdated(db.(payments := db.payments + [Payment(partyId, invoiceId, payDate, amount)]), invoiceId)
  }

  /** A payment that brings what was paid against a positive invoice up to
      its whole unrounded total gives the status PAID. */
  lemma SettlingPaymentIsPaid(lines: seq<LegacyInvoiceLine>, payments: seq<Payment>, p: Payment, invoiceId: int)
    requires p.invoiceId == invoiceId
    requires Round2(LegacySubtotal(LegacyLinesOf(lines, invoiceId)) + LegacyGst(LegacyLinesOf(lines, invoiceId))) > 0.0
    requires PaidSum(PaymentsOf(payments, invoiceId)) + p.amount
      >= LegacySubtotal(LegacyLinesOf(lines, invoiceId)) + LegacyGst(LegacyLinesOf(lines, invoiceId))
    ensures StatusFor(LegacyInvoiceTotalsOf(lines, payments + [p], invoiceId)) == InvoiceStatus.Paid
  {
    PaidCountsOwnPaymentsOnly(payments, p, invoiceId);
    SettledInvoiceIsPaid(lines, payments + [p], invoiceId);
  }

  /** `payments_create` with a payment that settles the invoice, or more,
      marks the invoice PAID. */
  lemma OverpaymentMarksPaid(db: LegacyDb, partyId: int, invoiceId: int, payDate: int, amount: real)
    requires HasInvoice(db, invoiceId)
    requires Round2(LegacySubtotal(LegacyLinesOf(db.invoiceLines, invoiceId)) + LegacyGst(LegacyLinesOf(db.invoiceLines, invoiceId))) > 0.0
    requires PaidSum(PaymentsOf(db.payments, invoiceId)) + amount
      >= LegacySubtotal(LegacyLinesOf(db.invoiceLines, invoiceId)) + LegacyGst(LegacyLinesOf(db.invoiceLines, invoiceId))
    ensures PaymentsCreateOf(db, partyId, invoiceId, payDate, amount).invoices[invoiceId - 1].status == InvoiceStatus.Paid
  {
    var p := Payment(partyId, invoiceId, payDate, amount);
    SettlingPaymentIsPaid(db.invoiceLines, db.payments, p, invoiceId);
    StatusFollowsTotals(db.(payments := db.payments + [p]), invoiceId);
  }

  /** A payment against one invoice leaves every other invoice as it was. */
  lemma PaymentTouchesOneInvoice(db: LegacyDb, partyId: int, invoiceId: int, payDate: int, amount: real, other: int)
    requires 0 <= other < |db.invoices| && other != invoiceId - 1
    ensures PaymentsCreateOf(db, partyId, invoiceId, payDate, amount).invoices[other] == db.invoices[other]
  {
  }

  // ---------------------------------------------------------------------
  // returns_create / return_add_line

  /** `return_add_line`: refused for a missing note; otherwise the qty goes
      into the note's warehouse at once and the line is recorded. */
  function ReturnAddLineOf(db: LegacyDb, returnId: int, itemId: int, qty: int): (r: LegacyReply<Outcome>)
    ensures !(1 <= returnId <= |db.returnNotes|) ==> r == LegacyReply(Fail(ReturnNotFound), db)
  {
    if !(1 <= returnId <= |db.returnNotes|) then LegacyReply(Fail(ReturnNotFound), db)
    else
      var ln := ReturnLine(returnId, itemId, qty);
      LegacyReply(Pass, db.(stock := RestockLine(db.stock, db.returnNotes[returnId - 1].warehouseId, ln),
                            returnLines := db.returnLines + [ln]))
  }

  /** Every existing note accepts lines, and each adds exactly its qty to its
      warehouse's row and touches no other row. */
  lemma ReturnLineRestocks(db: LegacyDb, returnId: int, itemId: int, qty: int)
    requires 1 <= returnId <= |db.returnNotes|
    ensures var r := ReturnAddLineOf(db, returnId, itemId, qty);
      var k := (db.returnNotes[returnId - 1].warehouseId, itemId);
      r.result == Pass
      && Qty(r.db.stock, k) == Qty(db.stock, k) + qty
      && (forall k2: Key :: k2 != k ==> Qty(r.db.stock, k2) == Qty(db.stock, k2))
      && r.db.returnLines == db.returnLines + [ReturnLine(returnId, itemId, qty)]
  {
    var ln := ReturnLine(returnId, itemId, qty);
    RestockAdds(db.stock, db.returnNotes[returnId - 1].warehouseId, [ln]);
    assert Restock(db.stock, db.returnNotes[returnId - 1].warehouseId, [ln])
      == RestockLine(db.stock, db.returnNotes[returnId - 1].warehouseId, ln);
  }

  // ---------------------------------------------------------------------
  // statements_view / api_party_outstanding

  /** The party's invoices dated within the inclusive [from, to] range, in
      table order; `DatedMembers` states which they are. */
  function Dated(invs: seq<LegacyInvoice>, partyId: int, fromDate: int, toDate: int): (r: seq<LegacyInvoice>)
    ensures |r| <= |invs|
  {
    if invs == [] then []
    else
      var iv := invs[|invs| - 1];
      Dated(invs[..|invs| - 1], partyId, fromDate, toDate)
        + (if iv.partyId == partyId && fromDate <= iv.invoiceDate <= toDate then [iv] else [])
  }

  /** The statement lists exactly the party's invoices dated within the range. */
  lemma {:induction false} DatedMembers(invs: seq<LegacyInvoice>, partyId: int, fromDate: int, toDate: int)
    ensures forall iv ::
      iv in Dated(invs, partyId, fromDate, toDate) <==> iv in invs && iv.partyId == partyId && fromDate <= iv.invoiceDate <= toDate
  {
    if invs != [] {
      var init := invs[..|invs| - 1];
      DatedMembers(init, partyId, fromDate, toDate);
      assert invs == init + [invs[|invs| - 1]];
    }
  }

  /** All of the party's invoices. */
  function OfParty(invs: seq<LegacyInvoice>, partyId: int): (r: seq<LegacyInvoice>)
    ensures forall iv :: iv in r <==> iv in invs && iv.partyId == partyId
  {
    if invs == [] then []
    else
      var iv := invs[|invs| - 1];
      OfParty(invs[..|invs| - 1], partyId) + (if iv.partyId == partyId then [iv] else [])
  }

  /** Sum of the rounded invoice totals. */
  function Billed(invs: seq<LegacyInvoice>, lines: seq<LegacyInvoiceLine>, payments: seq<Payment>): real
  {
    if invs == [] then 0.0
    else Billed(invs[..|invs| - 1], lines, payments) + LegacyInvoiceTotalsOf(lines, payments, invs[|invs| - 1].id).total
  }

  /** Sum of the rounded amounts paid against each invoice. */
  function Collected(invs: seq<LegacyInvoice>, lines: seq<LegacyInvoiceLine>, payments: seq<Payment>): real
  {
    if invs == [] then 0.0
    else Collected(invs[..|invs| - 1], lines, payments) + LegacyInvoiceTotalsOf(lines, payments, invs[|invs| - 1].id).paid
  }

  function PaymentEntries(ps: seq<Payment>, partyId: int, fromDate: int, toDate: int): nat
  {
    if ps == [] then 0
    else
      var p := ps[|ps| - 1];
      PaymentEntries(ps[..|ps| - 1], partyId, fromDate, toDate)
        + (if p.partyId == partyId && fromDate <= p.payDate <= toDate then 1 else 0)
  }

  function ReturnEntries(rs: seq<LegacyReturnNote>, partyId: int, fromDate: int, toDate: int): nat
  {
    if rs == [] then 0
    else
      var rn := rs[|rs| - 1];
      ReturnEntries(rs[..|rs| - 1], partyId, fromDate, toDate)
        + (if rn.partyId == partyId && fromDate <= rn.returnDate <= toDate then 1 else 0)
  }

  /** The figures of the API and of the statement's summary. */
  datatype Outstanding = Outstanding(totalBilling: real, totalPaid: real, outstanding: real)

  datatype LegacyRow = LegacyRow(invoice: LegacyInvoice, totals: Totals)

  datatype LegacyStatement = LegacyStatement(
    rows: seq<LegacyRow>, figures: Outstanding, paymentEntries: nat, returnEntries: nat)

  function Figures(invs: seq<LegacyInvoice>, lines: seq<LegacyInvoiceLine>, payments: seq<Payment>): Outstanding
  {
    var total, paid := Billed(invs, lines, payments), Collected(invs, lines, payments);
    Outstanding(Round2(total), Round2(paid), Round2(total - paid))
  }

  function LegacyRows(invs: seq<LegacyInvoice>, lines: seq<LegacyInvoiceLine>, payments: seq<Payment>): (r: seq<LegacyRow>)
    ensures |r| == |invs|
    ensures forall j :: 0 <= j < |invs| ==> r[j] == LegacyRow(invs[j], LegacyInvoiceTotalsOf(lines, payments, invs[j].id))
  {
    if invs == [] then []
    else LegacyRows(invs[..|invs| - 1], lines, payments)
         + [LegacyRow(invs[|invs| - 1], LegacyInvoiceTotalsOf(lines, payments, invs[|invs| - 1].id))]
  }

  /** Every invoice shown has its row. */
  lemma LegacyRowsShowAll(invs: seq<LegacyInvoice>, lines: seq<LegacyInvoiceLine>, payments: seq<Payment>)
    ensures forall iv :: iv in invs ==>
      LegacyRow(iv, LegacyInvoiceTotalsOf(lines, payments, iv.id)) in LegacyRows(invs, lines, payments)
  {
    forall iv | iv in invs
      ensures LegacyRow(iv, LegacyInvoiceTotalsOf(lines, payments, iv.id)) in LegacyRows(invs, lines, payments)
    {
      var j :| 0 <= j < |invs| && invs[j] == iv;
      assert LegacyRows(invs, lines, payments)[j] == LegacyRow(iv, LegacyInvoiceTotalsOf(lines, payments, iv.id));
    }
  }

  /** `statements_view` (app.py): refused for a missing party; otherwise the
      party's invoices in the range with their figures, the rounded sums of
      their totals and payments and the difference, and the number of the
      party's payments and return notes dated in the range. */
  function LegacyStatementOf(db: LegacyDb, partyId: int, fromDate: int, toDate: int): (r: Result<LegacyStatement>)
    ensures r.Err? <==> partyId !in db.parties
    ensures r.Ok? ==> forall row :: row in r.value.rows ==>
      row.invoice in db.invoices && row.invoice.partyId == partyId && fromDate <= row.invoice.invoiceDate <= toDate
    ensures r.Ok? ==> forall iv :: iv in db.invoices && iv.partyId == partyId && fromDate <= iv.invoiceDate <= toDate ==>
      LegacyRow(iv, LegacyInvoiceTotalsOf(db.invoiceLines, db.payments, iv.id)) in r.value.rows
  {
    if partyId !in db.parties then Err(PartyNotFound)
    else
      var shown := Dated(db.invoices, partyId, fromDate, toDate);
      DatedMembers(db.invoices, partyId, fromDate, toDate);
      LegacyRowsShowAll(shown, db.invoiceLines, db.payments);
      Ok(LegacyStatement(LegacyRows(shown, db.invoiceLines, db.payments),
                         Figures(shown, db.invoiceLines, db.payments),
                         PaymentEntries(db.payments, partyId, fromDate, toDate),
                         ReturnEntries(db.returnNotes, partyId, fromDate, toDate)))
  }

  /** Within a range, a party's invoices are the ones of the party that fall in it. */
  lemma {:induction false} DatedIsOfParty(invs: seq<LegacyInvoice>, partyId: int, fromDate: int, toDate: int)
    requires forall j :: 0 <= j < |invs| && invs[j].partyId == partyId ==> fromDate <= invs[j].invoiceDate <= toDate
    ensures Dated(invs, partyId, fromDate, toDate) == OfParty(invs, partyId)
  {
    if invs != [] {
      DatedIsOfParty(invs[..|invs| - 1], partyId, fromDate, toDate);
    }
  }

  /** A statement whose range holds all of an existing party's invoices shows
      the outstanding figures the API reports. */
  lemma StatementMatchesApi(db: LegacyDb, partyId: int, fromDate: int, toDate: int)
    requires partyId in db.parties
    requires forall j :: 0 <= j < |db.invoices| && db.invoices[j].partyId == partyId ==>
      fromDate <= db.invoices[j].invoiceDate <= toDate
    ensures LegacyStatementOf(db, partyId, fromDate, toDate).value.figures
      == Figures(OfParty(db.invoices, partyId), db.invoiceLines, db.payments)
  {
    DatedIsOfParty(db.invoices, partyId, fromDate, toDate);
  }

  /** A party without invoices owes nothing. */
  lemma NoInvoicesNothingOwed(lines: seq<LegacyInvoiceLine>, payments: seq<Payment>)
    ensures Figures([], lines, payments) == Outstanding(0.0, 0.0, 0.0)
  {
    Round2Paise(0);
  }

  // ---------------------------------------------------------------------
  // The loops of the handlers, on the values they walk over

  /** The accumulator loop of `statements_view` and `api_party_outstanding`:
      each invoice's figures, and the running sums of their totals and paid. */
  method SumInvoices(invs: seq<LegacyInvoice>, lines: seq<LegacyInvoiceLine>, payments: seq<Payment>)
    returns (rows: seq<LegacyRow>, total: real, paid: real)
    ensures rows == LegacyRows(invs, lines, payments)
    ensures total == Billed(invs, lines, payments)
    ensures paid == Collected(invs, lines, payments)
  {
    rows, total, paid := [], 0.0, 0.0;
    var i := 0;
    while i < |invs|
      invariant 0 <= i <= |invs|
      invariant rows == LegacyRows(invs[..i], lines, payments)
      invariant total == Billed(invs[..i], lines, payments)
      invariant paid == Collected(invs[..i], lines, payments)
    {
      var inv := invs[i];
      assert invs[..i + 1][..i] == invs[..i];
      var t := LegacyInvoiceTotals(lines, payments, inv.id);
      rows := rows + [LegacyRow(inv, t)];
      total := total + t.total;
      paid := paid + t.paid;
      i := i + 1;
    }
    assert invs[..i] == invs;
  }

  /** The SQL count behind "Payments entries" and "Returns notes". */
  method CountEntries(ps: seq<Payment>, rs: seq<LegacyReturnNote>, partyId: int, fromDate: int, toDate: int)
    returns (payCount: nat, returnCount: nat)
    ensures payCount == PaymentEntries(ps, partyId, fromDate, toDate)
    ensures returnCount == ReturnEntries(rs, partyId, fromDate, toDate)
  {
    payCount, returnCount := 0, 0;
    var i := 0;
    while i < |ps|
      invariant 0 <= i <= |ps|
      invariant payCount == PaymentEntries(ps[..i], partyId, fromDate, toDate)
    {
      assert ps[..i + 1][..i] == ps[..i];
      if ps[i].partyId == partyId && fromDate <= ps[i].payDate <= toDate {
        payCount := payCount + 1;
      }
      i := i + 1;
    }
    assert ps[..i] == ps;
    i := 0;
    while i < |rs|
      invariant 0 <= i <= |rs|
      invariant returnCount == ReturnEntries(rs[..i], partyId, fromDate, toDate)
    {
      assert rs[..i + 1][..i] == rs[..i];
      if rs[i].partyId == partyId && fromDate <= rs[i].returnDate <= toDate {
        returnCount := returnCount + 1;
      }
      i := i + 1;
    }
    assert rs[..i] == rs;
  }

  // ---------------------------------------------------------------------
  // The store

  /** The SQLite database of app.py, as one value of tables. */
  class LegacyStore {
    var db: LegacyDb

    /** A store with its parties and stock, and no documents yet. */
    constructor (parties: set<int>, stock: map<Key, int>)
      ensures LegacyConsistent(db)
      ensures db == LegacyDb(parties, stock, [], [], [], [], [])
    {
      db := LegacyDb(parties, stock, [], [], [], [], []);
    }

    /** `get_stock`: the (warehouse, item) row, created with qty 0 if absent. */
    method GetStock(warehouseId: int, itemId: int) returns (qty: int)
      modifies this
      ensures qty == Qty(old(db.stock), (warehouseId, itemId))
      ensures db == old(db).(stock := WithRow(old(db.stock), (warehouseId, itemId)))
    {
      var k := (warehouseId, itemId);
      if k !in db.stock {
        db := db.(stock := db.stock[k := 0]);
      }
      qty := db.stock[k];
    }

    /** `stock_adjust`: refuses a change that would take the row below zero. */
    method StockAdjust(warehouseId: int, itemId: int, delta: int) returns (r: Outcome)
      modifies this
      ensures r == (if Adjust(old(db.stock), (warehouseId, itemId), delta).ok then Pass else Fail(NegativeStock))
      ensures db == old(db).(stock := Adjust(old(db.stock), (warehouseId, itemId), delta).stock)
    {
      var qty := GetStock(warehouseId, itemId);
      if qty + delta < 0 {
        r := Fail(NegativeStock);
      } else {
        db := db.(stock := db.stock[(warehouseId, itemId) := qty + delta]);
        r := Pass;
      }
    }

    /** `update_invoice_status`. */
    method UpdateInvoiceStatus(invoiceId: int)
      modifies this
      ensures db == StatusUpdated(old(db), invoiceId)
    {
      if !(1 <= invoiceId <= |db.invoices|) {
        return;
      }
      var t := LegacyInvoiceTotals(db.invoiceLines, db.payments, invoiceId);
      var status: InvoiceStatus;
      if t.total <= 0.0 {
        status := InvoiceStatus.Open;
      } else if t.balance <= 0.001 {
        status := InvoiceStatus.Paid;
      } else if t.paid > 0.0 {
        status := InvoiceStatus.Partial;
      } else {
        status := InvoiceStatus.Open;
      }
      db := db.(invoices := db.invoices[invoiceId - 1 := db.invoices[invoiceId - 1].(status := status)]);
    }

    /** `invoices_create`: a new OPEN invoice numbered INV-<period>-NNNN. */
    method InvoicesCreate(partyId: int, warehouseId: int, invoiceDate: int, period: string) returns (invoiceId: int)
      requires LegacyConsistent(db)
      modifies this
      ensures LegacyConsistent(db)
      ensures invoiceId == |old(db.invoices)| + 1
      ensures db == old(db).(invoices := old(db.invoices) + [NewInvoice(old(db), partyId, warehouseId, invoiceDate, period)])
      ensures db.invoices[invoiceId - 1].invoiceNo !in LegacyInvoiceNos(old(db.invoices))
    {
      var no := NextInvoiceNo(period, LegacyInvoiceNos(db.invoices));
      invoiceId := |db.invoices| + 1;
      db := db.(invoices := db.invoices + [LegacyInvoice(invoiceId, no, partyId, warehouseId, invoiceDate, InvoiceStatus.Open)]);
    }

    /** `invoice_add_line`. */
    method InvoiceAddLine(invoiceId: int, itemId: int, qty: int, rate: real, gstPercent: real) returns (r: Outcome)
      requires LegacyConsistent(db)
      modifies this
      ensures LegacyConsistent(db)
      ensures LegacyReply(r, db) == InvoiceAddLineOf(old(db), invoiceId, itemId, qty, rate, gstPercent)
    {
      if !(1 <= invoiceId <= |db.invoices|) {
        return Fail(InvoiceNotFound);
      }
      var inv := db.invoices[invoiceId - 1];
      var available := GetStock(inv.warehouseId, itemId);
      if available < qty {
        return Fail(InsufficientStock(itemId, available));
      }
      db := db.(stock := db.stock[(inv.warehouseId, itemId) := available - qty],
                invoiceLines := db.invoiceLines + [LegacyInvoiceLine(invoiceId, itemId, qty, rate, gstPercent)]);
      UpdateInvoiceStatus(invoiceId);
      r := Pass;
    }

    /** `payments_create`. */
    method PaymentsCreate(partyId: int, invoiceId: int, payDate: int, amount: real)
      requires LegacyConsistent(db)
      modifies this
      ensures LegacyConsistent(db)
      ensures db == PaymentsCreateOf(old(db), partyId, invoiceId, payDate, amount)
    {
      db := db.(payments := db.payments + [Payment(partyId, invoiceId, payDate, amount)]);
      UpdateInvoiceStatus(invoiceId);
    }

    /** `returns_create`: a new return note. */
    method ReturnsCreate(partyId: int, warehouseId: int, returnDate: int) returns (returnId: int)
      requires LegacyConsistent(db)
      modifies this
      ensures LegacyConsistent(db)
      ensures returnId == |old(db.returnNotes)| + 1
      ensures db == old(db).(returnNotes := old(db.returnNotes) + [LegacyReturnNote(returnId, partyId, warehouseId, returnDate)])
    {
      returnId := |db.returnNotes| + 1;
      db := db.(returnNotes := db.returnNotes + [LegacyReturnNote(returnId, partyId, warehouseId, returnDate)]);
    }

    /** `return_add_line`. */
    method ReturnAddLine(returnId: int, itemId: int, qty: int) returns (r: Outcome)
      requires LegacyConsistent(db)
      modifies this
      ensures LegacyConsistent(db)
      ensures LegacyReply(r, db) == ReturnAddLineOf(old(db), returnId, itemId, qty)
    {
      if !(1 <= returnId <= |db.returnNotes|) {
        return Fail(ReturnNotFound);
      }
      var rn := db.returnNotes[returnId - 1];
      var qtyBefore := GetStock(rn.warehouseId, itemId);
      db := db.(stock := db.stock[(rn.warehouseId, itemId) := qtyBefore + qty],
                returnLines := db.returnLines + [ReturnLine(returnId, itemId, qty)]);
      r := Pass;
    }

    /** `statements_view` (app.py). */
    method StatementsView(partyId: int, fromDate: int, toDate: int) returns (r: Result<LegacyStatement>)
      ensures r == LegacyStatementOf(db, partyId, fromDate, toDate)
    {
      if partyId !in db.parties {
        return Err(PartyNotFound);
      }
      ghost var shown := Dated(db.invoices, partyId, fromDate, toDate);
      var rows, total, paid := SumInvoices(Dated(db.invoices, partyId, fromDate, toDate), db.invoiceLines, db.payments);
      var payCount, returnCount := CountEntries(db.payments, db.returnNotes, partyId, fromDate, toDate);
      var figures := Outstanding(Round2(total), Round2(paid), Round2(total - paid));
      assert figures == Figures(shown, db.invoiceLines, db.payments);
      r := Ok(LegacyStatement(rows, figures, payCount, returnCount));
    }

    /** `api_party_outstanding`: over all of the party's invoices, with no
        check that the party exists. */
    method ApiPartyOutstanding(partyId: int) returns (figures: Outstanding)
      ensures figures == Figures(OfParty(db.invoices, partyId), db.invoiceLines, db.payments)
    {
      var _, total, paid := SumInvoices(OfParty(db.invoices, partyId), db.invoiceLines, db.payments);
      figures := Outstanding(Round2(total), Round2(paid), Round2(total - paid));
    }
  }
}
