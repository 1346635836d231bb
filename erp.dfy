/** The v2 store: the database the handlers of main.py and services.py share,
    and one method per handler, each updating the tables the way the
    handler's SQL does. */
module Erp {
  import opened Common
  import opened Records
  import opened Ledger
  import opened Pricing
  import opened Totals
  import opened Numbering
  import opened Dispatch
  import opened Billing
  import opened Flow

  // ---------------------------------------------------------------------
  // The loops of the handlers, on the values they walk over

  /** The line loop of `challan_create`: each line's stock row is fetched
      (created at 0 and committed if absent, which also commits the pending
      decrements and lines), checked, and decremented; the walk stops at the
      first short line. */
  method DispatchLines(stock0: map<Key, int>, warehouseId: int, dcId: int, soLines: seq<SalesOrderLine>)
    returns (d: Run)
    ensures d == RunAll(Start(stock0), warehouseId, dcId, soLines)
  {
    var stock := stock0;
    var added: seq<ChallanLine> := [];
    var savedStock, savedLines := stock, added;
    var failure: Option<Failure> := None;
    var i := 0;
    while i < |soLines| && failure.None?
      invariant 0 <= i <= |soLines|
      invariant RunAll(Start(stock0), warehouseId, dcId, soLines[..i]) == Run(stock, added, savedStock, savedLines, failure)
    {
      var ln := soLines[i];
      assert soLines[..i + 1][..i] == soLines[..i];
      var k := (warehouseId, ln.itemId);
      if k !in stock {
        stock := stock[k := 0];
        savedStock, savedLines := stock, added;
      }
      var qty := stock[k];
      if qty < ln.qty {
        failure := Some(InsufficientStock(ln.itemId, qty));
      } else {
        stock := stock[k := qty - ln.qty];
        added := added + [ChallanLine(dcId, ln.itemId, ln.qty)];
      }
      i := i + 1;
    }
    if failure.Some? {
      FailureIsFinal(Start(stock0), warehouseId, dcId, soLines, i);
    } else {
      assert soLines[..i] == soLines;
    }
    d := Run(stock, added, savedStock, savedLines, failure);
  }

  /** The copy loop of `invoice_create`: one repriced line per challan line
      whose item exists. */
  method RepriceLines(dcLines: seq<ChallanLine>, items: map<int, Item>, prices: PriceTable, partyId: int, invoiceId: int)
    returns (added: seq<InvoiceLine>)
    requires Keyed(items)
    ensures added == Reprice(dcLines, items, prices, partyId, invoiceId)
  {
    added := [];
    var i := 0;
    while i < |dcLines|
      invariant 0 <= i <= |dcLines|
      invariant added == Reprice(dcLines[..i], items, prices, partyId, invoiceId)
    {
      var dln := dcLines[i];
      assert dcLines[..i + 1][..i] == dcLines[..i];
      if dln.itemId in items {
        var it := items[dln.itemId];
        var pr := ApplyPartyPrice(prices, partyId, it);
        added := added + [InvoiceLine(invoiceId, it.id, dln.qty, pr.rate, it.gstPercent, pr.discountPercent)];
      }
      i := i + 1;
    }
    assert dcLines[..i] == dcLines;
  }

  /** The header `invoice_create` writes: the next INV number, and the
      challan's order's party, state and warehouse. */
  method InvoiceHeader(db: Db, dcId: int, invoiceDate: int, period: string) returns (iv: Invoice)
    requires Billable(db, dcId)
    ensures iv == NextInvoice(db, dcId, invoiceDate, period)
  {
    var dc := db.challans[dcId - 1];
    var so := db.orders[dc.soId - 1];
    var party := db.parties[so.partyId];
    var invNo := NextNo("INV", period, InvoiceNos(db.invoices));
    iv := Invoice(|db.invoices| + 1, invNo, dcId, party.id, so.warehouseId, invoiceDate, party.state, InvoiceStatus.Open);
  }

  /** The row loop of `statements_view` (v2): invoices outside the range are
      skipped; the positive balances of the rest are summed. */
  method StatementRows(invs: seq<Invoice>, lines: seq<InvoiceLine>, payments: seq<Payment>, terms: int,
                       fromDate: Option<int>, toDate: Option<int>, today: int)
    returns (rows: seq<StatementRow>, outstanding: real, overdue: real)
    ensures rows == RowsOf(InRange(invs, fromDate, toDate), lines, payments)
    ensures outstanding == Outstanding(InRange(invs, fromDate, toDate), lines, payments)
    ensures overdue == Overdue(InRange(invs, fromDate, toDate), lines, payments, terms, today)
  {
    rows, outstanding, overdue := [], 0.0, 0.0;
    ghost var seen: seq<Invoice> := [];
    var i := 0;
    while i < |invs|
      invariant 0 <= i <= |invs|
      invariant seen == InRange(invs[..i], fromDate, toDate)
      invariant rows == RowsOf(seen, lines, payments)
      invariant outstanding == Outstanding(seen, lines, payments)
      invariant overdue == Overdue(seen, lines, payments, terms, today)
    {
      var iv := invs[i];
      InRangeStep(invs, i, fromDate, toDate);
      // both bounds are inclusive; an invoice outside either is skipped
      if !WithinDates(iv, fromDate, toDate) {
        i := i + 1;
        continue;
      }
      var t := InvoiceTotals(lines, payments, iv.id);
      var bal := t.balance;
      assert bal == BalanceOf(lines, payments, iv.id);
      StatementGrows(seen, iv, lines, payments, terms, today);
      if bal > 0.0 {
        outstanding := outstanding + bal;
        if terms > 0 && today > iv.invoiceDate + terms {
          overdue := overdue + bal;
        }
      }
      seen := seen + [iv];
      rows := rows + [StatementRow(iv, t)];
      i := i + 1;
    }
    assert invs[..i] == invs;
  }

  /** The line loop of `returns_post`: each line's qty is added to its
      (warehouse, item) row, which is created at 0 first if absent. */
  method RestockLines(stock0: map<Key, int>, warehouseId: int, ls: seq<ReturnLine>) returns (stock: map<Key, int>)
    ensures stock == Restock(stock0, warehouseId, ls)
  {
    stock := stock0;
    var i := 0;
    while i < |ls|
      invariant 0 <= i <= |ls|
      invariant stock == Restock(stock0, warehouseId, ls[..i])
    {
      var ln := ls[i];
      assert ls[..i + 1][..i] == ls[..i];
      var k := (warehouseId, ln.itemId);
      if k !in stock {
        stock := stock[k := 0];
      }
      stock := stock[k := stock[k] + ln.qty];
      i := i + 1;
    }
    assert ls[..i] == ls;
  }

  /** The SQLite database of the v2 application, as one value of tables. */
  class Store {
    var db: Db

    /** A store with its master data and stock, and no documents yet. */
    constructor (items: map<int, Item>, parties: map<int, Party>, prices: PriceTable, stock: map<Key, int>)
      requires Keyed(items)
      requires forall id :: id in parties ==> parties[id].id == id
      ensures Consistent(db)
      ensures db == Db(items, parties, prices, stock, [], [], [], [], [], [], [], [], [])
    {
      db := Db(items, parties, prices, stock, [], [], [], [], [], [], [], [], []);
    }

    // -------------------------------------------------------------------
    // Stock

    /** `get_stock`: the (warehouse, item) row, created with qty 0 if absent. */
    method GetStock(warehouseId: int, itemId: int) returns (qty: int)
      modifies this
      ensures qty == Qty(old(db.stock), (warehouseId, itemId))
      ensures db == old(db).(stock := WithRow(old(db.stock), (warehouseId, itemId)))
    {
      var k := (warehouseId, itemId);
      if k !in db.stock {
        db := db.(stock := db.stock[k := 0]);
      }
      qty := db.stock[k];
    }

    /** `stock_adjust`: keeps qty + delta when it is not negative; otherwise
        refuses, and only the row `get_stock` may have created remains. */
    method StockAdjust(warehouseId: int, itemId: int, delta: int) returns (r: Outcome)
      modifies this
      ensures r == (if Adjust(old(db.stock), (warehouseId, itemId), delta).ok then Pass else Fail(NegativeStock))
      ensures db == old(db).(stock := Adjust(old(db.stock), (warehouseId, itemId), delta).stock)
    {
      var qty := GetStock(warehouseId, itemId);
      if qty + delta < 0 {
        r := Fail(NegativeStock);
      } else {
        db := db.(stock := db.stock[(warehouseId, itemId) := qty + delta]);
        r := Pass;
      }
    }

    /** `set_party_price`: stores (or replaces) the party's discount on an item;
        the pricing resolver then sees the clamped value. */
    method SetPartyPrice(partyId: int, itemId: int, discountPercent: real)
      modifies this
      ensures db == old(db).(prices := old(db.prices)[(partyId, itemId) := discountPercent])
      ensures forall it: Item :: it.id == itemId ==>
        ApplyPartyPrice(db.prices, partyId, it).discountPercent == Clamp(discountPercent)
    {
      db := db.(prices := db.prices[(partyId, itemId) := discountPercent]);
    }

    // -------------------------------------------------------------------
    // Sales orders

    /** `so_create`: a new OPEN order numbered SO-<period>-NNNN. */
    method SoCreate(partyId: int, warehouseId: int, soDate: int, period: string) returns (soId: int)
      requires Consistent(db)
      modifies this
      ensures Consistent(db)
      ensures soId == |old(db.orders)| + 1
      ensures db == old(db).(orders := old(db.orders) + [
        SalesOrder(soId, NextNoOf("SO", period, SoNos(old(db.orders))), partyId, warehouseId, soDate, OrderStatus.Open)])
    {
      var no := NextNo("SO", period, SoNos(db.orders));
      soId := |db.orders| + 1;
      db := db.(orders := db.orders + [SalesOrder(soId, no, partyId, warehouseId, soDate, OrderStatus.Open)]);
    }

    /** `so_add_line`: appends a line priced for the order's party, whatever
        the order's status. */
    method SoAddLine(soId: int, itemId: int, qty: int) returns (r: Outcome)
      requires Consistent(db)
      modifies this
      ensures Consistent(db)
      ensures !(1 <= soId <= |old(db.orders)|) ==> r == Fail(SalesOrderNotFound) && db == old(db)
      ensures 1 <= soId <= |old(db.orders)| && itemId !in old(db.items) ==>
        r == Fail(ItemNotFound(itemId)) && db == old(db)
      ensures 1 <= soId <= |old(db.orders)| && itemId in old(db.items) ==>
        var it := old(db.items)[itemId];
        var pr := ApplyPartyPrice(old(db.prices), old(db.orders)[soId - 1].partyId, it);
        r == Pass
        && db == old(db).(orderLines := old(db.orderLines) + [
             SalesOrderLine(soId, itemId, qty, pr.rate, it.gstPercent, pr.discountPercent)])
    {
      if !(1 <= soId <= |db.orders|) {
        return Fail(SalesOrderNotFound);
      }
      var so := db.orders[soId - 1];
      if itemId !in db.items {
        return Fail(ItemNotFound(itemId));
      }
      var it := db.items[itemId];
      var pr := ApplyPartyPrice(db.prices, so.partyId, it);
      db := db.(orderLines := db.orderLines + [SalesOrderLine(soId, itemId, qty, pr.rate, it.gstPercent, pr.discountPercent)]);
      r := Pass;
    }

    /** `so_approve`: sets APPROVED whatever the current status. */
    method SoApprove(soId: int) returns (r: Outcome)
      requires Consistent(db)
      modifies this
      ensures Consistent(db)
      ensures !(1 <= soId <= |old(db.orders)|) ==> r == Fail(SalesOrderNotFound) && db == old(db)
      ensures 1 <= soId <= |old(db.orders)| ==>
        r == Pass
        && db == old(db).(orders := old(db.orders)[soId - 1 := old(db.orders)[soId - 1].(status := OrderStatus.Approved)])
    {
      if !(1 <= soId <= |db.orders|) {
        return Fail(SalesOrderNotFound);
      }
      db := db.(orders := db.orders[soId - 1 := db.orders[soId - 1].(status := OrderStatus.Approved)]);
      r := Pass;
    }

    // -------------------------------------------------------------------
    // Challans

    /** `challan_create`: commits the header, then walks the order's lines,
        taking each line's qty from the order's warehouse. */
    method ChallanCreate(soId: int, period: string) returns (r: Result<int>)
      requires Consistent(db)
      modifies this
      ensures Consistent(db)
      ensures Reply(r, db) == ChallanCreateOf(old(db), soId, period)
    {
      if !(1 <= soId <= |db.orders|) || db.orders[soId - 1].status != OrderStatus.Approved {
        return Err(SalesOrderNotApproved);
      }
      ChallanKeepsConsistent(db, soId, period);
      var so := db.orders[soId - 1];
      var dcNo := NextNo("DC", period, DcNos(db.challans));
      var dcId := |db.challans| + 1;
      var dc := Challan(dcId, dcNo, soId, ChallanStatus.Open);
      var d := DispatchLines(db.stock, so.warehouseId, dcId, OrderLinesOf(db.orderLines, soId));
      if d.failure.Some? {
        r := Err(d.failure.value);
        db := db.(stock := d.savedStock, challans := db.challans + [dc], challanLines := db.challanLines + d.savedLines);
      } else {
        r := Ok(dcId);
        db := db.(stock := d.stock,
                  orders := db.orders[soId - 1 := so.(status := OrderStatus.Dispatched)],
                  challans := db.challans + [dc],
                  challanLines := db.challanLines + d.lines);
      }
    }

    // -------------------------------------------------------------------
    // Invoices

    /** The checks `invoice_create` makes before writing anything: the challan
        is OPEN, its order and party exist, the party is not blocked, has
        nothing overdue, and stays within its credit limit. */
    method CreditControl(dcId: int, today: int) returns (blocker: Option<Failure>)
      requires Keyed(db.items)
      ensures blocker == InvoiceBlocker(db, dcId, today)
    {
      if !(1 <= dcId <= |db.challans|) || db.challans[dcId - 1].status != ChallanStatus.Open {
        return Some(ChallanNotAvailable);
      }
      var dc := db.challans[dcId - 1];
      if !(1 <= dc.soId <= |db.orders|) {
        return Some(SalesOrderMissingForChallan);
      }
      var so := db.orders[dc.soId - 1];
      if so.partyId !in db.parties {
        return Some(PartyNotFound);
      }
      var party := db.parties[so.partyId];
      var summary := CalcPartySummary(db.invoices, db.invoiceLines, db.payments, party, today);
      if party.isBlocked {
        return Some(PartyBlocked);
      }
      if summary.overdue > 0.0 {
        return Some(OverduePending(summary.overdue));
      }
      var projected := ProjectedTotal(ChallanLinesOf(db.challanLines, dcId), db.items, db.prices, party.id);
      if party.creditLimit != 0.0 && summary.outstanding + projected > party.creditLimit {
        return Some(CreditLimitExceeded(party.creditLimit, summary.outstanding, Round2(projected)));
      }
      blocker := None;
    }

    /** `invoice_create`: credit control first, then the header, the repriced
        lines and the challan's new status. */
    method InvoiceCreate(dcId: int, invoiceDate: int, today: int, period: string) returns (r: Result<int>)
      requires Consistent(db)
      modifies this
      ensures Consistent(db)
      ensures Reply(r, db) == InvoiceCreateOf(old(db), dcId, invoiceDate, today, period)
    {
      var blocker := CreditControl(dcId, today);
      if blocker.Some? {
        return Err(blocker.value);
      }
      var iv := InvoiceHeader(db, dcId, invoiceDate, period);
      var added := RepriceLines(ChallanLinesOf(db.challanLines, dcId), db.items, db.prices, iv.partyId, iv.id);
      r := Ok(iv.id);
      var invoiced := db.(invoices := db.invoices + [iv],
                          invoiceLines := db.invoiceLines + added,
                          challans := db.challans[dcId - 1 := db.challans[dcId - 1].(status := ChallanStatus.Invoiced)]);
      InvoiceCreateOk(db, dcId, invoiceDate, today, period);
      InvoiceKeepsConsistent(db, dcId, invoiceDate, today, period);
      db := invoiced;
    }

    /** `add_payment` (v2): records the payment against the invoice's party;
        the invoice's status is left as it was. */
    method AddPayment(invoiceId: int, amount: real, today: int) returns (r: Outcome)
      requires Consistent(db)
      modifies this
      ensures Consistent(db)
      ensures !(1 <= invoiceId <= |old(db.invoices)|) ==> r == Fail(InvoiceNotFound) && db == old(db)
      ensures 1 <= invoiceId <= |old(db.invoices)| ==>
        r == Pass
        && db == old(db).(payments := old(db.payments) + [Payment(old(db.invoices)[invoiceId - 1].partyId, invoiceId, today, amount)])
    {
      if !(1 <= invoiceId <= |db.invoices|) {
        return Fail(InvoiceNotFound);
      }
      var iv := db.invoices[invoiceId - 1];
      db := db.(payments := db.payments + [Payment(iv.partyId, invoiceId, today, amount)]);
      r := Pass;
    }

    // -------------------------------------------------------------------
    // Statements

    /** `statements_view` (v2): the party's invoices within the range, and
        the rounded sums of their positive balances. */
    method StatementsView(partyId: int, fromDate: Option<int>, toDate: Option<int>, today: int)
      returns (r: Result<Statement>)
      ensures r == StatementOf(db, partyId, fromDate, toDate, today)
    {
      if partyId !in db.parties {
        return Err(PartyNotFound);
      }
      var party := db.parties[partyId];
      var rows, outstanding, overdue := StatementRows(
        InvoicesOf(db.invoices, partyId), db.invoiceLines, db.payments, party.paymentTermsDays, fromDate, toDate, today);
      r := Ok(Statement(rows, Summary(Round2(outstanding), Round2(overdue))));
    }

    // -------------------------------------------------------------------
    // Return notes

    /** `returns_create`: a new OPEN return note, dated `returnDate` or today. */
    method ReturnsCreate(partyId: int, warehouseId: int, returnDate: Option<int>, today: int, period: string)
      returns (returnId: int)
      requires Consistent(db)
      modifies this
      ensures Consistent(db)
      ensures returnId == |old(db.returnNotes)| + 1
      ensures db == old(db).(returnNotes := old(db.returnNotes) + [
        ReturnNote(returnId, NextNoOf("RN", period, RnNos(old(db.returnNotes))), partyId, warehouseId,
                   if returnDate.Some? then returnDate.value else today, ReturnStatus.Open)])
    {
      var no := NextNo("RN", period, RnNos(db.returnNotes));
      returnId := |db.returnNotes| + 1;
      var date := if returnDate.Some? then returnDate.value else today;
      db := db.(returnNotes := db.returnNotes + [ReturnNote(returnId, no, partyId, warehouseId, date, ReturnStatus.Open)]);
    }

    /** `returns_add_line`: only on an OPEN note; the qty is not checked. */
    method ReturnsAddLine(returnId: int, itemId: int, qty: int) returns (r: Outcome)
      requires Consistent(db)
      modifies this
      ensures Consistent(db)
      ensures !ReturnOpen(old(db), returnId) ==> r == Fail(ReturnNotOpen) && db == old(db)
      ensures ReturnOpen(old(db), returnId) ==>
        r == Pass && db == old(db).(returnLines := old(db.returnLines) + [ReturnLine(returnId, itemId, qty)])
    {
      if !(1 <= returnId <= |db.returnNotes|) || db.returnNotes[returnId - 1].status != ReturnStatus.Open {
        return Fail(ReturnNotOpen);
      }
      db := db.(returnLines := db.returnLines + [ReturnLine(returnId, itemId, qty)]);
      r := Pass;
    }

    /** `returns_post`: each line's qty goes back to the note's warehouse. */
    method ReturnsPost(returnId: int) returns (r: Outcome)
      requires Consistent(db)
      modifies this
      ensures Consistent(db)
      ensures Reply(r, db) == ReturnsPostOf(old(db), returnId)
    {
      if !(1 <= returnId <= |db.returnNotes|) || db.returnNotes[returnId - 1].status != ReturnStatus.Open {
        return Fail(ReturnNotOpen);
      }
      PostKeepsConsistent(db, returnId);
      var rn := db.returnNotes[returnId - 1];
      var restocked := RestockLines(db.stock, rn.warehouseId, ReturnLinesOf(db.returnLines, returnId));
      db := db.(stock := restocked, returnNotes := db.returnNotes[returnId - 1 := rn.(status := ReturnStatus.Posted)]);
      r := Pass;
    }
  }
}
