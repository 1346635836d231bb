/** The v2 order-to-cash handlers as functions from a snapshot of the tables
    to the reply and the tables afterwards. A request that fails leaves
    exactly what it had committed before failing. */
module Flow {
  import opened Common
  import opened Records
  import opened Ledger
  import opened Pricing
  import opened Totals
  import opened Numbering
  import opened Dispatch
  import opened Billing

  // ---------------------------------------------------------------------
  // Queries over the line tables

  function OrderLinesOf(lines: seq<SalesOrderLine>, soId: int): (r: seq<SalesOrderLine>)
    ensures forall l :: l in r <==> l in lines && l.soId == soId
  {
    if lines == [] then []
    else
      var last := lines[|lines| - 1];
      OrderLinesOf(lines[..|lines| - 1], soId) + (if last.soId == soId then [last] else [])
  }

  function ChallanLinesOf(lines: seq<ChallanLine>, dcId: int): (r: seq<ChallanLine>)
    ensures forall l :: l in r <==> l in lines && l.dcId == dcId
  {
    if lines == [] then []
    else
      var last := lines[|lines| - 1];
      ChallanLinesOf(lines[..|lines| - 1], dcId) + (if last.dcId == dcId then [last] else [])
  }

  function ReturnLinesOf(lines: seq<ReturnLine>, returnId: int): (r: seq<ReturnLine>)
    ensures forall l :: l in r <==> l in lines && l.returnId == returnId
  {
    if lines == [] then []
    else
      var last := lines[|lines| - 1];
      ReturnLinesOf(lines[..|lines| - 1], returnId) + (if last.returnId == returnId then [last] else [])
  }

  lemma {:induction false} NoLinesOf(ls: seq<InvoiceLine>, invoiceId: int)
    requires forall l :: l in ls ==> l.invoiceId != invoiceId
    ensures LinesOf(ls, invoiceId) == []
  {
    if ls != [] {
      var init := ls[..|ls| - 1];
      assert forall l :: l in init ==> l in ls;
      NoLinesOf(init, invoiceId);
      assert ls[|ls| - 1] in ls;
    }
  }

  /** Lines appended under a fresh invoice id are exactly that invoice's lines. */
  lemma {:induction false} FreshInvoiceLines(before: seq<InvoiceLine>, added: seq<InvoiceLine>, invoiceId: int)
    requires forall l :: l in before ==> l.invoiceId != invoiceId
    requires forall l :: l in added ==> l.invoiceId == invoiceId
    ensures LinesOf(before + added, invoiceId) == added
  {
    if added == [] {
      assert before + added == before;
      NoLinesOf(before, invoiceId);
    } else {
      var init := added[..|added| - 1];
      assert forall l :: l in init ==> l in added;
      FreshInvoiceLines(before, init, invoiceId);
      assert (before + added)[..|before + added| - 1] == before + init;
      assert added[|added| - 1] in added;
      assert init + [added[|added| - 1]] == added;
    }
  }

  // ---------------------------------------------------------------------
  // Document numbers already issued, per table

  function SoNos(os: seq<SalesOrder>): (r: seq<string>)
    ensures |r| == |os| && forall j :: 0 <= j < |os| ==> r[j] == os[j].soNo
  {
    seq(|os|, j requires 0 <= j < |os| => os[j].soNo)
  }

  function DcNos(cs: seq<Challan>): (r: seq<string>)
    ensures |r| == |cs| && forall j :: 0 <= j < |cs| ==> r[j] == cs[j].dcNo
  {
    seq(|cs|, j requires 0 <= j < |cs| => cs[j].dcNo)
  }

  function RnNos(rs: seq<ReturnNote>): (r: seq<string>)
    ensures |r| == |rs| && forall j :: 0 <= j < |rs| ==> r[j] == rs[j].rnNo
  {
    seq(|rs|, j requires 0 <= j < |rs| => rs[j].rnNo)
  }

  function InvoiceNos(ivs: seq<Invoice>): (r: seq<string>)
    ensures |r| == |ivs| && forall j :: 0 <= j < |ivs| ==> r[j] == ivs[j].invoiceNo
  {
    seq(|ivs|, j requires 0 <= j < |ivs| => ivs[j].invoiceNo)
  }

  // ---------------------------------------------------------------------
  // The tables

  /** A snapshot of every table the flow reads or writes. Header tables keep
      the row with id k at position k - 1. */
  datatype Db = Db(
    items: map<int, Item>,
    parties: map<int, Party>,
    prices: PriceTable,
    stock: map<Key, int>,
    orders: seq<SalesOrder>,
    orderLines: seq<SalesOrderLine>,
    challans: seq<Challan>,
    challanLines: seq<ChallanLine>,
    invoices: seq<Invoice>,
    invoiceLines: seq<InvoiceLine>,
    payments: seq<Payment>,
    returnNotes: seq<ReturnNote>,
    returnLines: seq<ReturnLine>)

  /** What a handler answers, with the tables as it leaves them. */
  datatype Reply<T> = Reply(result: T, db: Db)

  /** Rows are keyed by their ids, and every invoice line belongs to an invoice. */
  predicate Consistent(db: Db)
  {
    Keyed(db.items)
    && (forall id :: id in db.parties ==> db.parties[id].id == id)
    && (forall k :: 0 <= k < |db.orders| ==> db.orders[k].id == k + 1)
    && (forall k :: 0 <= k < |db.challans| ==> db.challans[k].id == k + 1)
    && (forall k :: 0 <= k < |db.invoices| ==> db.invoices[k].id == k + 1)
    && (forall k :: 0 <= k < |db.returnNotes| ==> db.returnNotes[k].id == k + 1)
    && (forall l :: l in db.invoiceLines ==> 1 <= l.invoiceId <= |db.invoices|)
  }

  // ---------------------------------------------------------------------
  // challan_create

  predicate IsApproved(db: Db, soId: int)
  {
    1 <= soId <= |db.orders| && db.orders[soId - 1].status == OrderStatus.Approved
  }

  /** The header `challan_create` commits first. */
  function NextChallan(db: Db, soId: int, period: string): Challan
  {
    Challan(|db.challans| + 1, NextNoOf("DC", period, DcNos(db.challans)), soId, ChallanStatus.Open)
  }

  /** The dispatch of order `soId` against its warehouse from the current stock. */
  function PlannedDispatch(db: Db, soId: int): Run
    requires 1 <= soId <= |db.orders|
  {
    RunAll(Start(db.stock), db.orders[soId - 1].warehouseId, |db.challans| + 1, OrderLinesOf(db.orderLines, soId))
  }

  /** `challan_create`: an order that is not APPROVED is refused with nothing
      written. Otherwise the header is committed whatever follows; a complete
      dispatch adds its lines, takes the stock and marks the order
      DISPATCHED, while a line short of stock leaves what was committed
      when `get_stock` last created a row. */
  function ChallanCreateOf(db: Db, soId: int, period: string): (r: Reply<Result<int>>)
    ensures !IsApproved(db, soId) ==> r == Reply(Err(SalesOrderNotApproved), db)
    ensures IsApproved(db, soId) ==> r.db.challans == db.challans + [NextChallan(db, soId, period)]
    ensures r.result.Ok? ==> r.result.value == |db.challans| + 1
    ensures r.result.Err? ==> r.result.error.SalesOrderNotApproved? || r.result.error.InsufficientStock?
  {
    if !IsApproved(db, soId) then Reply(Err(SalesOrderNotApproved), db)
    else
      var dc := NextChallan(db, soId, period);
      var d := PlannedDispatch(db, soId);
      if d.failure.None? then
        Reply(Ok(dc.id), db.(
          stock := d.stock,
          orders := db.orders[soId - 1 := db.orders[soId - 1].(status := OrderStatus.Dispatched)],
          challans := db.challans + [dc],
          challanLines := db.challanLines + d.lines))
      else
        assert d.failure.value.InsufficientStock? by { RunFailsOnStock(Start(db.stock), db.orders[soId - 1].warehouseId, dc.id, OrderLinesOf(db.orderLines, soId)); }
        Reply(Err(d.failure.value), db.(
          stock := d.savedStock,
          challans := db.challans + [dc],
          challanLines := db.challanLines + d.savedLines))
  }

  /** A dispatch only ever fails for want of stock. */
  lemma {:induction false} RunFailsOnStock(d0: Run, warehouseId: int, dcId: int, ls: seq<SalesOrderLine>)
    requires d0.failure.None?
    ensures RunAll(d0, warehouseId, dcId, ls).failure.Some? ==> RunAll(d0, warehouseId, dcId, ls).failure.value.InsufficientStock?
  {
    if ls != [] {
      RunFailsOnStock(d0, warehouseId, dcId, ls[..|ls| - 1]);
    }
  }

  /** An approved order is dispatched exactly when its warehouse covers its
      lines cumulatively. */
  lemma ChallanSucceedsIffCovered(db: Db, soId: int, period: string)
    requires IsApproved(db, soId)
    ensures ChallanCreateOf(db, soId, period).result.Ok?
            <==> Covered(db.stock, db.orders[soId - 1].warehouseId, OrderLinesOf(db.orderLines, soId))
  {
    RunCompletesIffCovered(Start(db.stock), db.orders[soId - 1].warehouseId, |db.challans| + 1, OrderLinesOf(db.orderLines, soId));
  }

  /** A dispatched order has taken the total qty of each item from its
      warehouse, left other warehouses alone, got one challan line per order
      line, and is DISPATCHED. */
  lemma ChallanDeducts(db: Db, soId: int, period: string)
    requires ChallanCreateOf(db, soId, period).result.Ok?
    ensures var r := ChallanCreateOf(db, soId, period);
      var w := db.orders[soId - 1].warehouseId;
      var ls := OrderLinesOf(db.orderLines, soId);
      (forall i :: Qty(r.db.stock, (w, i)) == Qty(db.stock, (w, i)) - OrderedQty(ls, i))
      && (forall k: Key :: k.0 != w ==> Qty(r.db.stock, k) == Qty(db.stock, k))
      && r.db.challanLines == db.challanLines + Copied(ls, r.result.value)
      && r.db.orders[soId - 1].status == OrderStatus.Dispatched
  {
    var w := db.orders[soId - 1].warehouseId;
    var ls := OrderLinesOf(db.orderLines, soId);
    var d := PlannedDispatch(db, soId);
    CompleteRunDeducts(Start(db.stock), w, |db.challans| + 1, ls);
    assert IsApproved(db, soId) && d.failure.None?;
    assert d.lines == Copied(ls, |db.challans| + 1) by {
      assert Start(db.stock).lines == [];
      assert [] + Copied(ls, |db.challans| + 1) == Copied(ls, |db.challans| + 1);
    }
    var r := ChallanCreateOf(db, soId, period);
    assert r.result.value == |db.challans| + 1;
    assert r.db.stock == d.stock && r.db.challanLines == db.challanLines + d.lines;
  }

  /** Dispatch, complete or not, never drives a stock row negative. */
  lemma ChallanKeepsStockNonNegative(db: Db, soId: int, period: string)
    requires NonNegative(db.stock)
    ensures NonNegative(ChallanCreateOf(db, soId, period).db.stock)
  {
    if IsApproved(db, soId) {
      RunKeepsNonNegative(Start(db.stock), db.orders[soId - 1].warehouseId, |db.challans| + 1, OrderLinesOf(db.orderLines, soId));
    }
  }

  /** When every line's stock row already exists a refused dispatch keeps
      only the header: the stock and the challan lines are as before. */
  lemma ChallanFailureWithRowsKeepsStock(db: Db, soId: int, period: string)
    requires IsApproved(db, soId)
    requires forall l :: l in OrderLinesOf(db.orderLines, soId) ==> (db.orders[soId - 1].warehouseId, l.itemId) in db.stock
    requires ChallanCreateOf(db, soId, period).result.Err?
    ensures ChallanCreateOf(db, soId, period).db == db.(challans := db.challans + [NextChallan(db, soId, period)])
  {
    var ls := OrderLinesOf(db.orderLines, soId);
    assert forall j :: 0 <= j < |ls| ==> ls[j] in ls;
    NoNewRowNoCommit(Start(db.stock), db.orders[soId - 1].warehouseId, |db.challans| + 1, ls);
  }

  lemma ChallanKeepsConsistent(db: Db, soId: int, period: string)
    requires Consistent(db)
    ensures Consistent(ChallanCreateOf(db, soId, period).db)
  {
    if IsApproved(db, soId) {
      var db2 := ChallanCreateOf(db, soId, period).db;
      assert db2.items == db.items && db2.parties == db.parties && db2.invoices == db.invoices
        && db2.returnNotes == db.returnNotes && db2.invoiceLines == db.invoiceLines;
      assert |db2.orders| == |db.orders| && forall k :: 0 <= k < |db.orders| ==> db2.orders[k].id == db.orders[k].id;
      assert db2.challans == db.challans + [NextChallan(db, soId, period)];
      assert forall k :: 0 <= k < |db2.challans| ==> db2.challans[k].id == k + 1;
    }
  }

  /** Approval does not look at the current status, so an order that has
      been dispatched can be approved and passes the challan gate again. */
  lemma DispatchedOrderCanBeDispatchedAgain(db: Db, soId: int, period: string)
    requires 1 <= soId <= |db.orders| && db.orders[soId - 1].status == OrderStatus.Dispatched
    ensures var approved := db.(orders := db.orders[soId - 1 := db.orders[soId - 1].(status := OrderStatus.Approved)]);
      ChallanCreateOf(approved, soId, period).result != Err(SalesOrderNotApproved)
      && ChallanCreateOf(approved, soId, period).db.challans == db.challans + [NextChallan(db, soId, period)]
  {
    var approved := db.(orders := db.orders[soId - 1 := db.orders[soId - 1].(status := OrderStatus.Approved)]);
    assert IsApproved(approved, soId);
    var r := ChallanCreateOf(approved, soId, period);
    if r.result.Err? {
      var d := PlannedDispatch(approved, soId);
      RunFailsOnStock(Start(approved.stock), approved.orders[soId - 1].warehouseId, |approved.challans| + 1, OrderLinesOf(approved.orderLines, soId));
    }
  }

  // ---------------------------------------------------------------------
  // invoice_create

  /** The first reason `invoice_create` refuses challan `dcId`, in the
      handler's order, or None when it goes ahead. */
  function InvoiceBlocker(db: Db, dcId: int, today: int): (r: Option<Failure>)
    ensures r.None? ==> Billable(db, dcId)
  {
    if !(1 <= dcId <= |db.challans|) || db.challans[dcId - 1].status != ChallanStatus.Open then Some(ChallanNotAvailable)
    else
      var dc := db.challans[dcId - 1];
      if !(1 <= dc.soId <= |db.orders|) then Some(SalesOrderMissingForChallan)
      else
        var so := db.orders[dc.soId - 1];
        if so.partyId !in db.parties then Some(PartyNotFound)
        else
          var party := db.parties[so.partyId];
          var summary := SummaryOf(InvoicesOf(db.invoices, party.id), db.invoiceLines, db.payments, party.paymentTermsDays, today);
          if party.isBlocked then Some(PartyBlocked)
          else if summary.overdue > 0.0 then Some(OverduePending(summary.overdue))
          else CreditCheck(party.creditLimit, summary.outstanding,
                           Projected(ChallanLinesOf(db.challanLines, dcId), db.items, db.prices, party.id))
  }

  /** The challan exists, its order exists and the order's party exists. */
  predicate Billable(db: Db, dcId: int)
  {
    1 <= dcId <= |db.challans|
    && 1 <= db.challans[dcId - 1].soId <= |db.orders|
    && db.orders[db.challans[dcId - 1].soId - 1].partyId in db.parties
  }

  function BilledParty(db: Db, dcId: int): Party
    requires Billable(db, dcId)
  {
    db.parties[db.orders[db.challans[dcId - 1].soId - 1].partyId]
  }

  /** The header `invoice_create` writes for challan `dcId`. */
  function NextInvoice(db: Db, dcId: int, invoiceDate: int, period: string): Invoice
    requires Billable(db, dcId)
  {
    var party := BilledParty(db, dcId);
    Invoice(|db.invoices| + 1, NextNoOf("INV", period, InvoiceNos(db.invoices)), dcId, party.id,
            db.orders[db.challans[dcId - 1].soId - 1].warehouseId, invoiceDate, party.state, InvoiceStatus.Open)
  }

  /** `invoice_create`: refused, with nothing written, for the first reason
      `InvoiceBlocker` finds; otherwise an OPEN invoice, one repriced line per
      challan line whose item exists, and the challan marked INVOICED. */
  function InvoiceCreateOf(db: Db, dcId: int, invoiceDate: int, today: int, period: string): (r: Reply<Result<int>>)
    requires Keyed(db.items)
    ensures r.result.Err? <==> InvoiceBlocker(db, dcId, today).Some?
    ensures r.result.Err? ==> r.result.error == InvoiceBlocker(db, dcId, today).value && r.db == db
    ensures r.result.Ok? ==> Billable(db, dcId) && r.result.value == |db.invoices| + 1
  {
    var blocker := InvoiceBlocker(db, dcId, today);
    if blocker.Some? then Reply(Err(blocker.value), db)
    else
      var iv := NextInvoice(db, dcId, invoiceDate, period);
      Reply(Ok(iv.id), db.(
        invoices := db.invoices + [iv],
        invoiceLines := db.invoiceLines + Reprice(ChallanLinesOf(db.challanLines, dcId), db.items, db.prices, iv.partyId, iv.id),
        challans := db.challans[dcId - 1 := db.challans[dcId - 1].(status := ChallanStatus.Invoiced)]))
  }

  /** With no blocker, `invoice_create` appends the next header and its
      repriced lines and marks the challan INVOICED. */
  lemma InvoiceCreateOk(db: Db, dcId: int, invoiceDate: int, today: int, period: string)
    requires Keyed(db.items)
    requires InvoiceBlocker(db, dcId, today).None?
    ensures Billable(db, dcId)
    ensures var iv := NextInvoice(db, dcId, invoiceDate, period);
      InvoiceCreateOf(db, dcId, invoiceDate, today, period)
      == Reply(Ok(|db.invoices| + 1), db.(
           invoices := db.invoices + [iv],
           invoiceLines := db.invoiceLines + Reprice(ChallanLinesOf(db.challanLines, dcId), db.items, db.prices, BilledParty(db, dcId).id, iv.id),
           challans := db.challans[dcId - 1 := db.challans[dcId - 1].(status := ChallanStatus.Invoiced)]))
  {
  }

  /** The invoice written has a fresh number, and the unrounded total of its
      lines is the projected total the credit check used. */
  lemma InvoiceMatchesProjection(db: Db, dcId: int, invoiceDate: int, today: int, period: string)
    requires Consistent(db)
    requires InvoiceCreateOf(db, dcId, invoiceDate, today, period).result.Ok?
    ensures var r := InvoiceCreateOf(db, dcId, invoiceDate, today, period);
      var id := r.result.value;
      r.db.invoices[id - 1] == NextInvoice(db, dcId, invoiceDate, period)
      && RawTotal(LinesOf(r.db.invoiceLines, id))
         == Projected(ChallanLinesOf(db.challanLines, dcId), db.items, db.prices, BilledParty(db, dcId).id)
      && r.db.invoices[id - 1].invoiceNo !in InvoiceNos(db.invoices)
  {
    var iv := NextInvoice(db, dcId, invoiceDate, period);
    var added := Reprice(ChallanLinesOf(db.challanLines, dcId), db.items, db.prices, iv.partyId, iv.id);
    FreshInvoiceLines(db.invoiceLines, added, iv.id);
    ProjectionIsInvoiceTotal(ChallanLinesOf(db.challanLines, dcId), db.items, db.prices, iv.partyId, iv.id);
    NextNoIsFresh("INV", period, InvoiceNos(db.invoices));
  }

  /** A challan is invoiced at most once: a second request on it is refused. */
  lemma SecondInvoiceRefused(db: Db, dcId: int, invoiceDate: int, today: int, period: string,
                             invoiceDate2: int, today2: int, period2: string)
    requires Keyed(db.items)
    requires InvoiceCreateOf(db, dcId, invoiceDate, today, period).result.Ok?
    ensures var db2 := InvoiceCreateOf(db, dcId, invoiceDate, today, period).db;
      InvoiceCreateOf(db2, dcId, invoiceDate2, today2, period2).result == Err(ChallanNotAvailable)
  {
  }

  /** What a successful `invoice_create` writes: the next invoice header,
      exactly the repriced challan lines as its lines, and the challan marked
      INVOICED; no other table changes. */
  lemma InvoiceCreateWrites(db: Db, dcId: int, invoiceDate: int, today: int, period: string)
    requires Consistent(db)
    requires InvoiceCreateOf(db, dcId, invoiceDate, today, period).result.Ok?
    ensures var r := InvoiceCreateOf(db, dcId, invoiceDate, today, period);
      var id := r.result.value;
      r.db.invoices == db.invoices + [NextInvoice(db, dcId, invoiceDate, period)]
      && LinesOf(r.db.invoiceLines, id)
         == Reprice(ChallanLinesOf(db.challanLines, dcId), db.items, db.prices, BilledParty(db, dcId).id, id)
      && |r.db.challans| == |db.challans|
      && r.db.challans[dcId - 1].status == ChallanStatus.Invoiced
      && (forall k :: 0 <= k < |db.challans| && k != dcId - 1 ==> r.db.challans[k] == db.challans[k])
      && r.db.stock == db.stock && r.db.orders == db.orders && r.db.payments == db.payments
      && r.db.challanLines == db.challanLines && r.db.returnNotes == db.returnNotes
      && r.db.returnLines == db.returnLines && r.db.prices == db.prices
  {
    var iv := NextInvoice(db, dcId, invoiceDate, period);
    var added := Reprice(ChallanLinesOf(db.challanLines, dcId), db.items, db.prices, iv.partyId, iv.id);
    FreshInvoiceLines(db.invoiceLines, added, iv.id);
  }

  /** The refusals of `invoice_create` come in the handler's order: the
      challan, then a blocked party, then overdue money, then the credit
      limit. */
  lemma InvoiceRefusalOrder(db: Db, dcId: int, today: int)
    ensures !(1 <= dcId <= |db.challans|) || db.challans[dcId - 1].status != ChallanStatus.Open ==>
      InvoiceBlocker(db, dcId, today) == Some(ChallanNotAvailable)
    ensures Billable(db, dcId) && db.challans[dcId - 1].status == ChallanStatus.Open && BilledParty(db, dcId).isBlocked ==>
      InvoiceBlocker(db, dcId, today) == Some(PartyBlocked)
    ensures Billable(db, dcId) && db.challans[dcId - 1].status == ChallanStatus.Open && !BilledParty(db, dcId).isBlocked ==>
      var party := BilledParty(db, dcId);
      var summary := SummaryOf(InvoicesOf(db.invoices, party.id), db.invoiceLines, db.payments, party.paymentTermsDays, today);
      InvoiceBlocker(db, dcId, today)
        == if summary.overdue > 0.0 then Some(OverduePending(summary.overdue))
           else CreditCheck(party.creditLimit, summary.outstanding,
                            Projected(ChallanLinesOf(db.challanLines, dcId), db.items, db.prices, party.id))
  {
  }

  lemma InvoiceKeepsConsistent(db: Db, dcId: int, invoiceDate: int, today: int, period: string)
    requires Consistent(db)
    ensures Consistent(InvoiceCreateOf(db, dcId, invoiceDate, today, period).db)
  {
    if InvoiceBlocker(db, dcId, today).None? {
      var iv := NextInvoice(db, dcId, invoiceDate, period);
      var added := Reprice(ChallanLinesOf(db.challanLines, dcId), db.items, db.prices, iv.partyId, iv.id);
      var db2 := InvoiceCreateOf(db, dcId, invoiceDate, today, period).db;
      assert db2 == db.(invoices := db.invoices + [iv], invoiceLines := db.invoiceLines + added,
                        challans := db.challans[dcId - 1 := db.challans[dcId - 1].(status := ChallanStatus.Invoiced)]);
      assert forall k :: 0 <= k < |db2.invoices| ==> db2.invoices[k].id == k + 1 by {
        assert forall k :: 0 <= k < |db.invoices| ==> db2.invoices[k] == db.invoices[k];
      }
      assert forall k :: 0 <= k < |db2.challans| ==> db2.challans[k].id == k + 1;
      assert forall l :: l in db2.invoiceLines ==> 1 <= l.invoiceId <= |db2.invoices| by {
        assert forall l :: l in db2.invoiceLines ==> l in db.invoiceLines || l in added;
      }
    }
  }

  // ---------------------------------------------------------------------
  // returns_post

  predicate ReturnOpen(db: Db, returnId: int)
  {
    1 <= returnId <= |db.returnNotes| && db.returnNotes[returnId - 1].status == ReturnStatus.Open
  }

  /** `returns_post`: adds each of the note's lines back to its warehouse and
      marks the note POSTED; a note that is missing or not OPEN is refused. */
  function ReturnsPostOf(db: Db, returnId: int): (r: Reply<Outcome>)
    ensures !ReturnOpen(db, returnId) ==> r == Reply(Fail(ReturnNotOpen), db)
    ensures ReturnOpen(db, returnId) ==> r.result == Pass && !ReturnOpen(r.db, returnId)
  {
    if !ReturnOpen(db, returnId) then Reply(Fail(ReturnNotOpen), db)
    else
      var rn := db.returnNotes[returnId - 1];
      Reply(Pass, db.(
        stock := Restock(db.stock, rn.warehouseId, ReturnLinesOf(db.returnLines, returnId)),
        returnNotes := db.returnNotes[returnId - 1 := rn.(status := ReturnStatus.Posted)]))
  }

  /** Posting raises each item at the note's warehouse by the qty returned and
      touches no other warehouse; posting again is refused. */
  lemma PostAddsReturnedQty(db: Db, returnId: int)
    requires ReturnOpen(db, returnId)
    ensures var r := ReturnsPostOf(db, returnId);
      var w := db.returnNotes[returnId - 1].warehouseId;
      var ls := ReturnLinesOf(db.returnLines, returnId);
      (forall i :: Qty(r.db.stock, (w, i)) == Qty(db.stock, (w, i)) + ReturnedQty(ls, i))
      && (forall k: Key :: k.0 != w ==> Qty(r.db.stock, k) == Qty(db.stock, k))
      && ReturnsPostOf(r.db, returnId).result == Fail(ReturnNotOpen)
  {
    RestockAdds(db.stock, db.returnNotes[returnId - 1].warehouseId, ReturnLinesOf(db.returnLines, returnId));
  }

  /** With no negative qty among the return lines, posting keeps stock non-negative. */
  lemma PostKeepsStockNonNegative(db: Db, returnId: int)
    requires NonNegative(db.stock)
    requires forall l :: l in db.returnLines ==> l.qty >= 0
    ensures NonNegative(ReturnsPostOf(db, returnId).db.stock)
  {
    if ReturnOpen(db, returnId) {
      var ls := ReturnLinesOf(db.returnLines, returnId);
      assert forall j :: 0 <= j < |ls| ==> ls[j] in ls;
      RestockKeepsNonNegative(db.stock, db.returnNotes[returnId - 1].warehouseId, ls);
    }
  }

  lemma PostKeepsConsistent(db: Db, returnId: int)
    requires Consistent(db)
    ensures Consistent(ReturnsPostOf(db, returnId).db)
  {
  }

  // ---------------------------------------------------------------------
  // statements_view

  /** A statement row: the invoice and its figures. */
  datatype StatementRow = StatementRow(invoice: Invoice, totals: Totals)

  datatype Statement = Statement(rows: seq<StatementRow>, summary: Summary)

  function RowsOf(invs: seq<Invoice>, lines: seq<InvoiceLine>, payments: seq<Payment>): (r: seq<StatementRow>)
    ensures |r| == |invs|
    ensures forall j :: 0 <= j < |invs| ==> r[j] == StatementRow(invs[j], InvoiceTotalsOf(lines, payments, invs[j].id))
  {
    if invs == [] then []
    else RowsOf(invs[..|invs| - 1], lines, payments)
         + [StatementRow(invs[|invs| - 1], InvoiceTotalsOf(lines, payments, invs[|invs| - 1].id))]
  }

  /** Every invoice shown has its row. */
  lemma RowsShowAll(invs: seq<Invoice>, lines: seq<InvoiceLine>, payments: seq<Payment>)
    ensures forall iv :: iv in invs ==>
      StatementRow(iv, InvoiceTotalsOf(lines, payments, iv.id)) in RowsOf(invs, lines, payments)
  {
    forall iv | iv in invs
      ensures StatementRow(iv, InvoiceTotalsOf(lines, payments, iv.id)) in RowsOf(invs, lines, payments)
    {
      var j :| 0 <= j < |invs| && invs[j] == iv;
      assert RowsOf(invs, lines, payments)[j] == StatementRow(iv, InvoiceTotalsOf(lines, payments, iv.id));
    }
  }

  /** One more invoice shown: one more row, and its positive balance added
      to the outstanding sum and, when past due, to the overdue sum. */
  lemma StatementGrows(shown: seq<Invoice>, iv: Invoice, lines: seq<InvoiceLine>, payments: seq<Payment>,
                       terms: int, today: int)
    ensures RowsOf(shown + [iv], lines, payments)
      == RowsOf(shown, lines, payments) + [StatementRow(iv, InvoiceTotalsOf(lines, payments, iv.id))]
    ensures var bal := BalanceOf(lines, payments, iv.id);
      Outstanding(shown + [iv], lines, payments) == Outstanding(shown, lines, payments) + (if bal > 0.0 then bal else 0.0)
    ensures var bal := BalanceOf(lines, payments, iv.id);
      Overdue(shown + [iv], lines, payments, terms, today)
      == Overdue(shown, lines, payments, terms, today) + (if bal > 0.0 && IsOverdue(iv, terms, today) then bal else 0.0)
  {
    assert (shown + [iv])[..|shown|] == shown;
  }

  /** `statements_view`: the party's invoices dated within the optional
      inclusive range, each with its figures, and the outstanding and overdue
      sums over their positive balances. */
  function StatementOf(db: Db, partyId: int, fromDate: Option<int>, toDate: Option<int>, today: int)
    : (r: Result<Statement>)
    ensures r.Err? <==> partyId !in db.parties
    ensures r.Err? ==> r.error == PartyNotFound
    ensures r.Ok? ==> forall row :: row in r.value.rows ==>
      row.invoice in db.invoices && row.invoice.partyId == partyId && WithinDates(row.invoice, fromDate, toDate)
    ensures r.Ok? ==> forall iv :: iv in db.invoices && iv.partyId == partyId && WithinDates(iv, fromDate, toDate) ==>
      StatementRow(iv, InvoiceTotalsOf(db.invoiceLines, db.payments, iv.id)) in r.value.rows
  {
    if partyId !in db.parties then Err(PartyNotFound)
    else
      var shown := InRange(InvoicesOf(db.invoices, partyId), fromDate, toDate);
      InRangeMembers(InvoicesOf(db.invoices, partyId), fromDate, toDate);
      RowsShowAll(shown, db.invoiceLines, db.payments);
      Ok(Statement(RowsOf(shown, db.invoiceLines, db.payments),
                   SummaryOf(shown, db.invoiceLines, db.payments, db.parties[partyId].paymentTermsDays, today)))
  }

  /** A statement never shows more overdue than outstanding, and without a
      date range its figures are the party summary credit control uses. */
  lemma StatementAgreesWithSummary(db: Db, partyId: int, fromDate: Option<int>, toDate: Option<int>, today: int)
    requires partyId in db.parties
    ensures var s := StatementOf(db, partyId, fromDate, toDate, today).value.summary;
      0.0 <= s.overdue <= s.outstanding
    ensures fromDate.None? && toDate.None? ==>
      StatementOf(db, partyId, fromDate, toDate, today).value.summary
      == SummaryOf(InvoicesOf(db.invoices, partyId), db.invoiceLines, db.payments, db.parties[partyId].paymentTermsDays, today)
  {
    var shown := InRange(InvoicesOf(db.invoices, partyId), fromDate, toDate);
    SummaryBounds(shown, db.invoiceLines, db.payments, db.parties[partyId].paymentTermsDays, today);
    UnboundedRangeIsAll(InvoicesOf(db.invoices, partyId));
  }
}
