/** The stock movements of the v2 flow as functions on the stock table:
    dispatching a sales order's lines against one warehouse (with the commit
    points `get_stock` introduces), and adding a return note's lines back. */
module Dispatch {
  import opened Common
  import opened Records
  import opened Ledger

  // ---------------------------------------------------------------------
  // Dispatch (challan_create)

  /** The state of a dispatch in progress: the session's pending stock and
      challan lines, what has been committed so far (`savedStock`,
      `savedLines`), and the failure that stopped it, if any. */
  datatype Run = Run(
    stock: map<Key, int>,
    lines: seq<ChallanLine>,
    savedStock: map<Key, int>,
    savedLines: seq<ChallanLine>,
    failure: Option<Failure>)

  /** Nothing pending yet: the header has just been committed. */
  function Start(stock: map<Key, int>): (d: Run)
    ensures d.failure.None? && d.lines == [] && d.savedLines == []
    ensures d.stock == stock && d.savedStock == stock
  {
    Run(stock, [], stock, [], None)
  }

  /** One order line: fetch (or create and commit) the stock row, refuse when
      the pending qty is short, otherwise decrement it and add a challan line. */
  function Step(d: Run, warehouseId: int, dcId: int, ln: SalesOrderLine): (r: Run)
    ensures d.failure.Some? ==> r == d
  {
    if d.failure.Some? then d
    else
      var k := (warehouseId, ln.itemId);
      var created := k !in d.stock;
      var stock := WithRow(d.stock, k);
      // get_stock commits a new row, and with it everything pending
      var savedStock := if created then stock else d.savedStock;
      var savedLines := if created then d.lines else d.savedLines;
      if stock[k] < ln.qty then
        Run(stock, d.lines, savedStock, savedLines, Some(InsufficientStock(ln.itemId, stock[k])))
      else
        Run(stock[k := stock[k] - ln.qty], d.lines + [ChallanLine(dcId, ln.itemId, ln.qty)],
            savedStock, savedLines, None)
  }

  /** The run over all the order's lines, in table order. */
  function RunAll(d: Run, warehouseId: int, dcId: int, ls: seq<SalesOrderLine>): Run
  {
    if ls == [] then d else Step(RunAll(d, warehouseId, dcId, ls[..|ls| - 1]), warehouseId, dcId, ls[|ls| - 1])
  }

  /** Total qty the lines `ls` ask for item `itemId`. */
  function OrderedQty(ls: seq<SalesOrderLine>, itemId: int): int
  {
    if ls == [] then 0
    else OrderedQty(ls[..|ls| - 1], itemId) + (if ls[|ls| - 1].itemId == itemId then ls[|ls| - 1].qty else 0)
  }

  /** The challan lines a complete dispatch writes: one per order line. */
  function Copied(ls: seq<SalesOrderLine>, dcId: int): (r: seq<ChallanLine>)
    ensures |r| == |ls|
    ensures forall j :: 0 <= j < |ls| ==> r[j] == ChallanLine(dcId, ls[j].itemId, ls[j].qty)
  {
    if ls == [] then [] else Copied(ls[..|ls| - 1], dcId) + [ChallanLine(dcId, ls[|ls| - 1].itemId, ls[|ls| - 1].qty)]
  }

  /** Every line finds enough stock once the earlier lines of the same item
      have been taken: the check is cumulative, line by line. */
  predicate Covered(stock: map<Key, int>, warehouseId: int, ls: seq<SalesOrderLine>)
  {
    forall j :: 0 <= j < |ls| ==>
      Qty(stock, (warehouseId, ls[j].itemId)) - OrderedQty(ls[..j], ls[j].itemId) >= ls[j].qty
  }

  /** A dispatch that completes takes exactly the ordered qty of each item from
      the warehouse, leaves every other warehouse alone, and copies every line. */
  lemma {:induction false} CompleteRunDeducts(d0: Run, warehouseId: int, dcId: int, ls: seq<SalesOrderLine>)
    requires d0.failure.None?
    ensures var d := RunAll(d0, warehouseId, dcId, ls);
      d.failure.None? ==>
        (forall i :: Qty(d.stock, (warehouseId, i)) == Qty(d0.stock, (warehouseId, i)) - OrderedQty(ls, i))
        && (forall k: Key :: k.0 != warehouseId ==> Qty(d.stock, k) == Qty(d0.stock, k))
        && d.lines == d0.lines + Copied(ls, dcId)
  {
    if ls != [] {
      var init := ls[..|ls| - 1];
      var ln := ls[|ls| - 1];
      CompleteRunDeducts(d0, warehouseId, dcId, init);
      var d' := RunAll(d0, warehouseId, dcId, init);
      var d := Step(d', warehouseId, dcId, ln);
      if d.failure.None? {
        assert Copied(ls, dcId) == Copied(init, dcId) + [ChallanLine(dcId, ln.itemId, ln.qty)];
        assert d.lines == d0.lines + Copied(ls, dcId);
        forall i
          ensures Qty(d.stock, (warehouseId, i)) == Qty(d0.stock, (warehouseId, i)) - OrderedQty(ls, i)
        {
        }
      }
    }
  }

  /** A dispatch completes exactly when the stock covers the lines cumulatively. */
  lemma {:induction false} RunCompletesIffCovered(d0: Run, warehouseId: int, dcId: int, ls: seq<SalesOrderLine>)
    requires d0.failure.None?
    ensures RunAll(d0, warehouseId, dcId, ls).failure.None? <==> Covered(d0.stock, warehouseId, ls)
  {
    if ls != [] {
      var init := ls[..|ls| - 1];
      var ln := ls[|ls| - 1];
      var n := |init|;
      RunCompletesIffCovered(d0, warehouseId, dcId, init);
      var d' := RunAll(d0, warehouseId, dcId, init);
      assert forall j :: 0 <= j < n ==> ls[j] == init[j] && ls[..j] == init[..j];
      assert ls[..n] == init;
      if d'.failure.Some? {
        var j :| 0 <= j < n && Qty(d0.stock, (warehouseId, init[j].itemId)) - OrderedQty(init[..j], init[j].itemId) < init[j].qty;
        assert !Covered(d0.stock, warehouseId, ls);
      } else {
        CompleteRunDeducts(d0, warehouseId, dcId, init);
        assert Qty(d'.stock, (warehouseId, ln.itemId)) == Qty(d0.stock, (warehouseId, ln.itemId)) - OrderedQty(init, ln.itemId);
        if Covered(d0.stock, warehouseId, ls) {
          assert Qty(d0.stock, (warehouseId, ls[n].itemId)) - OrderedQty(ls[..n], ls[n].itemId) >= ls[n].qty;
        } else {
          var j :| 0 <= j < |ls| && Qty(d0.stock, (warehouseId, ls[j].itemId)) - OrderedQty(ls[..j], ls[j].itemId) < ls[j].qty;
          assert j == n;
        }
      }
    }
  }

  /** Once a line has failed, the remaining lines change nothing. */
  lemma {:induction false} FailureIsFinal(d0: Run, warehouseId: int, dcId: int, ls: seq<SalesOrderLine>, i: nat)
    requires i <= |ls|
    requires RunAll(d0, warehouseId, dcId, ls[..i]).failure.Some?
    ensures RunAll(d0, warehouseId, dcId, ls) == RunAll(d0, warehouseId, dcId, ls[..i])
  {
    if i < |ls| {
      var init := ls[..|ls| - 1];
      assert init[..i] == ls[..i];
      FailureIsFinal(d0, warehouseId, dcId, init, i);
    } else {
      assert ls[..i] == ls;
    }
  }

  /** Dispatch never takes a row below zero, committed or pending. */
  lemma {:induction false} RunKeepsNonNegative(d0: Run, warehouseId: int, dcId: int, ls: seq<SalesOrderLine>)
    requires NonNegative(d0.stock) && NonNegative(d0.savedStock)
    ensures NonNegative(RunAll(d0, warehouseId, dcId, ls).stock)
    ensures NonNegative(RunAll(d0, warehouseId, dcId, ls).savedStock)
  {
    if ls != [] {
      RunKeepsNonNegative(d0, warehouseId, dcId, ls[..|ls| - 1]);
    }
  }

  /** Rows are only ever added, never removed, by a dispatch. */
  lemma {:induction false} RunKeepsRows(d0: Run, warehouseId: int, dcId: int, ls: seq<SalesOrderLine>)
    ensures d0.stock.Keys <= RunAll(d0, warehouseId, dcId, ls).stock.Keys
  {
    if ls != [] {
      RunKeepsRows(d0, warehouseId, dcId, ls[..|ls| - 1]);
    }
  }

  /** When every line's stock row already exists, nothing is committed during
      the run: a failure leaves the stock and lines as they were at the start. */
  lemma {:induction false} NoNewRowNoCommit(d0: Run, warehouseId: int, dcId: int, ls: seq<SalesOrderLine>)
    requires forall j :: 0 <= j < |ls| ==> (warehouseId, ls[j].itemId) in d0.stock
    ensures RunAll(d0, warehouseId, dcId, ls).savedStock == d0.savedStock
    ensures RunAll(d0, warehouseId, dcId, ls).savedLines == d0.savedLines
  {
    if ls != [] {
      var init := ls[..|ls| - 1];
      assert forall j :: 0 <= j < |init| ==> init[j] == ls[j];
      NoNewRowNoCommit(d0, warehouseId, dcId, init);
      RunKeepsRows(d0, warehouseId, dcId, init);
    }
  }

  /** A failed dispatch can keep an earlier line's decrement: 5 on hand of
      item 10, the order asks 2 of item 10 and then 1 of item 20, which has no
      row yet. Creating that row commits the first decrement, so the failure
      leaves 3 of item 10 and one challan line behind. */
  lemma FailureKeepsEarlierDecrement()
    ensures var d := RunAll(Start(map[(1, 10) := 5]), 1, 7,
                          [SalesOrderLine(1, 10, 2, 1.0, 0.0, 0.0), SalesOrderLine(1, 20, 1, 1.0, 0.0, 0.0)]);
      d.failure == Some(InsufficientStock(20, 0))
      && d.savedStock == map[(1, 10) := 3, (1, 20) := 0]
      && d.savedLines == [ChallanLine(7, 10, 2)]
  {
    var ls := [SalesOrderLine(1, 10, 2, 1.0, 0.0, 0.0), SalesOrderLine(1, 20, 1, 1.0, 0.0, 0.0)];
    assert ls[..1][..0] == [];
    assert ls[..1] == [ls[0]];
    var d0 := Start(map[(1, 10) := 5]);
    assert RunAll(d0, 1, 7, ls[..1][..0]) == d0;
    var d1 := RunAll(d0, 1, 7, ls[..1]);
    assert d1 == Step(d0, 1, 7, ls[0]);
    assert d1.stock == map[(1, 10) := 3];
    assert d1.lines == [ChallanLine(7, 10, 2)];
    assert (1, 20) !in d1.stock;
  }

  // ---------------------------------------------------------------------
  // Returns (returns_post)

  /** Adds one return line's qty to its row, creating the row if needed. */
  function RestockLine(stock: map<Key, int>, warehouseId: int, ln: ReturnLine): map<Key, int>
  {
    var k := (warehouseId, ln.itemId);
    var s := WithRow(stock, k);
    s[k := s[k] + ln.qty]
  }

  /** All of a return note's lines added back, in table order. */
  function Restock(stock: map<Key, int>, warehouseId: int, ls: seq<ReturnLine>): map<Key, int>
  {
    if ls == [] then stock else RestockLine(Restock(stock, warehouseId, ls[..|ls| - 1]), warehouseId, ls[|ls| - 1])
  }

  /** Total qty the lines `ls` return of item `itemId`. */
  function ReturnedQty(ls: seq<ReturnLine>, itemId: int): int
  {
    if ls == [] then 0
    else ReturnedQty(ls[..|ls| - 1], itemId) + (if ls[|ls| - 1].itemId == itemId then ls[|ls| - 1].qty else 0)
  }

  /** Posting adds the returned qty of each item to the return's warehouse and
      leaves every other warehouse alone. */
  lemma {:induction false} RestockAdds(stock: map<Key, int>, warehouseId: int, ls: seq<ReturnLine>)
    ensures forall i :: Qty(Restock(stock, warehouseId, ls), (warehouseId, i)) == Qty(stock, (warehouseId, i)) + ReturnedQty(ls, i)
    ensures forall k: Key :: k.0 != warehouseId ==> Qty(Restock(stock, warehouseId, ls), k) == Qty(stock, k)
  {
    if ls != [] {
      RestockAdds(stock, warehouseId, ls[..|ls| - 1]);
    }
  }

  /** With no negative qty on the note, posting keeps every row non-negative. */
  lemma {:induction false} RestockKeepsNonNegative(stock: map<Key, int>, warehouseId: int, ls: seq<ReturnLine>)
    requires NonNegative(stock)
    requires forall j :: 0 <= j < |ls| ==> ls[j].qty >= 0
    ensures NonNegative(Restock(stock, warehouseId, ls))
  {
    if ls != [] {
      RestockKeepsNonNegative(stock, warehouseId, ls[..|ls| - 1]);
    }
  }

  /** Return lines are not checked for sign, so posting one with qty -3
      against an empty row leaves that row at -3. */
  lemma NegativeReturnGoesBelowZero()
    ensures Restock(map[], 1, [ReturnLine(1, 7, -3)]) == map[(1, 7) := -3]
    ensures !NonNegative(Restock(map[], 1, [ReturnLine(1, 7, -3)]))
  {
    var ls := [ReturnLine(1, 7, -3)];
    assert ls[..0] == [];
  }
}
