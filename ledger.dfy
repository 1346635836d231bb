/** The stock ledger: one quantity per (warehouse, item) row, created on
    first access with quantity zero. */
module Ledger {

  /** (warehouse_id, item_id) */
  type Key = (int, int)

  /** The quantity a row holds, zero when the row does not exist yet. */
  function Qty(stock: map<Key, int>, k: Key): int
  {
    if k in stock then stock[k] else 0
  }

  predicate NonNegative(stock: map<Key, int>)
  {
    forall k :: k in stock ==> stock[k] >= 0
  }

  /** The table after `get_stock`: the existing row, or a new row with qty 0. */
  function WithRow(stock: map<Key, int>, k: Key): (s: map<Key, int>)
    ensures k in s && s[k] == Qty(stock, k)
    ensures s.Keys == stock.Keys + {k}
    ensures forall j :: j in stock ==> s[j] == stock[j]
  {
    if k in stock then stock else stock[k := 0]
  }

  /** `get_stock` twice in a row gives the same row and creates at most one. */
  lemma WithRowIdempotent(stock: map<Key, int>, k: Key)
    ensures WithRow(WithRow(stock, k), k) == WithRow(stock, k)
    ensures |WithRow(stock, k).Keys| <= |stock.Keys| + 1
  {
  }

  datatype Adjustment = Adjustment(stock: map<Key, int>, ok: bool)

  /** `stock_adjust`: the row is fetched (and created if absent, which is
      committed at once); the change is kept only if the new qty is not negative. */
  function Adjust(stock: map<Key, int>, k: Key, delta: int): (r: Adjustment)
    ensures r.ok <==> Qty(stock, k) + delta >= 0
    ensures r.ok ==> r.stock == stock[k := Qty(stock, k) + delta]
    ensures !r.ok ==> Qty(r.stock, k) == Qty(stock, k) && k in r.stock
    ensures forall j :: j != k ==> Qty(r.stock, j) == Qty(stock, j)
    ensures r.stock.Keys == stock.Keys + {k}
    ensures NonNegative(stock) ==> NonNegative(r.stock)
  {
    var s := WithRow(stock, k);
    if s[k] + delta < 0 then Adjustment(s, false) else Adjustment(s[k := s[k] + delta], true)
  }
}
