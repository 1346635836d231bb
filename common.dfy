/** Shared vocabulary: optional values, the failures a request can end with,
    and the two-decimal rounding the application applies to money. */
module Common {

  datatype Option<T> = None | Some(value: T)

  /** The business-rule failures a request handler raises (as HTTP 400/404). */
  datatype Failure =
    | SalesOrderNotFound
    | ItemNotFound(itemId: int)
    | SalesOrderNotApproved
    | InsufficientStock(itemId: int, available: int)
    | NegativeStock
    | ChallanNotAvailable
    | SalesOrderMissingForChallan
    | PartyNotFound
    | PartyBlocked
    | OverduePending(overdue: real)
    | CreditLimitExceeded(limit: real, outstanding: real, newInvoice: real)
    | InvoiceNotFound
    | ReturnNotFound
    | ReturnNotOpen

  datatype Result<T> = Ok(value: T) | Err(error: Failure)

  datatype Outcome = Pass | Fail(error: Failure)

  /** Python's `round(x, 2)`, taken as rounding half up on an exact real. */
  function Round2(x: real): real
  {
    ((x * 100.0 + 0.5).Floor as real) / 100.0
  }

  /** Rounding never reverses the order of two amounts. */
  lemma Round2Monotone(x: real, y: real)
    requires x <= y
    ensures Round2(x) <= Round2(y)
  {
    var a, b := (x * 100.0 + 0.5).Floor, (y * 100.0 + 0.5).Floor;
    assert (a as real) <= x * 100.0 + 0.5 <= y * 100.0 + 0.5 < (b as real) + 1.0;
    assert a <= b;
  }

  /** Rounding keeps the sign of an amount (zero may absorb a tiny one). */
  lemma Round2Sign(x: real)
    ensures x >= 0.0 ==> Round2(x) >= 0.0
    ensures x <= 0.0 ==> Round2(x) <= 0.0
    ensures Round2(0.0) == 0.0
  {
    var a := (x * 100.0 + 0.5).Floor;
    assert (a as real) <= x * 100.0 + 0.5 < (a as real) + 1.0;
    assert (0.0 * 100.0 + 0.5).Floor == 0;
  }

  /** An amount already in whole paise is left as it is. */
  lemma Round2Paise(k: int)
    ensures Round2((k as real) / 100.0) == (k as real) / 100.0
  {
    var x := (k as real) / 100.0;
    assert x * 100.0 + 0.5 == (k as real) + 0.5;
    assert ((k as real) + 0.5).Floor == k;
  }
}
