# book_erp_v2 order-to-cash, modelled in Dafny

The model covers the order-to-cash core of a small book-distribution ERP.
That ERP has two generations of handlers over two schemas.

- **The v2 flow** is made of `main.py` and `services.py`. A sales order is
  created, given lines priced for its party, and approved. A delivery challan
  then dispatches its lines from the order's warehouse. An invoice is raised
  from the challan after credit control, which checks in order for a blocked
  party, overdue money and the credit limit. Payments are recorded against
  invoices, and return notes put stock back when they are posted. Module
  `Erp` holds the store, class `Erp.Store`, whose one field `db` is the whole
  set of tables (`Flow.Db`). Each handler is a method of the store. Each
  method is proved equal to a function on the tables in module `Flow`, and
  the properties of the flow are lemmas about those functions.
- **The older flow** is `app.py`, modelled in module `Legacy` as class
  `Legacy.LegacyStore`. An invoice is raised directly against a warehouse,
  and every line added sells stock at once. Adding a line or a payment
  recomputes the invoice's status. A return line puts stock back
  immediately.

Both flows share these modules:

- `Ledger`: the stock rows and `get_stock`.
- `Pricing`: the party discount.
- `Totals`: both `invoice_totals` variants, the status rule and the party
  summary.
- `Numbering`: the `PREFIX-YYYYMM-NNNN` document numbers.
- `Dispatch`: stock deduction line by line, including what a failed dispatch
  leaves committed, and the restocking of returns.
- `Billing`: the invoice lines a challan becomes, the projected invoice
  total and the credit-limit rule.

The record shapes and the default statuses come from `models.py`, and the
older schema from the classes at the top of `app.py` (module `Records`).

Money is `real`. Python's `round(x, 2)` on a money figure is `Common.Round2`,
which rounds half up to the nearest paisa. Dates are day ordinals. The
current date and the `YYYYMM` period of a new document number are
parameters. A header table is a sequence in which the row with id `k` sits
at position `k - 1`. A failed request keeps exactly what the handler had
committed before it raised.

## Model

| member | source | states |
|---|---|---|
| Common.Round2Monotone | book_erp_v2/services.py:48-54 | rounding to two places never reverses the order of two figures |
| Common.Round2Sign | book_erp_v2/services.py:48-54 | rounding keeps the sign of a figure, and 0 rounds to 0 |
| Common.Round2Paise | book_erp_v2/services.py:48-54 | a whole number of paise is left unchanged by rounding |
| Ledger.WithRow | book_erp_v2/services.py:15-22 | `get_stock` leaves a row for (warehouse, item) holding the old qty, or 0 if there was none; it adds only that key and keeps every other row |
| Ledger.WithRowIdempotent | book_erp_v2/services.py:15-22 | two `get_stock` calls with nothing in between give the same tables as one, and create at most one row |
| Ledger.Adjust | book_erp_v2/main.py:214-227 | a stock adjustment succeeds iff qty + delta >= 0 and then stores qty + delta; a refusal keeps the qty (the row `get_stock` created stays); no other row changes, and a table with no negative row keeps none |
| Pricing.Clamp | book_erp_v2/services.py:29 | the discount is clamped into [0, 100]: values above 100 become 100, values below 0 become 0, values in range are kept |
| Pricing.ApplyPartyPrice | book_erp_v2/services.py:25-31 | with no party price the result is exactly (sale price, 0); otherwise the discount is the clamped stored value and the rate is the sale price less that discount, rounded to two places |
| Pricing.FullDiscountIsFree | book_erp_v2/services.py:29-30 | a stored discount of 100 or more gives the rate 0 and the discount 100 |
| Pricing.NegativeDiscountIsNone | book_erp_v2/services.py:29-30 | a stored discount of 0 or less gives the rounded sale price and the discount 0 |
| Pricing.DiscountedRateWithinListPrice | book_erp_v2/services.py:30 | for a sale price in whole paise, a discount in [0, 100] gives a rate between 0 and the sale price |
| Pricing.RateWithinListPrice | book_erp_v2/services.py:25-31 | for a sale price in whole paise, the resolved rate lies between 0 and the sale price whatever is stored |
| Totals.LinesOf | book_erp_v2/services.py:35 | the lines selected are exactly the lines of the invoice |
| Totals.PaymentsOf | book_erp_v2/services.py:45 | the payments selected are exactly the payments against the invoice |
| Totals.InvoicesOf | book_erp_v2/main.py:255 | the invoices selected are exactly the party's invoices |
| Totals.TotalsOf | book_erp_v2/services.py:34-54 | the five figures of `invoice_totals`: the sums are taken unrounded and each figure is rounded once; `Totals.InvoiceTotals` proves the loop computes them and `Totals.TotalsFigures` states what they mean |
| Totals.TotalsFigures | book_erp_v2/services.py:34-54 | no lines give zero subtotal, GST and total; no payments leave paid 0 and the whole total due; the balance is at most 0 once the payments reach the unrounded total, and at least 0 while they do not |
| Totals.InvoiceTotals | book_erp_v2/services.py:34-54 | the accumulator loop yields `Totals.TotalsOf` of the invoice's lines and payments: the rounded sums of taxable = qty x rate less the discount, of GST on each taxable amount, of their total, of the invoice's own payments, and of total less paid |
| Totals.EmptyInvoiceIsZero | book_erp_v2/services.py:34-54 | an invoice with no lines and no payments has all five figures 0 |
| Totals.NoDiscountNoGstTotal | book_erp_v2/services.py:38-44 | when every line has discount 0 and GST 0, the subtotal and total are the sum of qty x rate and the GST is 0 |
| Totals.PaidCountsOwnPaymentsOnly | book_erp_v2/services.py:45-46 | a new payment adds its amount to an invoice's paid sum iff it is against that invoice |
| Totals.LegacyLinesOf | book_erp_v2/app.py:133 | the lines selected are exactly the lines of the invoice |
| Totals.LegacyInvoiceTotalsOf | book_erp_v2/app.py:132-147 | the older `invoice_totals` over one invoice's lines and payments; `Totals.LegacyInvoiceTotals` proves the loop computes it, and `Totals.LegacyTotalsAreUndiscounted` that it is the v2 figures of the same lines at discount 0 |
| Totals.LegacyInvoiceTotals | book_erp_v2/app.py:132-147 | the discount-free loop yields the rounded sums of qty x rate, of GST on it, of the total, of the invoice's payments, and of total less paid |
| Totals.AllUndiscounted | book_erp_v2/app.py:136-139 | each older-schema line reads as the same line with discount 0, position for position |
| Totals.LegacyTotalsAreUndiscounted | book_erp_v2/app.py:132-147 | the older totals are the discount-aware totals of the same lines with every discount 0 |
| Totals.LegacySumsAreUndiscounted | book_erp_v2/app.py:136-140 | the older subtotal and GST are the discount-aware ones over lines with discount 0 |
| Totals.StatusFor | book_erp_v2/app.py:155-162 | the status is PAID iff total > 0 and balance <= 0.001, PARTIAL iff total > 0, balance > 0.001 and paid > 0, and OPEN otherwise; it is never CANCELLED |
| Totals.Round2PositiveIsAPaisa | book_erp_v2/app.py:155-157 | a figure that rounds above 0 rounds to at least 0.01 |
| Totals.OverpaymentIsPaid | book_erp_v2/app.py:150-164 | an invoice whose rounded total is positive and whose payments reach its unrounded total is PAID |
| Totals.SettledInvoiceIsPaid | book_erp_v2/app.py:150-164 | the same, stated through the invoice's own lines and payments |
| Totals.UnpaidIsOpen | book_erp_v2/app.py:155-162 | an invoice with no payments is OPEN |
| Totals.PartPaymentIsPartial | book_erp_v2/app.py:155-162 | a positive invoice with a positive rounded payment and a positive rounded balance is PARTIAL |
| Totals.OverdueWithinOutstanding | book_erp_v2/main.py:260-273 | the overdue sum is between 0 and the outstanding sum |
| Totals.SummaryBounds | book_erp_v2/main.py:273 | after rounding, 0 <= overdue <= outstanding still holds |
| Totals.NoTermsNoOverdue | book_erp_v2/main.py:267-271 | with payment terms of 0 days or less, nothing is overdue |
| Totals.SummaryOf | book_erp_v2/main.py:254-273 | the rounded outstanding and overdue sums of `calc_party_summary`; `Totals.CalcPartySummary` proves the loop computes them, `Totals.SummaryBounds` that 0 <= overdue <= outstanding, `Totals.NoTermsNoOverdue` that no terms means nothing overdue |
| Totals.CalcPartySummary | book_erp_v2/main.py:254-273 | the loop yields the rounded sum of the positive balances of the party's invoices, and the rounded sum of the balances overdue past the terms, with 0 <= overdue <= outstanding |
| Numbering.DigitChar | book_erp_v2/main.py:251 | a digit value is written as an ASCII digit |
| Numbering.Digits | book_erp_v2/main.py:251 | a natural number is written as a non-empty string of digits |
| Numbering.DigitsRoundTrip | book_erp_v2/main.py:247-251 | reading back the decimal text of n gives n |
| Numbering.Zeros | book_erp_v2/main.py:251 | the zero padding of width k is k digits |
| Numbering.LeadingZerosValue | book_erp_v2/main.py:247-251 | leading zeros do not change the value read |
| Numbering.ZerosValue | book_erp_v2/main.py:247-251 | a string of zeros reads as 0 |
| Numbering.ParseInt | book_erp_v2/main.py:247 | `int()` on an optionally signed ASCII digit string, `None` for the ValueError otherwise; `Numbering.ParseUnsigned`, `Numbering.ParseNegative` and `Numbering.SuffixRoundTrip` state its values |
| Numbering.ParseUnsigned | book_erp_v2/main.py:247 | `int()` of a non-empty digit string is its decimal value |
| Numbering.ParseNegative | book_erp_v2/main.py:247 | `int()` of '-' followed by digits is the negated value |
| Numbering.NonNegativeSuffix | book_erp_v2/main.py:251 | the zero-padded suffix of n >= 0 is at least 4 digits and parses back to n |
| Numbering.PadNegative | book_erp_v2/main.py:251 | `zfill(4)` keeps the minus sign in front and pads only the digits |
| Numbering.ZFill | book_erp_v2/main.py:251 | `zfill`: a string already as wide is kept, otherwise the result has exactly the width; a leading sign stays in front, and a digit string keeps its value |
| Numbering.NegativeSuffix | book_erp_v2/main.py:251 | the padded suffix of a negative n parses back to n |
| Numbering.SuffixRoundTrip | book_erp_v2/main.py:247-251 | every suffix written parses back to its number, has at least 4 characters, and is digits after the first character |
| Numbering.RemoveAll | book_erp_v2/main.py:247 | `replace(p, "")` never lengthens the text and only keeps characters of it; `Numbering.RemoveAllAbsent` shows it is a no-op on the suffixes the code reads |
| Numbering.RemoveAllAbsent | book_erp_v2/main.py:247 | removing the prefix from a suffix with no '-' after its first character changes nothing |
| Numbering.NumberPrefix | book_erp_v2/main.py:232 | the prefix is PREFIX, '-', the period, '-' |
| Numbering.MaxOf | book_erp_v2/main.py:250 | the maximum is one of the numbers and is at least every one of them |
| Numbering.NumbersContains | book_erp_v2/main.py:243-249 | every parseable suffix of an existing number with the prefix is among the numbers collected |
| Numbering.WrittenNumberReadsBack | book_erp_v2/main.py:244-251 | a number written by `next_no` reads back as its own suffix |
| Numbering.NextNoIsFresh | book_erp_v2/main.py:231-251 | the next number differs from every existing number |
| Numbering.MaxPlusOneNotCount | book_erp_v2/main.py:250-251 | with 0001 and 0003 taken the next number is 0004: max + 1, not count + 1 |
| Numbering.NextNoHasPrefix | book_erp_v2/main.py:232-251 | the next number starts with PREFIX-period- |
| Numbering.NextNoIgnores | book_erp_v2/main.py:244-249 | a number of another period, or with an unparseable suffix, does not change the next number |
| Numbering.NextNoOf | book_erp_v2/main.py:231-251 | the next number: the prefix, then max + 1 (or 1) of the parseable suffixes, zero-padded; `Numbering.NextNoIsFresh`, `Numbering.NextNoHasPrefix` and `Numbering.NextNoIgnores` state its properties |
| Numbering.NextNo | book_erp_v2/main.py:231-251 | the loop yields `Numbering.NextNoOf`, which is fresh and carries the prefix |
| Numbering.WithPrefix | book_erp_v2/app.py:170 | the numbers selected are exactly those starting with the prefix |
| Numbering.FilteredNumbers | book_erp_v2/app.py:170-179 | parsing the suffixes of the pre-filtered numbers gives the numbers `next_no` collects, so both generators agree |
| Numbering.NextInvoiceNo | book_erp_v2/app.py:167-180 | `next_invoice_no` yields INV-period-0001 when nothing matches and max + 1 otherwise, the same as `next_no("INV")`, and the result is fresh |
| Dispatch.Start | book_erp_v2/main.py:386-388 | a dispatch starts from the current stock with nothing added or committed |
| Dispatch.RunAll | book_erp_v2/main.py:387-394 | the dispatch run over the order's lines, one `Dispatch.Step` each; `Dispatch.RunCompletesIffCovered`, `Dispatch.CompleteRunDeducts` and `Dispatch.FailureIsFinal` state what it does |
| Dispatch.Step | book_erp_v2/main.py:388-394 | once a line has failed, later lines change nothing |
| Dispatch.Copied | book_erp_v2/main.py:394 | one challan line per order line, with the same item and qty, in order |
| Dispatch.CompleteRunDeducts | book_erp_v2/main.py:387-394 | a complete dispatch lowers each item's qty at the warehouse by the total ordered qty, leaves other warehouses alone, and adds the copied lines |
| Dispatch.RunCompletesIffCovered | book_erp_v2/main.py:388-391 | a dispatch completes iff each line in turn finds enough of what is left after the earlier lines |
| Dispatch.FailureIsFinal | book_erp_v2/main.py:390-391 | after the first short line the outcome is fixed |
| Dispatch.RunKeepsNonNegative | book_erp_v2/main.py:388-394 | a dispatch from non-negative stock never leaves a negative qty, pending or committed |
| Dispatch.RunKeepsRows | book_erp_v2/main.py:388-394 | a dispatch never removes a stock row |
| Dispatch.NoNewRowNoCommit | book_erp_v2/services.py:17-21 | when every line's row already exists, the dispatch commits nothing midway |
| Dispatch.FailureKeepsEarlierDecrement | book_erp_v2/services.py:18-20 | a concrete order whose second item has no row: the row is created and committed, which persists the first line's decrement and challan line before the failure |
| Dispatch.Restock | book_erp_v2/main.py:744-747 | the restock of `returns_post`, one line at a time; `Dispatch.RestockAdds` and `Dispatch.RestockKeepsNonNegative` state what it does |
| Dispatch.RestockAdds | book_erp_v2/main.py:744-747 | posting raises each item's qty at the warehouse by the total returned qty and leaves other warehouses alone |
| Dispatch.RestockKeepsNonNegative | book_erp_v2/main.py:744-747 | returns of non-negative qty keep stock non-negative |
| Dispatch.NegativeReturnGoesBelowZero | book_erp_v2/main.py:731 | a return line of qty -3 on an empty row drives stock to -3 |
| Billing.Kept | book_erp_v2/main.py:470-473 | the challan lines copied are challan lines whose item exists; when every item exists, all of them are copied, in order |
| Billing.KeptMembers | book_erp_v2/main.py:470-473 | a challan line is copied iff its item exists |
| Billing.Reprice | book_erp_v2/main.py:470-484 | each invoice line belongs to the new invoice, has an existing item, and carries the party's price and the item's GST; there is one line per challan line when all items exist |
| Billing.RepriceCopies | book_erp_v2/main.py:470-484 | invoice line j comes from the j-th copied challan line: same item and qty, the party's rate and discount, the item's GST, the new invoice's id; there are exactly as many as copied challan lines |
| Billing.ProjectionIsInvoiceTotal | book_erp_v2/main.py:435-448 | the projected subtotal, GST and total equal the unrounded invoice totals of the lines invoice creation then writes |
| Billing.ProjectedTotal | book_erp_v2/main.py:435-448 | the projection loop yields the projected total, which is the unrounded total of the written lines |
| Billing.CreditCheck | book_erp_v2/main.py:450-455 | the credit check refuses iff the limit is non-zero and outstanding + projected exceeds it, reporting the limit, the outstanding and the rounded projection |
| Billing.CreditExample | book_erp_v2/main.py:450-455 | with limit 1000 and 800 outstanding, 300 is refused and 150 passes |
| Billing.WithinLimitPasses | book_erp_v2/main.py:450 | a zero limit, or staying within the limit, passes |
| Billing.InRange | book_erp_v2/main.py:622-626 | the date filter keeps at most the invoices it is given |
| Billing.InRangeMembers | book_erp_v2/main.py:614-626 | the statement keeps exactly the invoices dated within the optional inclusive range |
| Billing.UnboundedRangeIsAll | book_erp_v2/main.py:614-626 | with neither bound every invoice is kept, in order |
| Flow.OrderLinesOf | book_erp_v2/main.py:387 | the lines selected are exactly the order's lines |
| Flow.ChallanLinesOf | book_erp_v2/main.py:435 | the lines selected are exactly the challan's lines |
| Flow.ReturnLinesOf | book_erp_v2/main.py:743 | the lines selected are exactly the return note's lines |
| Flow.FreshInvoiceLines | book_erp_v2/main.py:470-484 | lines added under a new invoice id are exactly that invoice's lines |
| Flow.SoNos | book_erp_v2/main.py:234-235 | the numbers `next_no("SO")` reads are the orders' numbers, in order |
| Flow.DcNos | book_erp_v2/main.py:236-237 | the numbers `next_no("DC")` reads are the challans' numbers |
| Flow.RnNos | book_erp_v2/main.py:238-239 | the numbers `next_no("RN")` reads are the return notes' numbers |
| Flow.InvoiceNos | book_erp_v2/main.py:240-241 | the numbers `next_no("INV")` reads are the invoices' numbers |
| Flow.ChallanCreateOf | book_erp_v2/main.py:375-400 | an order that is not APPROVED is refused with nothing written; an approved one always gets its challan header; success gives the new challan's id; the only other failure is short stock |
| Flow.RunFailsOnStock | book_erp_v2/main.py:390-391 | a dispatch fails only for insufficient stock |
| Flow.ChallanSucceedsIffCovered | book_erp_v2/main.py:387-398 | for an approved order, challan creation succeeds iff the stock covers its lines taken in order |
| Flow.ChallanDeducts | book_erp_v2/main.py:387-398 | a challan lowers the warehouse's stock of each item by its ordered qty, touches no other warehouse, copies the lines and marks the order DISPATCHED |
| Flow.ChallanKeepsStockNonNegative | book_erp_v2/main.py:388-394 | challan creation, whether it succeeds or fails, never makes a qty negative |
| Flow.ChallanFailureWithRowsKeepsStock | book_erp_v2/main.py:381-394 | when every line's row exists, a failed challan leaves only the committed header |
| Flow.ChallanKeepsConsistent | book_erp_v2/main.py:375-400 | challan creation keeps ids aligned with positions |
| Flow.DispatchedOrderCanBeDispatchedAgain | book_erp_v2/main.py:354-362 | `so_approve` on a DISPATCHED order lets `challan_create` accept it again and write a second challan |
| Flow.InvoiceBlocker | book_erp_v2/main.py:414-455 | when no check refuses, the challan, its order and its party all exist |
| Flow.InvoiceCreateOf | book_erp_v2/main.py:413-490 | invoice creation fails iff a check refuses; the failure is the first reason (challan not OPEN, order missing, party missing, blocked, overdue, credit limit), with nothing written; success gives the new invoice's id |
| Flow.InvoiceCreateOk | book_erp_v2/main.py:457-488 | with no blocker, invoice creation appends the next header and the repriced challan lines and marks the challan INVOICED |
| Flow.InvoiceMatchesProjection | book_erp_v2/main.py:436-490 | the new invoice has a fresh number, and the unrounded total of its lines is the projected total the credit check used |
| Flow.SecondInvoiceRefused | book_erp_v2/main.py:416-417 | after success the challan is INVOICED, so a second invoice for it is refused |
| Flow.InvoiceCreateWrites | book_erp_v2/main.py:457-488 | a successful invoice adds the next header, its lines are exactly the repriced challan lines, the challan alone becomes INVOICED, and stock, orders, payments, challan lines, prices and returns are untouched |
| Flow.InvoiceRefusalOrder | book_erp_v2/main.py:414-455 | a challan that is missing or not OPEN is refused first; then a blocked party; then overdue money; and only then does the credit-limit rule decide |
| Flow.InvoiceKeepsConsistent | book_erp_v2/main.py:413-490 | invoice creation keeps ids aligned and every line attached to an invoice |
| Flow.ReturnsPostOf | book_erp_v2/main.py:737-753 | a note that is missing or not OPEN is refused with nothing written; an open one is posted and is no longer open |
| Flow.PostAddsReturnedQty | book_erp_v2/main.py:743-750 | posting adds each item's returned qty at the note's warehouse, touches no other warehouse, and a second post is refused |
| Flow.PostKeepsStockNonNegative | book_erp_v2/main.py:744-747 | with no negative return lines, posting keeps stock non-negative |
| Flow.PostKeepsConsistent | book_erp_v2/main.py:737-753 | posting keeps the tables consistent |
| Flow.RowsOf | book_erp_v2/main.py:628-647 | one statement row per shown invoice, carrying its totals |
| Flow.RowsShowAll | book_erp_v2/main.py:628-647 | every invoice shown has its row with its own totals |
| Flow.StatementGrows | book_erp_v2/main.py:628-635 | one more invoice adds one row, and adds its balance to outstanding (and to overdue when overdue) exactly when the balance is positive |
| Flow.StatementOf | book_erp_v2/main.py:600-663 | the statement is refused iff the party is missing; every row shown is the party's and dated within the range, and every invoice of the party dated within the range is shown with its totals |
| Flow.StatementAgreesWithSummary | book_erp_v2/main.py:600-663 | the statement's summary has 0 <= overdue <= outstanding, and without bounds it is the credit-control summary of the party |
| Erp.DispatchLines | book_erp_v2/main.py:388-394 | the dispatch loop yields `Dispatch.RunAll` over the order's lines |
| Erp.RepriceLines | book_erp_v2/main.py:470-484 | the copy loop yields the repriced invoice lines |
| Erp.StatementRows | book_erp_v2/main.py:622-647 | the statement loop yields the rows, the outstanding and the overdue of the invoices in range |
| Erp.RestockLines | book_erp_v2/main.py:744-747 | the posting loop yields the restocked table |
| Erp.InvoiceHeader | book_erp_v2/main.py:457-464 | the header built is the next invoice of the challan's order's party and warehouse |
| Erp.Store.constructor | book_erp_v2/models.py:22-66 | a store over the given master data, with no documents |
| Erp.Store.GetStock | book_erp_v2/services.py:15-22 | returns the row's qty (0 if absent) and leaves the row in the table |
| Erp.Store.StockAdjust | book_erp_v2/main.py:214-227 | the stock table becomes the adjusted one; the reply is a refusal iff the qty would go negative |
| Erp.Store.SetPartyPrice | book_erp_v2/main.py:193-209 | stores or replaces the discount, which pricing then reads clamped |
| Erp.Store.SoCreate | book_erp_v2/main.py:297-315 | appends an OPEN order with the next SO number |
| Erp.Store.SoAddLine | book_erp_v2/main.py:332-350 | refuses a missing order or item; otherwise appends a line with the party's rate and discount and the item's GST, whatever the order's status |
| Erp.Store.SoApprove | book_erp_v2/main.py:354-362 | refuses a missing order; otherwise sets APPROVED whatever the status was |
| Erp.Store.ChallanCreate | book_erp_v2/main.py:375-400 | reply and tables are those of `Flow.ChallanCreateOf` |
| Erp.Store.CreditControl | book_erp_v2/main.py:427-455 | the credit-control checks find `Flow.InvoiceBlocker` |
| Erp.Store.InvoiceCreate | book_erp_v2/main.py:413-490 | reply and tables are those of `Flow.InvoiceCreateOf` |
| Erp.Store.AddPayment | book_erp_v2/main.py:574-587 | refuses a missing invoice; otherwise appends a payment for the invoice's party and leaves every status as it was |
| Erp.Store.StatementsView | book_erp_v2/main.py:600-663 | the reply is `Flow.StatementOf` |
| Erp.Store.ReturnsCreate | book_erp_v2/main.py:677-698 | appends an OPEN return note with the next RN number, dated as given or today |
| Erp.Store.ReturnsAddLine | book_erp_v2/main.py:726-733 | refuses a note that is missing or not OPEN; otherwise appends the line, whatever its qty |
| Erp.Store.ReturnsPost | book_erp_v2/main.py:737-753 | reply and tables are those of `Flow.ReturnsPostOf` |
| Legacy.LegacyInvoiceNos | book_erp_v2/app.py:170 | the numbers read are the invoices' numbers, in order |
| Legacy.StatusUpdated | book_erp_v2/app.py:150-164 | a missing invoice changes nothing; otherwise only that invoice's status changes, to OPEN, PAID or PARTIAL |
| Legacy.StatusFollowsTotals | book_erp_v2/app.py:154-162 | the status written is the one the invoice's rounded totals give |
| Legacy.InvoiceAddLineOf | book_erp_v2/app.py:632-658 | a missing invoice is refused with InvoiceNotFound and nothing written; `Legacy.AddLineSells` states the sale and its refusal |
| Legacy.AddLineSells | book_erp_v2/app.py:632-658 | an added line succeeds iff the stock covers its qty; then it takes exactly qty from that row and no other, adds the line, sets that invoice's status from the new totals and changes nothing else (other invoices, payments, parties, returns); otherwise it reports the available qty and changes no qty and no line |
| Legacy.AddLineKeepsNonNegative | book_erp_v2/app.py:645-649 | adding a line never makes a qty negative |
| Legacy.PaymentsCreateOf | book_erp_v2/app.py:744-763 | the payment is appended as given, with no invoice or balance check; only invoice statuses may change, and stock, lines, parties and returns stay as they were |
| Legacy.SettlingPaymentIsPaid | book_erp_v2/app.py:744-763 | a payment that brings the paid sum up to the unrounded total of a positive invoice gives PAID |
| Legacy.OverpaymentMarksPaid | book_erp_v2/app.py:752-762 | `payments_create` with such a payment, or more, leaves the invoice PAID; there is no balance check |
| Legacy.PaymentTouchesOneInvoice | book_erp_v2/app.py:752-762 | a payment leaves every other invoice as it was |
| Legacy.ReturnAddLineOf | book_erp_v2/app.py:884-897 | a line for a missing note is refused with nothing written |
| Legacy.ReturnLineRestocks | book_erp_v2/app.py:884-897 | every existing note accepts lines, whatever its status; each adds its qty to its warehouse's row at once, touches no other row, and records the line |
| Legacy.Dated | book_erp_v2/app.py:941-943 | the filter keeps at most the invoices it is given |
| Legacy.DatedMembers | book_erp_v2/app.py:941-943 | the statement keeps exactly the party's invoices dated within the inclusive range |
| Legacy.OfParty | book_erp_v2/app.py:1004 | the invoices selected are exactly the party's |
| Legacy.LegacyRows | book_erp_v2/app.py:949-951 | one row per shown invoice, carrying its totals |
| Legacy.LegacyRowsShowAll | book_erp_v2/app.py:949-951 | every invoice shown has its row with its own totals |
| Legacy.LegacyStatementOf | book_erp_v2/app.py:932-995 | refused iff the party is missing; every row shown is the party's and dated within the range, and every invoice of the party dated within the range is shown with its totals |
| Legacy.DatedIsOfParty | book_erp_v2/app.py:941-943 | when the range holds all the party's invoices, the statement shows all of them |
| Legacy.Figures | book_erp_v2/app.py:971-984 | billing, paid and outstanding, each rounded once from the unrounded sums (as also at app.py:1011); `Legacy.StatementMatchesApi` and `Legacy.NoInvoicesNothingOwed` state their values |
| Legacy.StatementMatchesApi | book_erp_v2/app.py:932-1011 | a statement over a range holding all the party's invoices shows the same billing, paid and outstanding figures as the outstanding API |
| Legacy.NoInvoicesNothingOwed | book_erp_v2/app.py:1002-1011 | a party without invoices has billing, paid and outstanding all 0 |
| Legacy.SumInvoices | book_erp_v2/app.py:949-953 | the accumulator loop yields the rows, the sum of the rounded totals and the sum of the rounded paid figures |
| Legacy.CountEntries | book_erp_v2/app.py:956-964 | the counts are the party's payments and return notes dated within the range |
| Legacy.LegacyStore.constructor | book_erp_v2/app.py:22-66 | a store over the given parties and stock, with no documents |
| Legacy.LegacyStore.GetStock | book_erp_v2/app.py:120-129 | returns the row's qty (0 if absent) and leaves the row in the table |
| Legacy.LegacyStore.StockAdjust | book_erp_v2/app.py:470-478 | the stock table becomes the adjusted one; the reply is a refusal iff the qty would go negative |
| Legacy.LegacyStore.UpdateInvoiceStatus | book_erp_v2/app.py:150-164 | the tables become `Legacy.StatusUpdated` of the old ones |
| Legacy.LegacyStore.InvoicesCreate | book_erp_v2/app.py:532-550 | appends an OPEN invoice with a fresh INV number |
| Legacy.LegacyStore.InvoiceAddLine | book_erp_v2/app.py:632-658 | reply and tables are those of `Legacy.InvoiceAddLineOf` |
| Legacy.LegacyStore.PaymentsCreate | book_erp_v2/app.py:744-763 | the tables are those of `Legacy.PaymentsCreateOf` |
| Legacy.LegacyStore.ReturnsCreate | book_erp_v2/app.py:812-830 | appends a return note |
| Legacy.LegacyStore.ReturnAddLine | book_erp_v2/app.py:884-897 | reply and tables are those of `Legacy.ReturnAddLineOf` |
| Legacy.LegacyStore.StatementsView | book_erp_v2/app.py:932-995 | the reply is `Legacy.LegacyStatementOf` |
| Legacy.LegacyStore.ApiPartyOutstanding | book_erp_v2/app.py:1002-1011 | billing, paid and outstanding over all the party's invoices |

## Notes on the code

Every one of the following behaviours is modelled as the code has it.

- An order-line rate is already discounted by `apply_party_price`. The line
  also keeps the discount percent, and `invoice_totals` then takes that
  percent off again (services.py:39-41). A discounted line is therefore
  billed at the discount applied twice. `Totals.InvoiceTotals` and
  `Billing.ProjectionIsInvoiceTotal` compute exactly this.
- `challan_create` commits the challan header before any stock is checked
  (main.py:381-384). When `get_stock` creates a missing row it commits, and
  that commit also persists the decrements and challan lines of the earlier
  lines. A challan that fails for short stock is therefore not all-or-nothing
  (`Dispatch.FailureKeepsEarlierDecrement`).
- `so_approve` approves an order whatever its status, so a DISPATCHED order
  can be dispatched again (`Flow.DispatchedOrderCanBeDispatchedAgain`).
  `so_add_line` does not look at the order's status either.
- The credit-limit test is the truthiness of `credit_limit`. A limit of 0 means
  no limit, and a negative limit still applies (`Billing.CreditCheck`).
- Return quantities are never checked, so a negative return line lowers stock
  and can make it negative (`Dispatch.NegativeReturnGoesBelowZero`).
- The v2 `add_payment` does not recompute the invoice's status. The older
  `payments_create` does, and it checks neither the invoice nor the balance.
- The older `return_add_line` has no status gate. It restocks at once for any
  existing note.
- `next_no` reads the number column of the document's own table. It keeps the
  numbers with the exact `PREFIX-YYYYMM-` prefix and takes max + 1 of the
  parseable suffixes. `Numbering.FilteredNumbers` shows that
  `next_invoice_no`, which filters first, yields the same number.

## Left out

- HTML pages and templates, PDF generation, email and WhatsApp delivery,
  authentication and role checks, engine creation and seeding. They are
  presentation, file or network I/O, and foreign libraries.
- The current date, `datetime.now()` and `date.fromisoformat`. The current
  date and the `YYYYMM` period are parameters, and dates are day ordinals,
  so malformed date text is not modelled.
- Floating point. Money is exact `real`, and `round(x, 2)` rounds half up, so
  binary-float ties and the noise that the 0.001 epsilon absorbs are not
  modelled.
- Concurrent requests racing on a stock row or a number sequence.
- The v2 statement's ordering by invoice date, newest first, and its month
  buckets keyed by `strftime("%b %Y")`. The rows are kept in table order,
  and the summary does not depend on the order.
- The older statement's `group_by` parameter, which the handler does not
  use, and its HTML table.
- Free-text fields (notes, transporter, LR number, reason, payment mode and
  ref). They do not take part in any rule.
- The number column is matched by exact `startswith`, whereas SQLite's
  `LIKE` behind `startswith` in `next_invoice_no` ignores ASCII case.
  Python's `int()` is modelled as an optional '-' or '+' followed by ASCII
  digits: surrounding whitespace, underscores and non-ASCII digits are left
  out.
- The SQL row order is modelled as table order, and ids are positions + 1,
  because rows are never deleted.
- `SoAddLine` refuses a missing item with `ItemNotFound`. The handler instead
  fails on attribute access, with no row written, which is the same
  outcome.
