/** Row shapes of the tables the order-to-cash flow reads and writes, with
    their default statuses. Free-text columns that no rule reads (title,
    notes, transporter, payment mode, ...) are not carried. */
module Records {
  import opened Common

  datatype OrderStatus = Open | Approved | Dispatched | Cancelled
  datatype ChallanStatus = Open | Invoiced
  datatype InvoiceStatus = Open | Partial | Paid | Cancelled
  datatype ReturnStatus = Open | Posted

  datatype Item = Item(id: int, sku: string, gstPercent: real, salePrice: real)

  datatype Party = Party(
    id: int,
    creditLimit: real,
    paymentTermsDays: int,
    isBlocked: bool,
    state: Option<string>)

  // ---- v2 schema ----

  datatype SalesOrder = SalesOrder(
    id: int, soNo: string, partyId: int, warehouseId: int, soDate: int, status: OrderStatus)

  datatype SalesOrderLine = SalesOrderLine(
    soId: int, itemId: int, qty: int, rate: real, gstPercent: real, discountPercent: real)

  datatype Challan = Challan(id: int, dcNo: string, soId: int, status: ChallanStatus)

  datatype ChallanLine = ChallanLine(dcId: int, itemId: int, qty: int)

  datatype Invoice = Invoice(
    id: int,
    invoiceNo: string,
    dcId: int,
    partyId: int,
    warehouseId: int,
    invoiceDate: int,
    placeOfSupply: Option<string>,
    status: InvoiceStatus)

  datatype InvoiceLine = InvoiceLine(
    invoiceId: int, itemId: int, qty: int, rate: real, gstPercent: real, discountPercent: real)

  datatype Payment = Payment(partyId: int, invoiceId: int, payDate: int, amount: real)

  datatype ReturnNote = ReturnNote(
    id: int, rnNo: string, partyId: int, warehouseId: int, returnDate: int, status: ReturnStatus)

  datatype ReturnLine = ReturnLine(returnId: int, itemId: int, qty: int)

  // ---- older direct-invoice schema ----

  datatype LegacyInvoice = LegacyInvoice(
    id: int, invoiceNo: string, partyId: int, warehouseId: int, invoiceDate: int, status: InvoiceStatus)

  datatype LegacyInvoiceLine = LegacyInvoiceLine(
    invoiceId: int, itemId: int, qty: int, rate: real, gstPercent: real)

  datatype LegacyReturnNote = LegacyReturnNote(id: int, partyId: int, warehouseId: int, returnDate: int)
}
