/**
 * The records of billing/models/models.go. Times are whole numbers on one
 * clock; a field a query does not select keeps Go's zero value.
 */
module Models {

  /** One line item of a bill. */
  datatype BillItem = BillItem(id: string, amount: int, currency: string)

  /** A bill as the activities return it. */
  datatype Bill = Bill(billId: string, closeDate: int, status: string, billItems: seq<BillItem>)

  /** Per-currency total of a closed bill, as the bill_summary view yields it. */
  datatype BillItemSummary = BillItemSummary(billId: string, totalAmount: int, currency: string)

  /** What the summary endpoint returns. */
  datatype BillSummary = BillSummary(
    billId: string,
    closedAt: int,
    status: string,
    billItems: seq<BillItem>,
    billItemSummary: seq<BillItemSummary>)

  /** Go's zero time.Time, left in fields a query does not read. */
  const ZeroTime: int := 0
}
