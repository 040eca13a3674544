/** Purchase documents (Purchase Invoice and Purchase Estimate) as the
    discount engine, the estimate doctype and the two form scripts see them,
    and the one ledger query both the engine and the scheduler run. */
module Documents {

  /** One row of a document's `items` table. A missing numeric field is
      modelled as 0 and a missing text field as "". */
  datatype LineItem = LineItem(
    itemCode: string,
    qty: real,
    rate: real,
    amount: real,
    discountPercentage: real,
    discountAmount: real,
    promotionApplied: string)

  /** The fields of a purchase document that the discount engine reads
      (first four and `items`) or writes (the rest). */
  datatype DocState = DocState(
    applyDiscount: bool,
    discountType: string,
    supplier: string,
    total: real,
    items: seq<LineItem>,
    discountAmount: real,
    additionalDiscountPercentage: real,
    turnoverIncentive: real,
    totalDiscountAmount: real,
    effectiveDiscountPercentage: real,
    grandTotal: real)

  /** Column sums over a table of lines. */
  function SumQty(items: seq<LineItem>): real
  {
    if items == [] then 0.0 else SumQty(items[..|items| - 1]) + items[|items| - 1].qty
  }

  function SumAmount(items: seq<LineItem>): real
  {
    if items == [] then 0.0 else SumAmount(items[..|items| - 1]) + items[|items| - 1].amount
  }

  function SumDiscount(items: seq<LineItem>): real
  {
    if items == [] then 0.0 else SumDiscount(items[..|items| - 1]) + items[|items| - 1].discountAmount
  }

  /** The column sums grow by one line at a time. */
  lemma SumsStep(items: seq<LineItem>, i: nat)
    requires i < |items|
    ensures SumQty(items[..i + 1]) == SumQty(items[..i]) + items[i].qty
    ensures SumAmount(items[..i + 1]) == SumAmount(items[..i]) + items[i].amount
  {
    assert items[..i + 1][..i] == items[..i];
  }

  /** A purchase document (Purchase Invoice or Purchase Estimate) held in memory during one
      validation pass or one form session; `doctype` tells them apart. */
  class PurchaseDocument {
    var doctype: string
    var name: string
    var supplier: string
    var supplierName: string
    var title: string
    var status: string
    var docstatus: int
    var convertedInvoice: string
    var applyDiscount: bool
    var discountType: string
    var items: seq<LineItem>
    var totalQty: real
    var total: real
    var discountAmount: real
    var additionalDiscountPercentage: real
    var turnoverIncentive: real
    var totalDiscountAmount: real
    var effectiveDiscountPercentage: real
    var grandTotal: real

    /** The discount-relevant fields as a value. */
    function State(): DocState
      reads this
    {
      DocState(applyDiscount, discountType, supplier, total, items,
               discountAmount, additionalDiscountPercentage, turnoverIncentive,
               totalDiscountAmount, effectiveDiscountPercentage, grandTotal)
    }
  }

  /** A row of `tabPurchase Invoice` as the turnover query sees it; dates are
      day numbers. */
  datatype PostedInvoice = PostedInvoice(
    supplier: string,
    postingDate: int,
    docstatus: int,
    grandTotal: real)

  /** The invoice is one the turnover query sums: the supplier's, submitted
      (docstatus 1), posted between today - 365 and today inclusive. */
  predicate InTurnoverWindow(inv: PostedInvoice, supplier: string, today: int)
  {
    inv.supplier == supplier && inv.docstatus == 1 &&
    today - 365 <= inv.postingDate <= today
  }

  /** The trailing-year purchase turnover of a supplier: SUM(grand_total)
      over the invoices in the window, 0 when none (SQL NULL read as 0). */
  function YearlyPurchase(invoices: seq<PostedInvoice>, supplier: string, today: int): real
  {
    if invoices == [] then 0.0
    else (if InTurnoverWindow(invoices[0], supplier, today) then invoices[0].grandTotal else 0.0)
         + YearlyPurchase(invoices[1..], supplier, today)
  }

  /** Posting one more invoice changes the turnover by its grand total if the
      query counts it, and not at all otherwise. */
  lemma {:induction false} YearlyPurchaseAppend(invoices: seq<PostedInvoice>, x: PostedInvoice,
                                                supplier: string, today: int)
    ensures YearlyPurchase(invoices + [x], supplier, today)
         == YearlyPurchase(invoices, supplier, today)
            + (if InTurnoverWindow(x, supplier, today) then x.grandTotal else 0.0)
  {
    if invoices == [] {
      assert [] + [x] == [x];
      assert [x][1..] == [];
    } else {
      assert (invoices + [x])[1..] == invoices[1..] + [x];
      YearlyPurchaseAppend(invoices[1..], x, supplier, today);
    }
  }

  /** Invoices the query does not count contribute nothing. */
  lemma {:induction false} YearlyPurchaseOfUncounted(invoices: seq<PostedInvoice>, supplier: string, today: int)
    requires forall k :: 0 <= k < |invoices| ==> !InTurnoverWindow(invoices[k], supplier, today)
    ensures YearlyPurchase(invoices, supplier, today) == 0.0
  {
    if invoices != [] {
      YearlyPurchaseOfUncounted(invoices[1..], supplier, today);
    }
  }
}
