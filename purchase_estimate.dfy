/** The Purchase Estimate doctype's own controller: totals and title on
    validate, status on submit and cancel, and the guarded conversion into
    a Purchase Invoice. */
module PurchaseEstimates {
  import opened Basics
  import opened Documents
  import DC = DiscountCalculations

  const AlreadyConvertedMessage := "This estimate has already been converted to an invoice"
  const NotSubmittedMessage := "Please submit the estimate before converting"

  /** A line with its amount recomputed as quantity times rate. */
  function Priced(item: LineItem): LineItem
  {
    item.(amount := item.qty * item.rate)
  }

  /** The estimate's lines after `calculate_totals`. */
  function PricedLines(items: seq<LineItem>): (r: seq<LineItem>)
    ensures |r| == |items|
    ensures forall k :: 0 <= k < |r| ==> r[k].amount == items[k].qty * items[k].rate
    ensures forall k :: 0 <= k < |r| ==> r[k] == items[k].(amount := r[k].amount)
  {
    seq(|items|, k requires 0 <= k < |items| => Priced(items[k]))
  }

  /** A second pass of the pricing changes nothing. */
  lemma PricedLinesIdempotent(items: seq<LineItem>)
    ensures PricedLines(PricedLines(items)) == PricedLines(items)
  {
    assert forall k :: 0 <= k < |items| ==> PricedLines(PricedLines(items))[k] == PricedLines(items)[k];
  }

  /** Pricing does not change quantities. */
  lemma {:induction false} PricedLinesKeepQty(items: seq<LineItem>)
    ensures SumQty(PricedLines(items)) == SumQty(items)
  {
    if items != [] {
      var n := |items|;
      assert PricedLines(items)[..n - 1] == PricedLines(items[..n - 1]);
      PricedLinesKeepQty(items[..n - 1]);
    }
  }

  /** `calculate_totals`: every line's amount becomes quantity times rate,
      the header sums the quantities and amounts, and the grand total is
      the total less the stored discount. */
  method CalculateTotals(doc: PurchaseDocument)
    modifies doc`items, doc`totalQty, doc`total, doc`grandTotal
    ensures doc.items == PricedLines(old(doc.items))
    ensures doc.totalQty == SumQty(old(doc.items))
    ensures doc.total == SumAmount(doc.items)
    ensures doc.grandTotal == doc.total - doc.totalDiscountAmount
  {
    ghost var orig := doc.items;
    ghost var priced := PricedLines(orig);
    var totalQty := 0.0;
    var totalAmount := 0.0;
    var i := 0;
    while i < |doc.items|
      invariant 0 <= i <= |orig| && |doc.items| == |orig|
      invariant forall k :: 0 <= k < i ==> doc.items[k] == priced[k]
      invariant forall k :: i <= k < |orig| ==> doc.items[k] == orig[k]
      invariant totalQty == SumQty(orig[..i])
      invariant totalAmount == SumAmount(priced[..i])
    {
      var item := doc.items[i];
      doc.items := doc.items[i := item.(amount := item.qty * item.rate)];
      assert doc.items[i] == priced[i];
      totalQty := totalQty + item.qty;
      totalAmount := totalAmount + doc.items[i].amount;
      SumsStep(orig, i);
      SumsStep(priced, i);
      i := i + 1;
    }
    assert orig[..i] == orig;
    assert doc.items == priced;
    assert priced[..i] == priced;
    doc.totalQty := totalQty;
    doc.total := totalAmount;
    var discountAmount := doc.totalDiscountAmount;
    doc.grandTotal := totalAmount - discountAmount;
  }

  /** `set_title`: only a known supplier name renames the estimate. */
  method SetTitle(doc: PurchaseDocument)
    modifies doc`title
    ensures doc.supplierName != "" ==> doc.title == "PE from " + doc.supplierName
    ensures doc.supplierName == "" ==> doc.title == old(doc.title)
  {
    if doc.supplierName != "" {
      doc.title := "PE from " + doc.supplierName;
    }
  }

  /** `validate` */
  method Validate(doc: PurchaseDocument)
    modifies doc`items, doc`totalQty, doc`total, doc`grandTotal, doc`title
    ensures doc.items == PricedLines(old(doc.items))
    ensures doc.totalQty == SumQty(old(doc.items)) && doc.total == SumAmount(doc.items)
    ensures doc.grandTotal == doc.total - doc.totalDiscountAmount
    ensures doc.supplierName != "" ==> doc.title == "PE from " + doc.supplierName
    ensures doc.supplierName == "" ==> doc.title == old(doc.title)
  {
    CalculateTotals(doc);
    SetTitle(doc);
  }

  method OnSubmit(doc: PurchaseDocument)
    modifies doc`status
    ensures doc.status == "Submitted"
  {
    doc.status := "Submitted";
  }

  method OnCancel(doc: PurchaseDocument)
    modifies doc`status
    ensures doc.status == "Cancelled"
  {
    doc.status := "Cancelled";
  }

  /** The guards of `convert_to_invoice`, in their order. */
  function ConvertGuard(status: string, docstatus: int): (r: Outcome)
    ensures r.Pass? <==> status != "Converted" && docstatus == 1
    ensures status == "Converted" ==> r == Fail(AlreadyConvertedMessage)
    ensures status != "Converted" && docstatus != 1 ==> r == Fail(NotSubmittedMessage)
  {
    if status == "Converted" then Fail(AlreadyConvertedMessage)
    else if docstatus != 1 then Fail(NotSubmittedMessage)
    else Pass
  }

  /** `convert_to_invoice`: a submitted, unconverted estimate yields the
      invoice draft and is marked converted; otherwise nothing changes.
      `invoiceName` is the name the saved invoice receives. */
  method ConvertToInvoice(doc: PurchaseDocument, invoiceName: string, today: int)
    returns (outcome: Outcome, invoice: Option<DC.InvoiceDraft>)
    modifies doc`status, doc`convertedInvoice
    ensures outcome == ConvertGuard(old(doc.status), old(doc.docstatus))
    ensures outcome.Fail? ==>
      invoice == None && doc.status == old(doc.status) && doc.convertedInvoice == old(doc.convertedInvoice)
    ensures outcome.Pass? ==>
      invoice == Some(old(DC.DraftFromEstimate(doc, doc.name, today))) &&
      doc.status == "Converted" && doc.convertedInvoice == invoiceName
  {
    invoice := None;
    if doc.status == "Converted" {
      return Fail(AlreadyConvertedMessage), invoice;
    }
    if doc.docstatus != 1 {
      return Fail(NotSubmittedMessage), invoice;
    }
    var draft := DC.ConvertEstimateToInvoice(doc, doc.name, invoiceName, today);
    invoice := Some(draft);
    doc.status := "Converted";
    doc.convertedInvoice := invoiceName;
    outcome := Pass;
  }
}
