/** The client-side arithmetic of the Purchase Estimate form: the cached
    supplier discount on a line, the line and header totals, and clearing
    every discount. */
module PurchaseEstimateForm {
  import opened Basics
  import opened Documents
  import PE = PurchaseEstimates
  import PIF = PurchaseInvoiceForm

  /** `apply_estimate_item_discount` on one line: like the invoice form,
      except that the rate is left as it is. */
  function EstimateItemDiscount(item: LineItem, cache: Option<seq<PIF.DiscountSummary>>): (r: LineItem)
    ensures PIF.CachedPercentage(cache, item.itemCode).None? ==> r == item
    ensures PIF.CachedPercentage(cache, item.itemCode).Some? ==>
      var p := PIF.CachedPercentage(cache, item.itemCode).value;
      r == item.(discountPercentage := p, discountAmount := PercentOf(item.amount, p))
  {
    match PIF.CachedPercentage(cache, item.itemCode)
    case None => item
    case Some(p) => item.(discountPercentage := p, discountAmount := PercentOf(item.amount, p))
  }

  /** The estimate form never loads a discount cache, so as the program
      stands its discount handler leaves the line as it is. */
  lemma EstimateFormWithoutCache(item: LineItem)
    ensures EstimateItemDiscount(item, None) == item
  {
  }

  /** The estimate form's discount is the invoice form's with the original
      rate put back. */
  lemma EstimateDiscountKeepsRate(item: LineItem, cache: Option<seq<PIF.DiscountSummary>>)
    ensures EstimateItemDiscount(item, cache) == PIF.InvoiceItemDiscount(item, cache).(rate := item.rate)
  {
  }

  /** `calculate_estimate_item_totals` on one line, before the header pass:
      the amount is reset to quantity times rate and the discount is
      recomputed from it when a percentage is set; unlike the invoice form
      the discount is not taken off the amount here. */
  function EstimateItemTotals(item: LineItem): (r: LineItem)
    ensures r.amount == item.qty * item.rate
    ensures item.discountPercentage > 0.0 ==> r.discountAmount == PercentOf(r.amount, item.discountPercentage)
    ensures item.discountPercentage <= 0.0 ==> r.discountAmount == item.discountAmount
    ensures r == item.(amount := r.amount, discountAmount := r.discountAmount)
  {
    var gross := item.qty * item.rate;
    if item.discountPercentage > 0.0 then
      item.(amount := gross, discountAmount := PercentOf(gross, item.discountPercentage))
    else item.(amount := gross)
  }

  /** `item.qty && item.rate`: a line counts towards the header only when
      both are non-zero. */
  predicate Included(item: LineItem)
  {
    item.qty != 0.0 && item.rate != 0.0
  }

  /** A counted line's amount net of its discount. */
  function NetAmount(item: LineItem): real
  {
    item.qty * item.rate - item.discountAmount
  }

  /** A line after the header pass of `calculate_estimate_totals`. */
  function EstimateLine(item: LineItem): LineItem
  {
    if Included(item) then item.(amount := NetAmount(item)) else item
  }

  function EstimateLines(items: seq<LineItem>): seq<LineItem>
  {
    seq(|items|, k requires 0 <= k < |items| => EstimateLine(items[k]))
  }

  /** The header pass sets a counted line's amount to quantity times rate
      less its discount, leaves an uncounted line alone, and changes no
      other field. */
  lemma EstimateLinesSpec(items: seq<LineItem>)
    ensures var r := EstimateLines(items);
      |r| == |items| &&
      forall k :: 0 <= k < |r| ==>
        (Included(items[k]) ==> r[k].amount == items[k].qty * items[k].rate - items[k].discountAmount) &&
        (!Included(items[k]) ==> r[k].amount == items[k].amount) &&
        r[k] == items[k].(amount := r[k].amount)
  {
  }

  /** The quantity summed over the counted lines. */
  function IncludedQty(items: seq<LineItem>): real
  {
    if items == [] then 0.0
    else IncludedQty(items[..|items| - 1]) +
         (if Included(items[|items| - 1]) then items[|items| - 1].qty else 0.0)
  }

  /** The net amount summed over the counted lines. */
  function IncludedAmount(items: seq<LineItem>): real
  {
    if items == [] then 0.0
    else IncludedAmount(items[..|items| - 1]) +
         (if Included(items[|items| - 1]) then NetAmount(items[|items| - 1]) else 0.0)
  }

  /** The counted totals grow by one line at a time. */
  lemma IncludedStep(items: seq<LineItem>, i: nat)
    requires i < |items|
    ensures IncludedQty(items[..i + 1]) == IncludedQty(items[..i]) + (if Included(items[i]) then items[i].qty else 0.0)
    ensures IncludedAmount(items[..i + 1]) == IncludedAmount(items[..i]) + (if Included(items[i]) then NetAmount(items[i]) else 0.0)
  {
    assert items[..i + 1][..i] == items[..i];
  }

  /** The header pass changes only amounts, so running it again changes
      nothing. */
  lemma EstimateLinesIdempotent(items: seq<LineItem>)
    ensures EstimateLines(EstimateLines(items)) == EstimateLines(items)
  {
    assert forall k :: 0 <= k < |items| ==> EstimateLines(EstimateLines(items))[k] == EstimateLines(items)[k];
  }

  /** The counted totals read only quantities, rates and discounts, which
      the header pass keeps. */
  lemma {:induction false} IncludedTotalsOfEstimateLines(items: seq<LineItem>)
    ensures IncludedQty(EstimateLines(items)) == IncludedQty(items)
    ensures IncludedAmount(EstimateLines(items)) == IncludedAmount(items)
  {
    if items != [] {
      var n := |items|;
      assert EstimateLines(items)[..n - 1] == EstimateLines(items[..n - 1]);
      IncludedTotalsOfEstimateLines(items[..n - 1]);
    }
  }

  /** When every line is counted, the form's header agrees with the
      server's `calculate_totals` on the quantity, while its total is the
      server's total less the line discounts. */
  lemma {:induction false} ClientTotalsAgainstServer(items: seq<LineItem>)
    requires forall k :: 0 <= k < |items| ==> Included(items[k])
    ensures IncludedQty(items) == SumQty(items)
    ensures IncludedAmount(items) == SumAmount(PE.PricedLines(items)) - SumDiscount(items)
  {
    if items != [] {
      var n := |items|;
      assert PE.PricedLines(items)[..n - 1] == PE.PricedLines(items[..n - 1]);
      ClientTotalsAgainstServer(items[..n - 1]);
    }
  }

  /** After a reset the form's total is the server's undiscounted total
      whenever every line is counted. */
  lemma ResetTotalMatchesServer(items: seq<LineItem>)
    requires forall k :: 0 <= k < |items| ==> Included(items[k])
    ensures IncludedAmount(PIF.ResetLines(items)) == SumAmount(PE.PricedLines(items))
  {
    var reset := PIF.ResetLines(items);
    ClientTotalsAgainstServer(reset);
    PIF.ResetLinesClearDiscounts(items);
    PricedAmountsOfReset(items);
  }

  lemma {:induction false} PricedAmountsOfReset(items: seq<LineItem>)
    ensures SumAmount(PE.PricedLines(PIF.ResetLines(items))) == SumAmount(PE.PricedLines(items))
  {
    if items != [] {
      var n := |items|;
      assert PE.PricedLines(PIF.ResetLines(items))[..n - 1] == PE.PricedLines(PIF.ResetLines(items[..n - 1]));
      assert PE.PricedLines(items)[..n - 1] == PE.PricedLines(items[..n - 1]);
      PricedAmountsOfReset(items[..n - 1]);
    }
  }

  /** `apply_estimate_item_discount` for line `i`. */
  method ApplyEstimateItemDiscount(doc: PurchaseDocument, i: nat, cache: Option<seq<PIF.DiscountSummary>>)
    requires i < |doc.items|
    modifies doc`items
    ensures doc.items == old(doc.items)[i := EstimateItemDiscount(old(doc.items)[i], cache)]
  {
    if cache.Some? {
      var item := doc.items[i];
      var applicable := PIF.FindSummary(cache.value, item.itemCode);
      if applicable.Some? {
        var discountPercentage := cache.value[applicable.value].discountPercentage;
        var discountAmount := PercentOf(item.amount, discountPercentage);
        doc.items := doc.items[i := item.(discountPercentage := discountPercentage,
                                          discountAmount := discountAmount)];
      }
    }
  }

  /** `calculate_estimate_totals`: counted lines get their net amount, the
      header sums the counted quantities and net amounts, and the grand
      total is the total less the stored discount. */
  method CalculateEstimateTotals(doc: PurchaseDocument)
    modifies doc`items, doc`totalQty, doc`total, doc`grandTotal
    ensures doc.items == EstimateLines(old(doc.items))
    ensures doc.totalQty == IncludedQty(old(doc.items))
    ensures doc.total == IncludedAmount(old(doc.items))
    ensures doc.grandTotal == doc.total - doc.totalDiscountAmount
  {
    ghost var orig := doc.items;
    ghost var target := EstimateLines(orig);
    var totalQty := 0.0;
    var totalAmount := 0.0;
    var i := 0;
    while i < |doc.items|
      invariant 0 <= i <= |orig| && |doc.items| == |orig|
      invariant forall k :: 0 <= k < i ==> doc.items[k] == target[k]
      invariant forall k :: i <= k < |orig| ==> doc.items[k] == orig[k]
      invariant totalQty == IncludedQty(orig[..i])
      invariant totalAmount == IncludedAmount(orig[..i])
    {
      var item := doc.items[i];
      assert item == orig[i];
      IncludedStep(orig, i);
      if item.qty != 0.0 && item.rate != 0.0 {
        var amount := item.qty * item.rate;
        if item.discountAmount != 0.0 {
          amount := amount - item.discountAmount;
        }
        assert amount == NetAmount(item) && target[i] == EstimateLine(item) == item.(amount := amount);
        doc.items := doc.items[i := item.(amount := amount)];
        totalQty := totalQty + item.qty;
        totalAmount := totalAmount + amount;
      } else {
        assert target[i] == EstimateLine(item) == item;
      }
      i := i + 1;
    }
    assert orig[..i] == orig;
    assert doc.items == target;
    doc.totalQty := totalQty;
    doc.total := totalAmount;
    doc.grandTotal := totalAmount - doc.totalDiscountAmount;
  }

  /** `calculate_estimate_item_totals` for line `i`, followed by the header
      pass. */
  method CalculateEstimateItemTotals(doc: PurchaseDocument, i: nat)
    requires i < |doc.items|
    modifies doc`items, doc`totalQty, doc`total, doc`grandTotal
    ensures doc.items == EstimateLines(old(doc.items)[i := EstimateItemTotals(old(doc.items)[i])])
    ensures doc.totalQty == IncludedQty(old(doc.items)[i := EstimateItemTotals(old(doc.items)[i])])
    ensures doc.total == IncludedAmount(old(doc.items)[i := EstimateItemTotals(old(doc.items)[i])])
    ensures doc.grandTotal == doc.total - doc.totalDiscountAmount
  {
    var item := doc.items[i];
    item := item.(amount := item.qty * item.rate);
    if item.discountPercentage > 0.0 {
      item := item.(discountAmount := PercentOf(item.amount, item.discountPercentage));
    }
    doc.items := doc.items[i := item];
    CalculateEstimateTotals(doc);
  }

  /** `reset_estimate_discounts`: clears the discount type, the two header
      totals and every line's discount fields, then reruns the header
      pass. */
  method ResetEstimateDiscounts(doc: PurchaseDocument)
    modifies doc`discountType, doc`totalDiscountAmount, doc`effectiveDiscountPercentage,
             doc`items, doc`totalQty, doc`total, doc`grandTotal
    ensures doc.discountType == "" && doc.totalDiscountAmount == 0.0 && doc.effectiveDiscountPercentage == 0.0
    ensures doc.items == EstimateLines(PIF.ResetLines(old(doc.items)))
    ensures doc.totalQty == IncludedQty(PIF.ResetLines(old(doc.items)))
    ensures doc.total == IncludedAmount(PIF.ResetLines(old(doc.items)))
    ensures doc.grandTotal == doc.total
  {
    PIF.ResetDiscountValues(doc);
    CalculateEstimateTotals(doc);
  }
}
