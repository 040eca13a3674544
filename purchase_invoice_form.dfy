/** The client-side arithmetic of the Purchase Invoice form: applying a
    cached supplier discount to a line, recomputing a line, clearing every
    discount, and the guard on the server recalculation. The form works on
    the same document object as the server, `PurchaseDocument`. */
module PurchaseInvoiceForm {
  import opened Basics
  import opened Documents
  import DA = DiscountAgreements
  import DC = DiscountCalculations

  /** One entry of the form's cached supplier discounts, as the
      supplier-discount query returns it. */
  datatype DiscountSummary = DiscountSummary(itemCode: string, discountPercentage: real)

  /** `Array.prototype.find` by item code: the first matching entry. */
  function FindSummary(cache: seq<DiscountSummary>, itemCode: string): (r: Option<nat>)
    ensures r.Some? ==> r.value < |cache| && cache[r.value].itemCode == itemCode
    ensures r.Some? ==> forall j :: 0 <= j < r.value ==> cache[j].itemCode != itemCode
    ensures r.None? ==> forall j :: 0 <= j < |cache| ==> cache[j].itemCode != itemCode
  {
    if cache == [] then None
    else if cache[0].itemCode == itemCode then Some(0)
    else match FindSummary(cache[1..], itemCode)
      case None => None
      case Some(k) => Some(k + 1)
  }

  /** The percentage found for an item, if any; `None` for an unloaded
      cache as well. */
  function CachedPercentage(cache: Option<seq<DiscountSummary>>, itemCode: string): (r: Option<real>)
    ensures cache.None? ==> r.None?
    ensures cache.Some? ==> (r.None? <==> forall j :: 0 <= j < |cache.value| ==> cache.value[j].itemCode != itemCode)
    ensures r.Some? ==> exists k :: 0 <= k < |cache.value| && cache.value[k].itemCode == itemCode &&
                                    cache.value[k].discountPercentage == r.value &&
                                    forall j :: 0 <= j < k ==> cache.value[j].itemCode != itemCode
  {
    match cache
    case None => None
    case Some(c) =>
      match FindSummary(c, itemCode)
      case None => None
      case Some(k) => Some(c[k].discountPercentage)
  }

  /** `apply_item_discount` on one line. */
  function InvoiceItemDiscount(item: LineItem, cache: Option<seq<DiscountSummary>>): (r: LineItem)
    ensures CachedPercentage(cache, item.itemCode).None? ==> r == item
    ensures CachedPercentage(cache, item.itemCode).Some? ==>
      var p := CachedPercentage(cache, item.itemCode).value;
      r.discountPercentage == p && r.discountAmount == PercentOf(item.amount, p) &&
      r.rate == item.rate - PercentOf(item.rate, p) &&
      r.itemCode == item.itemCode && r.qty == item.qty && r.amount == item.amount &&
      r.promotionApplied == item.promotionApplied
  {
    match CachedPercentage(cache, item.itemCode)
    case None => item
    case Some(p) => item.(discountPercentage := p, discountAmount := PercentOf(item.amount, p),
                          rate := item.rate - PercentOf(item.rate, p))
  }

  /** The cache the form loads for a supplier: its active agreements, in
      store order. */
  function SupplierSummaries(agreements: seq<DA.Agreement>, supplier: string): (r: seq<DiscountSummary>)
    ensures |r| <= |agreements|
    ensures forall e :: e in r <==>
      exists k :: 0 <= k < |agreements| && agreements[k].supplier == supplier && agreements[k].isActive &&
                  e == DiscountSummary(agreements[k].itemCode, agreements[k].discountPercentage)
  {
    if agreements == [] then []
    else (if agreements[0].supplier == supplier && agreements[0].isActive
          then [DiscountSummary(agreements[0].itemCode, agreements[0].discountPercentage)] else [])
         + SupplierSummaries(agreements[1..], supplier)
  }

  /** Looking up an item in a cache with one more entry in front. */
  lemma FindSummaryCons(h: DiscountSummary, tail: seq<DiscountSummary>, itemCode: string)
    ensures FindSummary([h] + tail, itemCode)
         == if h.itemCode == itemCode then Some(0)
            else match FindSummary(tail, itemCode) case None => None case Some(k) => Some(k + 1)
  {
    assert ([h] + tail)[0] == h;
    assert ([h] + tail)[1..] == tail;
  }

  /** The cache loaded for a supplier finds an entry for an item exactly
      when the server finds an agreement, and that entry carries the
      agreement's percentage. */
  lemma {:induction false} FindSummaryAgrees(agreements: seq<DA.Agreement>, supplier: string, itemCode: string)
    ensures DC.FirstAgreement(agreements, supplier, itemCode).None? <==>
            FindSummary(SupplierSummaries(agreements, supplier), itemCode).None?
    ensures DC.FirstAgreement(agreements, supplier, itemCode).Some? ==>
            SupplierSummaries(agreements, supplier)[FindSummary(SupplierSummaries(agreements, supplier), itemCode).value]
              .discountPercentage
            == agreements[DC.FirstAgreement(agreements, supplier, itemCode).value].discountPercentage
  {
    if agreements != [] {
      var a, rest := agreements[0], agreements[1..];
      var tail := SupplierSummaries(rest, supplier);
      FindSummaryAgrees(rest, supplier, itemCode);
      if a.supplier == supplier && a.isActive {
        var h := DiscountSummary(a.itemCode, a.discountPercentage);
        assert SupplierSummaries(agreements, supplier) == [h] + tail;
        FindSummaryCons(h, tail, itemCode);
      } else {
        assert SupplierSummaries(agreements, supplier) == tail;
      }
    }
  }

  /** The form's lookup in the loaded cache finds the same agreement as the
      server's lookup. */
  lemma CacheLookupAgrees(agreements: seq<DA.Agreement>, supplier: string, itemCode: string)
    ensures DC.FirstAgreement(agreements, supplier, itemCode).Some? <==>
            CachedPercentage(Some(SupplierSummaries(agreements, supplier)), itemCode).Some?
    ensures DC.FirstAgreement(agreements, supplier, itemCode).Some? ==>
            CachedPercentage(Some(SupplierSummaries(agreements, supplier)), itemCode).value
            == DC.SupplierDiscount(agreements, supplier, itemCode)
  {
    FindSummaryAgrees(agreements, supplier, itemCode);
  }

  /** With the cache loaded for the document's supplier, the form gives a
      line the same discount as the server's item-wise stage whenever the
      agreement rate is positive. */
  lemma ClientMatchesServer(item: LineItem, L: DC.Lookups, supplier: string)
    requires DC.LineRate(L, supplier, item) > 0.0
    ensures InvoiceItemDiscount(item, Some(SupplierSummaries(L.agreements, supplier)))
         == DC.ItemWiseLine(item, DC.LineRate(L, supplier, item))
  {
    CacheLookupAgrees(L.agreements, supplier, item.itemCode);
  }

  /** `calculate_item_totals` on one line: the amount is quantity times
      rate, net of the line discount when a percentage is set. */
  function ItemTotals(item: LineItem): (r: LineItem)
    ensures item.discountPercentage > 0.0 ==>
      r.discountAmount == PercentOf(item.qty * item.rate, item.discountPercentage) &&
      r.amount + r.discountAmount == item.qty * item.rate
    ensures item.discountPercentage <= 0.0 ==>
      r.amount == item.qty * item.rate && r.discountAmount == item.discountAmount
    ensures r == item.(amount := r.amount, discountAmount := r.discountAmount)
  {
    var gross := item.qty * item.rate;
    if item.discountPercentage > 0.0 then
      item.(amount := gross - PercentOf(gross, item.discountPercentage),
            discountAmount := PercentOf(gross, item.discountPercentage))
    else item.(amount := gross)
  }

  /** A line with its discount fields cleared. */
  function ResetLine(item: LineItem): LineItem
  {
    item.(discountPercentage := 0.0, discountAmount := 0.0, promotionApplied := "")
  }

  function ResetLines(items: seq<LineItem>): (r: seq<LineItem>)
    ensures |r| == |items|
    ensures forall k :: 0 <= k < |r| ==>
      r[k].discountPercentage == 0.0 && r[k].discountAmount == 0.0 && r[k].promotionApplied == "" &&
      r[k].itemCode == items[k].itemCode && r[k].qty == items[k].qty &&
      r[k].rate == items[k].rate && r[k].amount == items[k].amount
  {
    seq(|items|, k requires 0 <= k < |items| => ResetLine(items[k]))
  }

  /** After a reset no line carries a discount. */
  lemma {:induction false} ResetLinesClearDiscounts(items: seq<LineItem>)
    ensures SumDiscount(ResetLines(items)) == 0.0
    ensures SumAmount(ResetLines(items)) == SumAmount(items)
  {
    if items != [] {
      var n := |items|;
      assert ResetLines(items)[..n - 1] == ResetLines(items[..n - 1]);
      ResetLinesClearDiscounts(items[..n - 1]);
    }
  }

  /** `calculate_all_discounts`: the server recalculation is requested only
      when discounts are switched on; the form itself changes nothing. */
  method CalculateAllDiscounts(doc: PurchaseDocument) returns (requested: bool)
    ensures requested <==> doc.applyDiscount
  {
    if !doc.applyDiscount {
      return false;
    }
    requested := true;
  }

  /** `apply_item_discount` for line `i`. */
  method ApplyItemDiscount(doc: PurchaseDocument, i: nat, cache: Option<seq<DiscountSummary>>)
    requires i < |doc.items|
    modifies doc`items
    ensures doc.items == old(doc.items)[i := InvoiceItemDiscount(old(doc.items)[i], cache)]
  {
    if cache.None? {
      return;
    }
    var item := doc.items[i];
    var applicable := FindSummary(cache.value, item.itemCode);
    if applicable.Some? {
      var discountPercentage := cache.value[applicable.value].discountPercentage;
      var discountAmount := PercentOf(item.amount, discountPercentage);
      var discountedRate := item.rate - PercentOf(item.rate, discountPercentage);
      doc.items := doc.items[i := item.(discountPercentage := discountPercentage,
                                        discountAmount := discountAmount,
                                        rate := discountedRate)];
    }
  }

  /** `calculate_item_totals` for line `i`. */
  method CalculateItemTotals(doc: PurchaseDocument, i: nat)
    requires i < |doc.items|
    modifies doc`items
    ensures doc.items == old(doc.items)[i := ItemTotals(old(doc.items)[i])]
  {
    var item := doc.items[i];
    item := item.(amount := item.qty * item.rate);
    if item.discountPercentage > 0.0 {
      item := item.(discountAmount := PercentOf(item.amount, item.discountPercentage));
      item := item.(amount := item.amount - item.discountAmount);
    }
    doc.items := doc.items[i := item];
  }

  /** `reset_discount_values`: clears the discount type, the two header
      totals and every line's discount fields. */
  method ResetDiscountValues(doc: PurchaseDocument)
    modifies doc`discountType, doc`totalDiscountAmount, doc`effectiveDiscountPercentage, doc`items
    ensures doc.discountType == "" && doc.totalDiscountAmount == 0.0 && doc.effectiveDiscountPercentage == 0.0
    ensures doc.items == ResetLines(old(doc.items))
  {
    doc.discountType := "";
    doc.totalDiscountAmount := 0.0;
    doc.effectiveDiscountPercentage := 0.0;
    ghost var orig := doc.items;
    var i := 0;
    while i < |doc.items|
      invariant 0 <= i <= |orig| && |doc.items| == |orig|
      invariant forall k :: 0 <= k < i ==> doc.items[k] == ResetLine(orig[k])
      invariant forall k :: i <= k < |orig| ==> doc.items[k] == orig[k]
      invariant doc.discountType == "" && doc.totalDiscountAmount == 0.0 && doc.effectiveDiscountPercentage == 0.0
    {
      doc.items := doc.items[i := doc.items[i].(discountPercentage := 0.0)];
      doc.items := doc.items[i := doc.items[i].(discountAmount := 0.0)];
      doc.items := doc.items[i := doc.items[i].(promotionApplied := "")];
      i := i + 1;
    }
  }
}
