/** The purchase discount engine: the `DiscountCalculator` pipeline (item-wise
    or invoice-wise discount, seasonal promotions, turnover incentive,
    totals), the document hook that runs it, the estimate approval gate and
    the estimate-to-invoice copy.

    Every stage is a method of `DiscountCalculator` that updates the document
    in place; each is proved against a pure stage function over `DocState`,
    and `Engine` composes the stage functions into the whole pipeline. */
module DiscountCalculations {
  import opened Basics
  import opened Documents
  import DA = DiscountAgreements
  import SP = SeasonalPromotions
  import TI = TurnoverIncentives

  const ItemWise := "Item-wise"
  const InvoiceWise := "Invoice-wise"

  /** What the engine reads from the record store during one pass.
      `supplierDiscounts` maps each existing Supplier to its
      `default_invoice_discount`; a supplier absent from it does not exist. */
  datatype Lookups = Lookups(
    agreements: seq<DA.Agreement>,
    supplierDiscounts: map<string, real>,
    promotions: seq<SP.Promotion>,
    tiers: seq<TI.Tier>,
    invoices: seq<PostedInvoice>,
    today: int)

  /** A stage's new document state and the amount it adds to the running
      discount total. */
  datatype Step = Step(doc: DocState, added: real)

  /** The state after the whole pipeline and the calculator's final running
      total. */
  datatype Run = Run(doc: DocState, runningTotal: real)

  // ---------------------------------------------------------------------
  // Lookups

  predicate AgreementMatches(a: DA.Agreement, supplier: string, itemCode: string)
  {
    a.supplier == supplier && a.itemCode == itemCode && a.isActive
  }

  /** The `get_value` query for an active agreement: the first matching
      record in store order. */
  function FirstAgreement(agreements: seq<DA.Agreement>, supplier: string, itemCode: string): (r: Option<nat>)
    ensures r.Some? ==> r.value < |agreements| && AgreementMatches(agreements[r.value], supplier, itemCode)
    ensures r.Some? ==> forall j :: 0 <= j < r.value ==> !AgreementMatches(agreements[j], supplier, itemCode)
    ensures r.None? ==> forall j :: 0 <= j < |agreements| ==> !AgreementMatches(agreements[j], supplier, itemCode)
  {
    if agreements == [] then None
    else if AgreementMatches(agreements[0], supplier, itemCode) then Some(0)
    else match FirstAgreement(agreements[1..], supplier, itemCode)
      case None => None
      case Some(k) => Some(k + 1)
  }

  /** `get_supplier_discount`: the matching agreement's percentage, 0 when
      there is none. */
  function SupplierDiscount(agreements: seq<DA.Agreement>, supplier: string, itemCode: string): real
  {
    match FirstAgreement(agreements, supplier, itemCode)
    case None => 0.0
    case Some(k) => agreements[k].discountPercentage
  }

  /** A non-zero discount is the percentage of some matching agreement, and
      with no matching agreement the discount is 0. */
  lemma SupplierDiscountSpec(agreements: seq<DA.Agreement>, supplier: string, itemCode: string)
    ensures var r := SupplierDiscount(agreements, supplier, itemCode);
      r != 0.0 ==>
        exists k :: 0 <= k < |agreements| &&
          AgreementMatches(agreements[k], supplier, itemCode) && agreements[k].discountPercentage == r
    ensures (forall j :: 0 <= j < |agreements| ==> !AgreementMatches(agreements[j], supplier, itemCode)) ==>
      SupplierDiscount(agreements, supplier, itemCode) == 0.0
  {
  }

  // ---------------------------------------------------------------------
  // Stage 1: item-wise discount

  function LineRate(L: Lookups, supplier: string, item: LineItem): real
  {
    SupplierDiscount(L.agreements, supplier, item.itemCode)
  }

  /** One line under agreement rate `r`. */
  function ItemWiseLine(item: LineItem, r: real): LineItem
  {
    if r > 0.0 then
      item.(discountPercentage := r,
            discountAmount := PercentOf(item.amount, r),
            rate := item.rate - PercentOf(item.rate, r))
    else item
  }

  function ItemWiseLines(items: seq<LineItem>, L: Lookups, supplier: string): seq<LineItem>
  {
    seq(|items|, k requires 0 <= k < |items| => ItemWiseLine(items[k], LineRate(L, supplier, items[k])))
  }

  /** What the item-wise stage adds to the running total for one line. */
  function ItemWiseAmount(item: LineItem, r: real): real
  {
    if r > 0.0 then PercentOf(item.amount, r) else 0.0
  }

  function ItemWiseAdded(items: seq<LineItem>, L: Lookups, supplier: string): real
  {
    if items == [] then 0.0
    else ItemWiseAdded(items[..|items| - 1], L, supplier)
         + ItemWiseAmount(items[|items| - 1], LineRate(L, supplier, items[|items| - 1]))
  }

  /** The calculator's `item_wise_discounts` dictionary after the stage: the
      last discounted line of each item code wins. */
  function ItemWiseMap(m: map<string, real>, items: seq<LineItem>, L: Lookups, supplier: string): map<string, real>
  {
    if items == [] then m
    else
      var m' := ItemWiseMap(m, items[..|items| - 1], L, supplier);
      var last := items[|items| - 1];
      var r := LineRate(L, supplier, last);
      if r > 0.0 then m'[last.itemCode := PercentOf(last.amount, r)] else m'
  }

  /** Unfolds the item-wise sum and dictionary at one more line. */
  lemma ItemWiseStep(m: map<string, real>, items: seq<LineItem>, i: nat, L: Lookups, supplier: string)
    requires i < |items|
    ensures ItemWiseAdded(items[..i + 1], L, supplier)
      == ItemWiseAdded(items[..i], L, supplier) + ItemWiseAmount(items[i], LineRate(L, supplier, items[i]))
    ensures ItemWiseMap(m, items[..i + 1], L, supplier)
      == if LineRate(L, supplier, items[i]) > 0.0
         then ItemWiseMap(m, items[..i], L, supplier)[items[i].itemCode := PercentOf(items[i].amount, LineRate(L, supplier, items[i]))]
         else ItemWiseMap(m, items[..i], L, supplier)
  {
    assert items[..i + 1][..i] == items[..i];
  }

  /** Stage 1 on a value copy of the document. */
  function ItemWiseStage(v: DocState, L: Lookups): Step
  {
    Step(v.(items := ItemWiseLines(v.items, L, v.supplier)), ItemWiseAdded(v.items, L, v.supplier))
  }

  /** Stage 1 changes only the lines: a line with a positive agreement rate
      takes that percentage, its discount amount and its discounted rate; a
      line whose rate is not positive (no agreement, or a rate of 0 or
      less) is left as it is; on a document without earlier discounts the
      stage adds exactly the line discounts it writes. */
  lemma ItemWiseStageSpec(v: DocState, L: Lookups)
    ensures var r := ItemWiseStage(v, L);
      r.doc == v.(items := r.doc.items) && SameLines(r.doc.items, v.items) &&
      (forall k :: 0 <= k < |v.items| && LineRate(L, v.supplier, v.items[k]) <= 0.0 ==>
         r.doc.items[k] == v.items[k]) &&
      (forall k :: 0 <= k < |v.items| && LineRate(L, v.supplier, v.items[k]) > 0.0 ==>
         var R := LineRate(L, v.supplier, v.items[k]);
         r.doc.items[k].discountPercentage == R &&
         r.doc.items[k].discountAmount == PercentOf(v.items[k].amount, R) &&
         r.doc.items[k].rate == v.items[k].rate - PercentOf(v.items[k].rate, R) &&
         r.doc.items[k].promotionApplied == v.items[k].promotionApplied) &&
      (Undiscounted(v) ==> r.added == SumDiscount(r.doc.items))
  {
    if Undiscounted(v) {
      ItemWiseBreakdown(v.items, L, v.supplier);
    }
  }

  // ---------------------------------------------------------------------
  // Stage 2: invoice-wise discount

  function SupplierNotFound(supplier: string): string
  {
    "Supplier " + supplier + " not found"
  }

  /** `None` when the supplier record does not exist (the framework's
      `get_doc` raises). */
  function InvoiceWiseStage(v: DocState, L: Lookups): (r: Option<Step>)
    ensures r.None? <==> v.supplier != "" && v.supplier !in L.supplierDiscounts
    ensures r.Some? && (v.supplier == "" || L.supplierDiscounts[v.supplier] <= 0.0) ==> r.value == Step(v, 0.0)
    ensures r.Some? && v.supplier != "" && L.supplierDiscounts[v.supplier] > 0.0 ==>
      var D := L.supplierDiscounts[v.supplier];
      r.value.added == PercentOf(v.total, D) &&
      r.value.doc == v.(discountAmount := r.value.added, additionalDiscountPercentage := D)
  {
    if v.supplier == "" then Some(Step(v, 0.0))
    else if v.supplier !in L.supplierDiscounts then None
    else
      var d := L.supplierDiscounts[v.supplier];
      if d > 0.0 then
        Some(Step(v.(discountAmount := PercentOf(v.total, d), additionalDiscountPercentage := d),
                  PercentOf(v.total, d)))
      else Some(Step(v, 0.0))
  }

  // ---------------------------------------------------------------------
  // Stage 3: seasonal promotions

  /** The active-promotion query, in store order. */
  function ActivePromotions(ps: seq<SP.Promotion>, today: int): (r: seq<SP.Promotion>)
    ensures forall p :: p in r <==> p in ps && SP.Running(p, today)
  {
    if ps == [] then []
    else (if SP.Running(ps[0], today) then [ps[0]] else []) + ActivePromotions(ps[1..], today)
  }

  /** One promotion on one line: the amount is added to the line's discount,
      the label is overwritten. */
  function PromoLine(item: LineItem, p: SP.Promotion): LineItem
  {
    if SP.Applies(p, item.itemCode) then
      item.(discountAmount := item.discountAmount + PercentOf(item.amount, p.discountPercentage),
            promotionApplied := p.promotionName)
    else item
  }

  function PromoAmount(item: LineItem, p: SP.Promotion): real
  {
    if SP.Applies(p, item.itemCode) then PercentOf(item.amount, p.discountPercentage) else 0.0
  }

  function ApplyPromotion(items: seq<LineItem>, p: SP.Promotion): seq<LineItem>
  {
    seq(|items|, k requires 0 <= k < |items| => PromoLine(items[k], p))
  }

  function PromotionAdded(items: seq<LineItem>, p: SP.Promotion): real
  {
    if items == [] then 0.0
    else PromotionAdded(items[..|items| - 1], p) + PromoAmount(items[|items| - 1], p)
  }

  /** The promotions applied one after another, in order. */
  function PromoFold(items: seq<LineItem>, ps: seq<SP.Promotion>): seq<LineItem>
  {
    if ps == [] then items
    else ApplyPromotion(PromoFold(items, ps[..|ps| - 1]), ps[|ps| - 1])
  }

  function PromoFoldAdded(items: seq<LineItem>, ps: seq<SP.Promotion>): real
  {
    if ps == [] then 0.0
    else PromoFoldAdded(items, ps[..|ps| - 1]) + PromotionAdded(PromoFold(items, ps[..|ps| - 1]), ps[|ps| - 1])
  }

  /** Stage 3 on a value copy of the document. */
  function PromotionStage(v: DocState, L: Lookups): Step
  {
    var ps := ActivePromotions(L.promotions, L.today);
    Step(v.(items := PromoFold(v.items, ps)), PromoFoldAdded(v.items, ps))
  }

  /** Stage 3 changes only the lines' discount amounts and labels: every
      running promotion that applies to a line stacks on its discount, the
      last one names it, and the running total grows by exactly what the
      lines' discounts grow. */
  lemma PromotionStageSpec(v: DocState, L: Lookups)
    ensures var r := PromotionStage(v, L);
      r.doc == v.(items := r.doc.items) && SameLines(r.doc.items, v.items) &&
      (forall k :: 0 <= k < |v.items| ==>
         r.doc.items[k].rate == v.items[k].rate &&
         r.doc.items[k].discountPercentage == v.items[k].discountPercentage &&
         r.doc.items[k].discountAmount
           == v.items[k].discountAmount + PromoStack(v.items[k], ActivePromotions(L.promotions, L.today)) &&
         r.doc.items[k].promotionApplied == LastLabel(v.items[k], ActivePromotions(L.promotions, L.today))) &&
      r.added == SumDiscount(r.doc.items) - SumDiscount(v.items)
  {
    var ps := ActivePromotions(L.promotions, L.today);
    PromoFoldKeepsLines(v.items, ps);
    PromoFoldLines(v.items, ps);
    PromoFoldBreakdown(v.items, ps);
  }

  // ---------------------------------------------------------------------
  // Stage 4: turnover incentive

  /** The incentive is a percentage of the document total; the turnover only
      chooses the tier. */
  function IncentiveStage(v: DocState, L: Lookups): (r: Step)
    ensures r.doc == v.(turnoverIncentive := r.doc.turnoverIncentive)
    ensures v.supplier == "" ==> r == Step(v, 0.0)
    ensures v.supplier != "" ==>
      match TI.SelectTier(L.tiers, YearlyPurchase(L.invoices, v.supplier, L.today))
      case None => r == Step(v, 0.0)
      case Some(t) =>
        (t.incentivePercentage <= 0.0 ==> r == Step(v, 0.0)) &&
        (t.incentivePercentage > 0.0 ==>
           r.added == r.doc.turnoverIncentive &&
           (t.maxIncentiveAmount > 0.0 ==> r.added <= t.maxIncentiveAmount) &&
           (t.maxIncentiveAmount > 0.0 && PercentOf(v.total, t.incentivePercentage) > t.maxIncentiveAmount ==>
              r.added == t.maxIncentiveAmount) &&
           (t.maxIncentiveAmount <= 0.0 || PercentOf(v.total, t.incentivePercentage) <= t.maxIncentiveAmount ==>
              r.added == PercentOf(v.total, t.incentivePercentage)))
  {
    if v.supplier == "" then Step(v, 0.0)
    else
      match TI.SelectTier(L.tiers, YearlyPurchase(L.invoices, v.supplier, L.today))
      case None => Step(v, 0.0)
      case Some(t) =>
        if t.incentivePercentage > 0.0 then
          var amount := TI.CapIncentive(PercentOf(v.total, t.incentivePercentage), t.maxIncentiveAmount);
          Step(v.(turnoverIncentive := amount), amount)
        else Step(v, 0.0)
  }

  // ---------------------------------------------------------------------
  // Stage 5: totals

  function Finalise(v: DocState, running: real): DocState
  {
    if running > 0.0 then
      v.(totalDiscountAmount := running,
         effectiveDiscountPercentage :=
           if v.total > 0.0 then running / v.total * 100.0 else v.effectiveDiscountPercentage,
         grandTotal := v.total - running)
    else v
  }

  /** Two tables have the same lines: same length, and each line keeps its
      item code, quantity and amount. */
  predicate SameLines(a: seq<LineItem>, b: seq<LineItem>)
  {
    |a| == |b| &&
    forall k :: 0 <= k < |a| ==>
      a[k].itemCode == b[k].itemCode && a[k].qty == b[k].qty && a[k].amount == b[k].amount
  }

  /** The whole `apply_all_discounts` pass from running total `start`;
      `None` when it raises. */
  function Engine(v: DocState, L: Lookups, start: real): Option<Run>
  {
    if !v.applyDiscount then Some(Run(v, start))
    else
      var first :=
        if v.discountType == ItemWise then Some(ItemWiseStage(v, L))
        else if v.discountType == InvoiceWise then InvoiceWiseStage(v, L)
        else Some(Step(v, 0.0));
      match first
      case None => None
      case Some(a) => Some(LaterStages(a.doc, L, start + a.added))
  }

  /** What the whole pass promises. */
  lemma EngineSpec(v: DocState, L: Lookups, start: real)
    // It raises exactly when an invoice-wise discount names a supplier that does not exist.
    ensures var r := Engine(v, L, start);
      r.None? <==>
      v.applyDiscount && v.discountType == InvoiceWise && v.supplier != "" && v.supplier !in L.supplierDiscounts
    // With discounts switched off nothing changes.
    ensures var r := Engine(v, L, start);
      !v.applyDiscount ==> r == Some(Run(v, start))
    // The engine never changes what was bought, from whom, or the document total.
    ensures var r := Engine(v, L, start);
      r.Some? ==>
      r.value.doc.supplier == v.supplier && r.value.doc.total == v.total &&
      r.value.doc.applyDiscount == v.applyDiscount && r.value.doc.discountType == v.discountType &&
      SameLines(r.value.doc.items, v.items)
    // The two first stages exclude each other, and neither runs for any other discount type.
    ensures var r := Engine(v, L, start);
      r.Some? && v.discountType != ItemWise ==>
      forall k :: 0 <= k < |v.items| ==>
        r.value.doc.items[k].rate == v.items[k].rate &&
        r.value.doc.items[k].discountPercentage == v.items[k].discountPercentage
    ensures var r := Engine(v, L, start);
      r.Some? && v.discountType != InvoiceWise ==>
      r.value.doc.discountAmount == v.discountAmount &&
      r.value.doc.additionalDiscountPercentage == v.additionalDiscountPercentage
    // Totals are written only by an enabled pass, and only when the running total is positive.
    ensures var r := Engine(v, L, start);
      r.Some? && v.applyDiscount && r.value.runningTotal > 0.0 ==>
      r.value.doc.totalDiscountAmount == r.value.runningTotal &&
      r.value.doc.grandTotal == v.total - r.value.runningTotal
    ensures var r := Engine(v, L, start);
      r.Some? && v.applyDiscount && r.value.runningTotal > 0.0 ==>
      r.value.doc.effectiveDiscountPercentage
        == if v.total > 0.0 then r.value.runningTotal / v.total * 100.0 else v.effectiveDiscountPercentage
    ensures var r := Engine(v, L, start);
      r.Some? && r.value.runningTotal <= 0.0 ==>
      r.value.doc.totalDiscountAmount == v.totalDiscountAmount &&
      r.value.doc.grandTotal == v.grandTotal &&
      r.value.doc.effectiveDiscountPercentage == v.effectiveDiscountPercentage
  {
    if v.applyDiscount {
      if v.discountType == ItemWise {
        var a := ItemWiseStage(v, L);
        ItemWiseStageSpec(v, L);
        LaterStagesSpec(a.doc, L, start + a.added);
      } else if v.discountType == InvoiceWise {
        if InvoiceWiseStage(v, L).Some? {
          var a := InvoiceWiseStage(v, L).value;
          LaterStagesSpec(a.doc, L, start + a.added);
        }
      } else {
        LaterStagesSpec(v, L, start);
      }
    }
  }

  /** Stages 3 to 5 from running total `running`. */
  function LaterStages(v: DocState, L: Lookups, running: real): Run
  {
    var b := PromotionStage(v, L);
    var c := IncentiveStage(b.doc, L);
    Run(Finalise(c.doc, running + b.added + c.added), running + b.added + c.added)
  }

  /** Promotions, incentive and totals keep the header fields the first
      stage writes, every line's code, quantity, amount, rate and
      percentage, and write the totals only for a positive running total. */
  lemma LaterStagesSpec(w: DocState, L: Lookups, running: real)
    ensures var r := LaterStages(w, L, running);
      r.doc.supplier == w.supplier && r.doc.total == w.total &&
      r.doc.applyDiscount == w.applyDiscount && r.doc.discountType == w.discountType &&
      r.doc.discountAmount == w.discountAmount &&
      r.doc.additionalDiscountPercentage == w.additionalDiscountPercentage
    ensures var r := LaterStages(w, L, running);
      SameLines(r.doc.items, w.items) &&
      forall k :: 0 <= k < |w.items| ==>
        r.doc.items[k].rate == w.items[k].rate &&
        r.doc.items[k].discountPercentage == w.items[k].discountPercentage
    ensures var r := LaterStages(w, L, running);
      r.runningTotal > 0.0 ==>
        r.doc.totalDiscountAmount == r.runningTotal && r.doc.grandTotal == w.total - r.runningTotal &&
        r.doc.effectiveDiscountPercentage
          == if w.total > 0.0 then r.runningTotal / w.total * 100.0 else w.effectiveDiscountPercentage
    ensures var r := LaterStages(w, L, running);
      r.runningTotal <= 0.0 ==>
        r.doc.totalDiscountAmount == w.totalDiscountAmount && r.doc.grandTotal == w.grandTotal &&
        r.doc.effectiveDiscountPercentage == w.effectiveDiscountPercentage
  {
    PromotionStageSpec(w, L);
  }

  /** Promotions keep every line's item code, quantity, amount, rate and
      percentage. */
  lemma {:induction false} PromoFoldKeepsLines(items: seq<LineItem>, ps: seq<SP.Promotion>)
    ensures SameLines(PromoFold(items, ps), items)
    ensures forall k :: 0 <= k < |items| ==>
      PromoFold(items, ps)[k].rate == items[k].rate &&
      PromoFold(items, ps)[k].discountPercentage == items[k].discountPercentage
  {
    if ps != [] {
      PromoFoldKeepsLines(items, ps[..|ps| - 1]);
    }
  }

  // ---------------------------------------------------------------------
  // Where the running total comes from

  /** No line, and neither document-level field, carries a discount yet. */
  predicate Undiscounted(v: DocState)
  {
    v.discountAmount == 0.0 && v.turnoverIncentive == 0.0 &&
    forall k :: 0 <= k < |v.items| ==> v.items[k].discountAmount == 0.0
  }

  lemma {:induction false} SumDiscountOfUndiscounted(items: seq<LineItem>)
    requires forall k :: 0 <= k < |items| ==> items[k].discountAmount == 0.0
    ensures SumDiscount(items) == 0.0
  {
    if items != [] {
      SumDiscountOfUndiscounted(items[..|items| - 1]);
    }
  }

  /** On undiscounted lines the item-wise stage adds exactly the line
      discounts it writes. */
  lemma {:induction false} ItemWiseBreakdown(items: seq<LineItem>, L: Lookups, supplier: string)
    requires forall k :: 0 <= k < |items| ==> items[k].discountAmount == 0.0
    ensures SumDiscount(ItemWiseLines(items, L, supplier)) == ItemWiseAdded(items, L, supplier)
  {
    if items != [] {
      var n := |items|;
      assert ItemWiseLines(items, L, supplier)[..n - 1] == ItemWiseLines(items[..n - 1], L, supplier);
      ItemWiseBreakdown(items[..n - 1], L, supplier);
    }
  }

  /** A promotion adds exactly what it puts on the lines. */
  lemma {:induction false} PromotionBreakdown(items: seq<LineItem>, p: SP.Promotion)
    ensures SumDiscount(ApplyPromotion(items, p)) == SumDiscount(items) + PromotionAdded(items, p)
  {
    if items != [] {
      var n := |items|;
      assert ApplyPromotion(items, p)[..n - 1] == ApplyPromotion(items[..n - 1], p);
      PromotionBreakdown(items[..n - 1], p);
    }
  }

  lemma {:induction false} PromoFoldBreakdown(items: seq<LineItem>, ps: seq<SP.Promotion>)
    ensures SumDiscount(PromoFold(items, ps)) == SumDiscount(items) + PromoFoldAdded(items, ps)
  {
    if ps != [] {
      PromoFoldBreakdown(items, ps[..|ps| - 1]);
      PromotionBreakdown(PromoFold(items, ps[..|ps| - 1]), ps[|ps| - 1]);
    }
  }

  /** On a document without earlier discounts the calculator's running total
      is the sum of the line discounts, the invoice discount and the
      incentive it leaves on the document. */
  lemma EngineBreakdown(v: DocState, L: Lookups, start: real)
    requires Undiscounted(v) && v.applyDiscount
    requires Engine(v, L, start).Some?
    ensures Engine(v, L, start).value.runningTotal
         == start + SumDiscount(Engine(v, L, start).value.doc.items)
            + Engine(v, L, start).value.doc.discountAmount
            + Engine(v, L, start).value.doc.turnoverIncentive
  {
    var a :=
      if v.discountType == ItemWise then ItemWiseStage(v, L)
      else if v.discountType == InvoiceWise then InvoiceWiseStage(v, L).value
      else Step(v, 0.0);
    if v.discountType == ItemWise {
      ItemWiseBreakdown(v.items, L, v.supplier);
    } else {
      SumDiscountOfUndiscounted(v.items);
    }
    assert a.added == SumDiscount(a.doc.items) + a.doc.discountAmount;
    assert Engine(v, L, start) == Some(LaterStages(a.doc, L, start + a.added));
    LaterStagesSpec(a.doc, L, start + a.added);
    LaterStagesBreakdown(a.doc, L, start + a.added);
  }

  /** From a document without an incentive, the later stages add exactly
      what they put on the lines and the incentive they leave. */
  lemma LaterStagesBreakdown(w: DocState, L: Lookups, running: real)
    requires w.turnoverIncentive == 0.0
    ensures var r := LaterStages(w, L, running);
      r.runningTotal == running + SumDiscount(r.doc.items) - SumDiscount(w.items) + r.doc.turnoverIncentive
  {
    PromoFoldBreakdown(w.items, ActivePromotions(L.promotions, L.today));
  }

  // ---------------------------------------------------------------------
  // How promotions stack on a line

  /** The discount promotions `ps` put on one line, in order. */
  function PromoStack(item: LineItem, ps: seq<SP.Promotion>): real
  {
    if ps == [] then 0.0 else PromoStack(item, ps[..|ps| - 1]) + PromoAmount(item, ps[|ps| - 1])
  }

  /** The label a line ends with: the last applicable promotion's name. */
  function LastLabel(item: LineItem, ps: seq<SP.Promotion>): string
  {
    if ps == [] then item.promotionApplied
    else if SP.Applies(ps[|ps| - 1], item.itemCode) then ps[|ps| - 1].promotionName
    else LastLabel(item, ps[..|ps| - 1])
  }

  /** Every running promotion that applies to a line adds its own
      percentage of the line amount to the line's discount (they stack),
      and the line is labelled with the last one. */
  lemma {:induction false} PromoFoldLine(items: seq<LineItem>, ps: seq<SP.Promotion>, k: nat)
    requires k < |items|
    ensures k < |PromoFold(items, ps)|
    ensures PromoFold(items, ps)[k].discountAmount == items[k].discountAmount + PromoStack(items[k], ps)
    ensures PromoFold(items, ps)[k].promotionApplied == LastLabel(items[k], ps)
  {
    PromoFoldKeepsLines(items, ps);
    if ps != [] {
      PromoFoldLine(items, ps[..|ps| - 1], k);
      PromoFoldKeepsLines(items, ps[..|ps| - 1]);
    }
  }

  lemma PromoFoldLines(items: seq<LineItem>, ps: seq<SP.Promotion>)
    ensures |PromoFold(items, ps)| == |items|
    ensures forall k :: 0 <= k < |items| ==>
      PromoFold(items, ps)[k].discountAmount == items[k].discountAmount + PromoStack(items[k], ps) &&
      PromoFold(items, ps)[k].promotionApplied == LastLabel(items[k], ps)
  {
    PromoFoldKeepsLines(items, ps);
    forall k | 0 <= k < |items|
      ensures PromoFold(items, ps)[k].discountAmount == items[k].discountAmount + PromoStack(items[k], ps)
      ensures PromoFold(items, ps)[k].promotionApplied == LastLabel(items[k], ps)
    {
      PromoFoldLine(items, ps, k);
    }
  }

  /** What a promotion adds depends only on the lines' codes and amounts. */
  lemma {:induction false} PromotionAddedOfSameLines(a: seq<LineItem>, b: seq<LineItem>, p: SP.Promotion)
    requires SameLines(a, b)
    ensures PromotionAdded(a, p) == PromotionAdded(b, p)
  {
    if a != [] {
      var n := |a|;
      assert SameLines(a[..n - 1], b[..n - 1]);
      PromotionAddedOfSameLines(a[..n - 1], b[..n - 1], p);
    }
  }

  lemma {:induction false} PromoFoldAddedOfSameLines(a: seq<LineItem>, b: seq<LineItem>, ps: seq<SP.Promotion>)
    requires SameLines(a, b)
    ensures PromoFoldAdded(a, ps) == PromoFoldAdded(b, ps)
  {
    if ps != [] {
      var q := ps[..|ps| - 1];
      PromoFoldAddedOfSameLines(a, b, q);
      PromoFoldKeepsLines(a, q);
      PromoFoldKeepsLines(b, q);
      PromotionAddedOfSameLines(PromoFold(a, q), PromoFold(b, q), ps[|ps| - 1]);
    }
  }

  /** The promotion stage is not idempotent: running it again on its own
      result (the hook runs on every save) adds the same promotions again. */
  lemma PromotionRerunAddsAgain(v: DocState, L: Lookups)
    ensures PromotionStage(PromotionStage(v, L).doc, L).added == PromotionStage(v, L).added
  {
    var ps := ActivePromotions(L.promotions, L.today);
    PromoFoldKeepsLines(v.items, ps);
    PromoFoldAddedOfSameLines(PromoFold(v.items, ps), v.items, ps);
  }

  /** Running the item-wise stage again leaves each line's discount amount
      as it was but lowers the rate a second time. */
  lemma ItemWiseRerunCompounds(v: DocState, L: Lookups, k: nat)
    requires k < |v.items|
    requires LineRate(L, v.supplier, v.items[k]) > 0.0
    ensures k < |ItemWiseStage(ItemWiseStage(v, L).doc, L).doc.items|
    ensures ItemWiseStage(ItemWiseStage(v, L).doc, L).doc.items[k].discountAmount
         == ItemWiseStage(v, L).doc.items[k].discountAmount
    ensures ItemWiseStage(ItemWiseStage(v, L).doc, L).doc.items[k].rate
         == v.items[k].rate * (1.0 - LineRate(L, v.supplier, v.items[k]) / 100.0)
                            * (1.0 - LineRate(L, v.supplier, v.items[k]) / 100.0)
  {
    var r := LineRate(L, v.supplier, v.items[k]);
    var once := ItemWiseLine(v.items[k], r);
    assert ItemWiseStage(v, L).doc.items[k] == once;
    assert LineRate(L, v.supplier, once) == r;
    var x := v.items[k].rate;
    assert once.rate == x * (1.0 - r / 100.0);
    assert ItemWiseLine(once, r).rate == x * (1.0 - r / 100.0) - x * (1.0 - r / 100.0) * r / 100.0;
  }

  // ---------------------------------------------------------------------
  // A worked pass

  /** A 1000 invoice with a 10% agreement on its one item, a 5% promotion on
      all items and a supplier whose 600000 turnover reaches the 500000 tier
      (5%, capped at 20000). The line ends with 100 + 50 of discount, the
      incentive is 5% of the document total (50), not of the turnover
      (which would be the 20000 cap), and the grand total is 800. */
  lemma WorkedPass()
    ensures
      var v := DocState(true, ItemWise, "S1", 1000.0,
                        [LineItem("I1", 10.0, 100.0, 1000.0, 0.0, 0.0, "")],
                        0.0, 0.0, 0.0, 0.0, 0.0, 1000.0);
      var L := Lookups([DA.Agreement("A1", "S1", "I1", 10.0, true, Some(0), None)],
                       map["S1" := 0.0],
                       [SP.Promotion("P1", "Diwali", 5.0, 0, 10, true, [])],
                       [TI.Tier("T1", 500000.0, 5.0, 20000.0, true, None, None)],
                       [PostedInvoice("S1", 5, 1, 600000.0)],
                       5);
      var r := Engine(v, L, 0.0);
      r.Some? && |r.value.doc.items| == 1 &&
      r.value.doc.items[0].discountAmount == 150.0 &&
      r.value.doc.items[0].rate == 90.0 &&
      r.value.doc.items[0].promotionApplied == "Diwali" &&
      r.value.doc.turnoverIncentive == 50.0 &&
      r.value.runningTotal == 200.0 &&
      r.value.doc.totalDiscountAmount == 200.0 &&
      r.value.doc.grandTotal == 800.0 &&
      r.value.doc.effectiveDiscountPercentage == 20.0 &&
      TI.CapIncentive(PercentOf(YearlyPurchase(L.invoices, "S1", 5), 5.0), 20000.0) == 20000.0
  {
    var v := DocState(true, ItemWise, "S1", 1000.0,
                      [LineItem("I1", 10.0, 100.0, 1000.0, 0.0, 0.0, "")],
                      0.0, 0.0, 0.0, 0.0, 0.0, 1000.0);
    var L := Lookups([DA.Agreement("A1", "S1", "I1", 10.0, true, Some(0), None)],
                     map["S1" := 0.0],
                     [SP.Promotion("P1", "Diwali", 5.0, 0, 10, true, [])],
                     [TI.Tier("T1", 500000.0, 5.0, 20000.0, true, None, None)],
                     [PostedInvoice("S1", 5, 1, 600000.0)],
                     5);
    assert SupplierDiscount(L.agreements, "S1", "I1") == 10.0;
    var a := ItemWiseStage(v, L);
    assert a.doc.items == [LineItem("I1", 10.0, 90.0, 1000.0, 10.0, 100.0, "")];
    assert a.added == 100.0;
    var ps := ActivePromotions(L.promotions, 5);
    assert ps == L.promotions;
    assert ps[..0] == [];
    var b := PromotionStage(a.doc, L);
    assert b.doc.items == [LineItem("I1", 10.0, 90.0, 1000.0, 10.0, 150.0, "Diwali")];
    assert b.added == 50.0;
    assert YearlyPurchase(L.invoices, "S1", 5) == 600000.0;
    assert TI.SelectTier(L.tiers, 600000.0) == Some(L.tiers[0]);
  }

  function CalculationError(cause: string): string
  {
    "Error in discount calculation: " + cause
  }

  // ---------------------------------------------------------------------
  // The calculator

  class DiscountCalculator {
    const doc: PurchaseDocument
    var totalDiscount: real
    var itemWiseDiscounts: map<string, real>

    constructor (doc: PurchaseDocument)
      ensures this.doc == doc && totalDiscount == 0.0 && itemWiseDiscounts == map[]
    {
      this.doc := doc;
      totalDiscount := 0.0;
      itemWiseDiscounts := map[];
    }

    method ApplyAllDiscounts(L: Lookups) returns (outcome: Outcome)
      modifies this`totalDiscount, this`itemWiseDiscounts
      modifies doc`items, doc`discountAmount, doc`additionalDiscountPercentage, doc`turnoverIncentive
      modifies doc`totalDiscountAmount, doc`effectiveDiscountPercentage, doc`grandTotal
      ensures Engine(old(doc.State()), L, old(totalDiscount)).None? ==>
        outcome == Fail(CalculationError(SupplierNotFound(doc.supplier))) &&
        doc.State() == old(doc.State()) && totalDiscount == old(totalDiscount)
      ensures Engine(old(doc.State()), L, old(totalDiscount)).Some? ==>
        outcome == Pass &&
        doc.State() == Engine(old(doc.State()), L, old(totalDiscount)).value.doc &&
        totalDiscount == Engine(old(doc.State()), L, old(totalDiscount)).value.runningTotal
      ensures itemWiseDiscounts ==
        if old(doc.applyDiscount) && old(doc.discountType) == ItemWise
        then ItemWiseMap(old(itemWiseDiscounts), old(doc.items), L, doc.supplier)
        else old(itemWiseDiscounts)
    {
      outcome := Pass;
      if !doc.applyDiscount {
        return;
      }
      ghost var v := doc.State();
      ghost var start := totalDiscount;
      ghost var a: Step;
      if doc.discountType == ItemWise {
        ApplyItemWiseDiscounts(L);
        a := ItemWiseStage(v, L);
      } else if doc.discountType == InvoiceWise {
        var stage := ApplyInvoiceWiseDiscount(L);
        if stage.Fail? {
          outcome := Fail(CalculationError(stage.message));
          return;
        }
        a := InvoiceWiseStage(v, L).value;
      } else {
        a := Step(v, 0.0);
      }
      assert doc.State() == a.doc && totalDiscount == start + a.added;
      assert Engine(v, L, start) == Some(LaterStages(a.doc, L, start + a.added));
      ApplyLaterStages(L);
    }

    /** The part of `apply_all_discounts` after the first stage: promotions,
        the turnover incentive and the document totals, in that order. */
    method ApplyLaterStages(L: Lookups)
      modifies this`totalDiscount, doc`items, doc`turnoverIncentive
      modifies doc`totalDiscountAmount, doc`effectiveDiscountPercentage, doc`grandTotal
      ensures doc.State() == LaterStages(old(doc.State()), L, old(totalDiscount)).doc
      ensures totalDiscount == LaterStages(old(doc.State()), L, old(totalDiscount)).runningTotal
    {
      ApplySeasonalPromotions(L);
      ApplyTurnoverIncentives(L);
      UpdateDocumentTotals();
    }

    method ApplyItemWiseDiscounts(L: Lookups)
      modifies this`totalDiscount, this`itemWiseDiscounts, doc`items
      ensures doc.State() == old(doc.State()).(items := ItemWiseLines(old(doc.items), L, doc.supplier))
      ensures totalDiscount == old(totalDiscount) + ItemWiseAdded(old(doc.items), L, doc.supplier)
      ensures itemWiseDiscounts == ItemWiseMap(old(itemWiseDiscounts), old(doc.items), L, doc.supplier)
    {
      ghost var orig := doc.items;
      ghost var supplier := doc.supplier;
      ghost var target := ItemWiseLines(orig, L, supplier);
      var i := 0;
      while i < |doc.items|
        invariant 0 <= i <= |orig| && |doc.items| == |orig|
        invariant forall k :: 0 <= k < i ==> doc.items[k] == target[k]
        invariant forall k :: i <= k < |orig| ==> doc.items[k] == orig[k]
        invariant totalDiscount == old(totalDiscount) + ItemWiseAdded(orig[..i], L, supplier)
        invariant itemWiseDiscounts == ItemWiseMap(old(itemWiseDiscounts), orig[..i], L, supplier)
      {
        var item := doc.items[i];
        var discountRate := 0.0;
        var supplierDiscount := SupplierDiscount(L.agreements, doc.supplier, item.itemCode);
        if supplierDiscount != 0.0 {
          discountRate := discountRate + supplierDiscount;
        }
        assert item == orig[i] && discountRate == LineRate(L, supplier, item);
        ItemWiseStep(old(itemWiseDiscounts), orig, i, L, supplier);
        if discountRate > 0.0 {
          var discountAmount := PercentOf(item.amount, discountRate);
          doc.items := doc.items[i := item.(discountPercentage := discountRate,
                                            discountAmount := discountAmount,
                                            rate := item.rate - PercentOf(item.rate, discountRate))];
          itemWiseDiscounts := itemWiseDiscounts[item.itemCode := discountAmount];
          totalDiscount := totalDiscount + discountAmount;
          assert doc.items[i] == target[i];
        } else {
          assert orig[i] == target[i];
        }
        i := i + 1;
      }
      assert orig[..|orig|] == orig;
      assert doc.items == target;
    }

    method ApplyInvoiceWiseDiscount(L: Lookups) returns (outcome: Outcome)
      modifies this`totalDiscount, doc`discountAmount, doc`additionalDiscountPercentage
      ensures InvoiceWiseStage(old(doc.State()), L).None? ==>
        outcome == Fail(SupplierNotFound(doc.supplier)) &&
        doc.State() == old(doc.State()) && totalDiscount == old(totalDiscount)
      ensures InvoiceWiseStage(old(doc.State()), L).Some? ==>
        outcome == Pass &&
        doc.State() == InvoiceWiseStage(old(doc.State()), L).value.doc &&
        totalDiscount == old(totalDiscount) + InvoiceWiseStage(old(doc.State()), L).value.added
    {
      outcome := Pass;
      if doc.supplier == "" {
        return;
      }
      if doc.supplier !in L.supplierDiscounts {
        outcome := Fail(SupplierNotFound(doc.supplier));
        return;
      }
      var defaultDiscount := L.supplierDiscounts[doc.supplier];
      if defaultDiscount > 0.0 {
        var totalAmount := doc.total;
        var discountAmount := PercentOf(totalAmount, defaultDiscount);
        doc.discountAmount := discountAmount;
        doc.additionalDiscountPercentage := defaultDiscount;
        totalDiscount := totalDiscount + discountAmount;
      }
    }

    method ApplySeasonalPromotions(L: Lookups)
      modifies this`totalDiscount, doc`items
      ensures doc.State() == PromotionStage(old(doc.State()), L).doc
      ensures totalDiscount == old(totalDiscount) + PromotionStage(old(doc.State()), L).added
    {
      var promotions := ActivePromotions(L.promotions, L.today);
      ghost var orig := doc.items;
      var i := 0;
      while i < |promotions|
        invariant 0 <= i <= |promotions|
        invariant doc.items == PromoFold(orig, promotions[..i])
        invariant totalDiscount == old(totalDiscount) + PromoFoldAdded(orig, promotions[..i])
      {
        ApplyPromotionToItems(promotions[i]);
        assert promotions[..i + 1][..i] == promotions[..i];
        i := i + 1;
      }
      assert promotions[..|promotions|] == promotions;
    }

    /** The inner `for item in items` loop for one promotion. */
    method ApplyPromotionToItems(promotion: SP.Promotion)
      modifies this`totalDiscount, doc`items
      ensures doc.items == ApplyPromotion(old(doc.items), promotion)
      ensures totalDiscount == old(totalDiscount) + PromotionAdded(old(doc.items), promotion)
    {
      ghost var orig := doc.items;
      ghost var target := ApplyPromotion(orig, promotion);
      var j := 0;
      while j < |doc.items|
        invariant 0 <= j <= |orig| && |doc.items| == |orig|
        invariant forall k :: 0 <= k < j ==> doc.items[k] == target[k]
        invariant forall k :: j <= k < |orig| ==> doc.items[k] == orig[k]
        invariant totalDiscount == old(totalDiscount) + PromotionAdded(orig[..j], promotion)
      {
        var item := doc.items[j];
        assert item == orig[j] && target[j] == PromoLine(item, promotion);
        assert orig[..j + 1][..j] == orig[..j];
        if |promotion.applicableItems| == 0 || item.itemCode in promotion.applicableItems {
          var promoDiscount := PercentOf(item.amount, promotion.discountPercentage);
          var currentDiscount := item.discountAmount;
          doc.items := doc.items[j := item.(discountAmount := currentDiscount + promoDiscount,
                                            promotionApplied := promotion.promotionName)];
          totalDiscount := totalDiscount + promoDiscount;
        }
        j := j + 1;
      }
      assert orig[..|orig|] == orig;
      assert doc.items == target;
    }

    method ApplyTurnoverIncentives(L: Lookups)
      modifies this`totalDiscount, doc`turnoverIncentive
      ensures doc.State() == IncentiveStage(old(doc.State()), L).doc
      ensures totalDiscount == old(totalDiscount) + IncentiveStage(old(doc.State()), L).added
    {
      if doc.supplier == "" {
        return;
      }
      var yearlyPurchase := YearlyPurchase(L.invoices, doc.supplier, L.today);
      var incentives := TI.SelectTier(L.tiers, yearlyPurchase);
      if incentives.Some? {
        var incentive := incentives.value;
        var incentiveRate := incentive.incentivePercentage;
        var maxIncentive := incentive.maxIncentiveAmount;
        if incentiveRate > 0.0 {
          var incentiveAmount := PercentOf(doc.total, incentiveRate);
          if maxIncentive > 0.0 && incentiveAmount > maxIncentive {
            incentiveAmount := maxIncentive;
          }
          doc.turnoverIncentive := incentiveAmount;
          totalDiscount := totalDiscount + incentiveAmount;
        }
      }
    }

    method UpdateDocumentTotals()
      modifies doc`totalDiscountAmount, doc`effectiveDiscountPercentage, doc`grandTotal
      ensures doc.State() == Finalise(old(doc.State()), totalDiscount)
    {
      if totalDiscount > 0.0 {
        doc.totalDiscountAmount := totalDiscount;
        if doc.total > 0.0 {
          var effectiveDiscountPct := (totalDiscount / doc.total) * 100.0;
          doc.effectiveDiscountPercentage := effectiveDiscountPct;
        }
        doc.grandTotal := doc.total - totalDiscount;
      }
    }
  }

  // ---------------------------------------------------------------------
  // Document hooks

  /** `apply_discounts`: only Purchase Invoices and Purchase Estimates go
      through a fresh calculator; any other document is left alone. */
  method ApplyDiscounts(doc: PurchaseDocument, L: Lookups) returns (outcome: Outcome)
    modifies doc`items, doc`discountAmount, doc`additionalDiscountPercentage, doc`turnoverIncentive
    modifies doc`totalDiscountAmount, doc`effectiveDiscountPercentage, doc`grandTotal
    ensures old(doc.doctype) !in {"Purchase Invoice", "Purchase Estimate"} ==>
      outcome == Pass && doc.State() == old(doc.State())
    ensures old(doc.doctype) in {"Purchase Invoice", "Purchase Estimate"} && Engine(old(doc.State()), L, 0.0).Some? ==>
      outcome == Pass && doc.State() == Engine(old(doc.State()), L, 0.0).value.doc
    ensures old(doc.doctype) in {"Purchase Invoice", "Purchase Estimate"} && Engine(old(doc.State()), L, 0.0).None? ==>
      outcome.Fail? && doc.State() == old(doc.State())
  {
    if doc.doctype == "Purchase Invoice" || doc.doctype == "Purchase Estimate" {
      var calculator := new DiscountCalculator(doc);
      outcome := calculator.ApplyAllDiscounts(L);
    } else {
      outcome := Pass;
    }
  }

  const ApprovalThreshold := 100000.0
  const ApprovalMessage := "Purchase Estimate above \U{20B9}1,00,000 requires manager approval"

  /** `validate_purchase_estimate`: a large estimate needs the approve
      permission; every other document passes untouched. */
  function ValidatePurchaseEstimate(doctype: string, total: real, canApprove: bool): (r: Outcome)
    ensures r.Fail? <==> doctype == "Purchase Estimate" && total > ApprovalThreshold && !canApprove
    ensures r.Fail? ==> r.message == ApprovalMessage
  {
    if doctype == "Purchase Estimate" && total > ApprovalThreshold && !canApprove
    then Fail(ApprovalMessage)
    else Pass
  }

  // ---------------------------------------------------------------------
  // Estimate to invoice

  /** The new Purchase Invoice before it is saved. */
  datatype InvoiceDraft = InvoiceDraft(
    supplier: string,
    postingDate: int,
    purchaseEstimateRef: string,
    items: seq<LineItem>,
    applyDiscount: bool,
    discountType: string,
    totalDiscountAmount: real)

  /** The fields copied into a new invoice line; the promotion label is not
      among them. */
  function InvoiceLine(item: LineItem): LineItem
  {
    LineItem(item.itemCode, item.qty, item.rate, item.amount, item.discountPercentage, item.discountAmount, "")
  }

  /** The copied table: the same lines with the same rates and discounts,
      hence the same quantity, amount and discount totals; no line keeps a
      promotion label. */
  function InvoiceLines(items: seq<LineItem>): (r: seq<LineItem>)
    ensures SameLines(r, items)
    ensures forall k :: 0 <= k < |r| ==>
      r[k].rate == items[k].rate && r[k].discountPercentage == items[k].discountPercentage &&
      r[k].discountAmount == items[k].discountAmount && r[k].promotionApplied == ""
    ensures SumQty(r) == SumQty(items) && SumAmount(r) == SumAmount(items)
    ensures SumDiscount(r) == SumDiscount(items)
  {
    if items == [] then [] else InvoiceLines(items[..|items| - 1]) + [InvoiceLine(items[|items| - 1])]
  }

  function DraftFromEstimate(estimate: PurchaseDocument, estimateName: string, today: int): InvoiceDraft
    reads estimate
  {
    InvoiceDraft(estimate.supplier, today, estimateName, InvoiceLines(estimate.items),
                 estimate.applyDiscount, estimate.discountType, estimate.totalDiscountAmount)
  }

  /** `convert_estimate_to_invoice` up to the invoice's save: builds the
      draft and marks the estimate converted. `invoiceName` is the name the
      framework gives the saved invoice. */
  method ConvertEstimateToInvoice(estimate: PurchaseDocument, estimateName: string, invoiceName: string, today: int)
    returns (invoice: InvoiceDraft)
    modifies estimate`status, estimate`convertedInvoice
    ensures invoice == old(DraftFromEstimate(estimate, estimateName, today))
    ensures estimate.status == "Converted" && estimate.convertedInvoice == invoiceName
  {
    var items: seq<LineItem> := [];
    var i := 0;
    while i < |estimate.items|
      invariant 0 <= i <= |estimate.items|
      invariant items == InvoiceLines(estimate.items[..i])
    {
      items := items + [InvoiceLine(estimate.items[i])];
      assert estimate.items[..i + 1][..i] == estimate.items[..i];
      i := i + 1;
    }
    assert estimate.items[..|estimate.items|] == estimate.items;
    invoice := InvoiceDraft(estimate.supplier, today, estimateName, items,
                            estimate.applyDiscount, estimate.discountType, estimate.totalDiscountAmount);
    estimate.status := "Converted";
    estimate.convertedInvoice := invoiceName;
  }
}
