/** The Purchase Discount Agreement doctype: a supplier's standing discount
    on one item, its save-time validation and its cache invalidation. */
module DiscountAgreements {
  import opened Basics

  datatype Agreement = Agreement(
    name: string,
    supplier: string,
    itemCode: string,
    discountPercentage: real,
    isActive: bool,
    validFrom: Option<int>,
    validTo: Option<int>)

  const DatesMessage := "Valid To date cannot be earlier than Valid From date"
  const DiscountMessage := "Discount percentage must be between 0.01 and 100"

  function DuplicateMessage(a: Agreement): string
  {
    "Active discount agreement already exists for " + a.supplier + " - " + a.itemCode
  }

  /** `getdate(valid_from)`: an unset date reads as today. */
  function StartDay(a: Agreement, today: int): int
  {
    if a.validFrom.Some? then a.validFrom.value else today
  }

  /** The end date is checked only when it is set; equal dates are fine.
      An unset start counts as today, so an end date in the past fails. */
  function ValidateDates(a: Agreement, today: int): (r: Outcome)
    ensures r.Pass? <==> (a.validTo.None? || StartDay(a, today) <= a.validTo.value)
    ensures a.validFrom.None? && a.validTo.Some? ==> (r.Pass? <==> today <= a.validTo.value)
    ensures r.Fail? ==> r.message == DatesMessage
  {
    if a.validTo.Some? && StartDay(a, today) > a.validTo.value then Fail(DatesMessage) else Pass
  }

  /** A percentage is accepted exactly when it lies in (0, 100]. */
  function ValidateDiscount(a: Agreement): (r: Outcome)
    ensures r.Pass? <==> 0.0 < a.discountPercentage <= 100.0
    ensures r.Fail? ==> r.message == DiscountMessage
  {
    if a.discountPercentage <= 0.0 || a.discountPercentage > 100.0 then Fail(DiscountMessage) else Pass
  }

  /** `other` is a different, active agreement for the same supplier and
      item. The record being saved need not itself be active. */
  predicate ConflictsWith(other: Agreement, a: Agreement)
  {
    other.supplier == a.supplier && other.itemCode == a.itemCode &&
    other.isActive && other.name != a.name
  }

  /** The `frappe.db.exists` query over the stored agreements. */
  function HasConflict(existing: seq<Agreement>, a: Agreement): (b: bool)
    ensures b <==> exists o :: o in existing && ConflictsWith(o, a)
  {
    if existing == [] then false
    else ConflictsWith(existing[0], a) || HasConflict(existing[1..], a)
  }

  function CheckDuplicate(a: Agreement, existing: seq<Agreement>): (r: Outcome)
    ensures r.Pass? <==> forall o :: o in existing ==> !ConflictsWith(o, a)
    ensures r.Fail? ==> r.message == DuplicateMessage(a)
  {
    if HasConflict(existing, a) then Fail(DuplicateMessage(a)) else Pass
  }

  /** `validate`: dates, then discount, then duplicates; the first failing
      check decides the message. */
  function Validate(a: Agreement, existing: seq<Agreement>, today: int): (r: Outcome)
    ensures r.Pass? <==> ValidateDates(a, today).Pass? && ValidateDiscount(a).Pass? && CheckDuplicate(a, existing).Pass?
    ensures ValidateDates(a, today).Fail? ==> r == Fail(DatesMessage)
    ensures ValidateDates(a, today).Pass? && ValidateDiscount(a).Fail? ==> r == Fail(DiscountMessage)
    ensures ValidateDates(a, today).Pass? && ValidateDiscount(a).Pass? && r.Fail? ==> r == Fail(DuplicateMessage(a))
  {
    var dates := ValidateDates(a, today);
    if dates.Fail? then dates
    else
      var discount := ValidateDiscount(a);
      if discount.Fail? then discount
      else CheckDuplicate(a, existing)
  }

  /** Saving an agreement again, when the store holds only this record (by
      name) for its supplier and item, passes the duplicate check. */
  lemma ResavePasses(a: Agreement, existing: seq<Agreement>)
    requires forall o :: o in existing && o.supplier == a.supplier && o.itemCode == a.itemCode ==> o.name == a.name
    ensures CheckDuplicate(a, existing + [a]).Pass?
  {
  }

  /** The cache key cleared by `on_update`. */
  function DiscountCacheKey(supplier: string): (k: string)
    ensures |k| == 19 + |supplier| && k[19..] == supplier
  {
    "supplier_discounts_" + supplier
  }

  /** Distinct suppliers have distinct keys, so saving one supplier's
      agreement never clears another supplier's cached discounts. */
  lemma DiscountCacheKeyInjective(s1: string, s2: string)
    requires s1 != s2
    ensures DiscountCacheKey(s1) != DiscountCacheKey(s2)
  {
  }

  method OnUpdate(a: Agreement, cache: Cache)
    modifies cache
    ensures cache.entries == old(cache.entries) - {DiscountCacheKey(a.supplier)}
  {
    cache.DeleteValue(DiscountCacheKey(a.supplier));
  }
}
