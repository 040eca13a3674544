/** The Seasonal Promotion doctype: a dated percentage discount on all items
    or on listed ones, its validation and its cache invalidation. */
module SeasonalPromotions {
  import opened Basics

  /** `applicableItems` empty means the promotion applies to every item. */
  datatype Promotion = Promotion(
    name: string,
    promotionName: string,
    discountPercentage: real,
    startDate: int,
    endDate: int,
    isActive: bool,
    applicableItems: seq<string>)

  const DatesMessage := "End date cannot be earlier than start date"
  const PromotionCacheKey := "active_promotions"

  /** A promotion may start and end on the same day. */
  function ValidateDates(p: Promotion): (r: Outcome)
    ensures r.Pass? <==> p.startDate <= p.endDate
    ensures r.Fail? ==> r.message == DatesMessage
  {
    if p.startDate > p.endDate then Fail(DatesMessage) else Pass
  }

  /** `validate` performs the date check and nothing else. */
  function Validate(p: Promotion): (r: Outcome)
    ensures r == ValidateDates(p)
  {
    ValidateDates(p)
  }

  method OnUpdate(cache: Cache)
    modifies cache
    ensures cache.entries == old(cache.entries) - {PromotionCacheKey}
  {
    cache.DeleteValue(PromotionCacheKey);
  }

  method OnTrash(cache: Cache)
    modifies cache
    ensures cache.entries == old(cache.entries) - {PromotionCacheKey}
  {
    cache.DeleteValue(PromotionCacheKey);
  }

  /** The promotion covers the item code. */
  predicate Applies(p: Promotion, itemCode: string)
  {
    |p.applicableItems| == 0 || itemCode in p.applicableItems
  }

  /** The filter of the active-promotion query. */
  predicate Running(p: Promotion, today: int)
  {
    p.isActive && p.startDate <= today <= p.endDate
  }
}
