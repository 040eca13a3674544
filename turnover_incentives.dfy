/** The Turnover Incentive doctype (one rung of the incentive ladder), its
    validation, and the tier and cap rules shared by the discount engine and
    the weekly scheduler. */
module TurnoverIncentives {
  import opened Basics

  datatype Tier = Tier(
    name: string,
    minTurnover: real,
    incentivePercentage: real,
    maxIncentiveAmount: real,
    isActive: bool,
    validFrom: Option<int>,
    validTo: Option<int>)

  const DatesMessage := "Valid To date cannot be earlier than Valid From date"
  const MinTurnoverMessage := "Minimum turnover must be greater than zero"
  const PercentageMessage := "Incentive percentage must be between 0.01 and 100"
  const IncentiveCacheKey := "active_incentive_schemes"

  /** The dates are compared only when both are set. */
  function ValidateDates(t: Tier): (r: Outcome)
    ensures r.Pass? <==> !(t.validFrom.Some? && t.validTo.Some? && t.validFrom.value > t.validTo.value)
    ensures r.Fail? ==> r.message == DatesMessage
  {
    if t.validFrom.Some? && t.validTo.Some? then
      if t.validFrom.value > t.validTo.value then Fail(DatesMessage) else Pass
    else Pass
  }

  /** A positive threshold, then a percentage in (0, 100]. */
  function ValidateAmounts(t: Tier): (r: Outcome)
    ensures r.Pass? <==> t.minTurnover > 0.0 && 0.0 < t.incentivePercentage <= 100.0
    ensures t.minTurnover <= 0.0 ==> r == Fail(MinTurnoverMessage)
    ensures t.minTurnover > 0.0 && r.Fail? ==> r == Fail(PercentageMessage)
  {
    if t.minTurnover <= 0.0 then Fail(MinTurnoverMessage)
    else if t.incentivePercentage <= 0.0 || t.incentivePercentage > 100.0 then Fail(PercentageMessage)
    else Pass
  }

  /** `validate`: dates before amounts. */
  function Validate(t: Tier): (r: Outcome)
    ensures r.Pass? <==> ValidateDates(t).Pass? && ValidateAmounts(t).Pass?
    ensures ValidateDates(t).Fail? ==> r == Fail(DatesMessage)
    ensures ValidateDates(t).Pass? ==> r == ValidateAmounts(t)
  {
    var dates := ValidateDates(t);
    if dates.Fail? then dates else ValidateAmounts(t)
  }

  method OnUpdate(cache: Cache)
    modifies cache
    ensures cache.entries == old(cache.entries) - {IncentiveCacheKey}
  {
    cache.DeleteValue(IncentiveCacheKey);
  }

  /** The filter of the tier query: active, threshold not above the
      turnover. The tier's validity dates are not part of the query. */
  predicate Eligible(t: Tier, turnover: real)
  {
    t.isActive && t.minTurnover <= turnover
  }

  /** The tier query `is_active = 1, min_turnover <= X, order by
      min_turnover desc, limit 1`: an eligible tier with the largest
      threshold; among equal thresholds the first in store order. */
  function SelectTier(tiers: seq<Tier>, turnover: real): (r: Option<Tier>)
    ensures r.None? <==> forall t :: t in tiers ==> !Eligible(t, turnover)
    ensures r.Some? ==> r.value in tiers && Eligible(r.value, turnover)
    ensures r.Some? ==> forall t :: t in tiers && Eligible(t, turnover) ==> t.minTurnover <= r.value.minTurnover
  {
    if tiers == [] then None
    else
      var rest := SelectTier(tiers[1..], turnover);
      assert forall t :: t in tiers ==> t == tiers[0] || t in tiers[1..];
      if !Eligible(tiers[0], turnover) then rest
      else if rest.Some? && rest.value.minTurnover > tiers[0].minTurnover then rest
      else Some(tiers[0])
  }

  /** A larger turnover never selects a lower rung. */
  lemma SelectTierMonotone(tiers: seq<Tier>, x: real, y: real)
    requires x <= y && SelectTier(tiers, x).Some?
    ensures SelectTier(tiers, y).Some?
    ensures SelectTier(tiers, x).value.minTurnover <= SelectTier(tiers, y).value.minTurnover
  {
    var t := SelectTier(tiers, x).value;
    assert t in tiers && Eligible(t, y);
  }

  /** The engine's cap: the maximum replaces the amount when the maximum is
      positive and exceeded; a maximum of 0 means uncapped. */
  function CapIncentive(amount: real, maxAmount: real): (r: real)
    ensures maxAmount > 0.0 ==> r <= maxAmount && r <= amount && (r == amount || r == maxAmount)
    ensures maxAmount > 0.0 && amount <= maxAmount ==> r == amount
    ensures maxAmount <= 0.0 ==> r == amount
  {
    if maxAmount > 0.0 && amount > maxAmount then maxAmount else amount
  }
}
