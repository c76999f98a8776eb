/**
 * Shipping cost: free standard shipping from a post-discount subtotal of
 * 100.00, otherwise a base fee plus a rate per started kilogram above 2 kg.
 */
module Shipping {
  import opened Money
  import opened Catalog

  const FreeShippingThreshold: int := 10000  // 100.00
  const IncludedWeight: int := 2000         // 2.00 kg, in grams

  function BaseFee(m: ShippingMethod): int {
    match m
    case Standard => 500
    case Express => 1000
  }

  function PerKgRate(m: ShippingMethod): int {
    match m
    case Standard => 200
    case Express => 500
  }

  /** The number of started kilograms in a positive excess weight: its ceiling in kg. */
  function StartedKg(overGrams: int): (k: int)
    requires overGrams > 0
    ensures k >= 1
    ensures (k - 1) * 1000 < overGrams <= k * 1000
  {
    var whole := overGrams / 1000;
    if overGrams == whole * 1000 then whole else whole + 1
  }

  predicate FreeShipping(m: ShippingMethod, subtotalAfterDiscounts: int) {
    m == Standard && subtotalAfterDiscounts >= FreeShippingThreshold
  }

  function ShippingCost(m: ShippingMethod, subtotalAfterDiscounts: int, weightGrams: int): int {
    if FreeShipping(m, subtotalAfterDiscounts) then 0
    else
      var cost :=
        if weightGrams <= IncludedWeight then BaseFee(m)
        else BaseFee(m) + PerKgRate(m) * StartedKg(weightGrams - IncludedWeight);
      Q2(Cents(cost))
  }
}

/** The shipping rules as the caller sees them. */
module ShippingFacts {
  import opened Money
  import opened MoneyFacts
  import opened Catalog
  import opened Shipping

  /**
   * Shipping is free exactly for standard orders of at least 100.00; else it
   * is the base fee up to 2 kg and the base fee plus the per-kg rate for
   * each started kilogram above that.
   */
  lemma ShippingCostRules(m: ShippingMethod, subtotal: int, weightGrams: int)
    ensures ShippingCost(m, subtotal, weightGrams) == 0 <==> (m == Standard && subtotal >= 10000)
    ensures !FreeShipping(m, subtotal) && weightGrams <= 2000 ==>
              ShippingCost(m, subtotal, weightGrams) == BaseFee(m)
    ensures !FreeShipping(m, subtotal) && weightGrams > 2000 ==>
              ShippingCost(m, subtotal, weightGrams) == BaseFee(m) + PerKgRate(m) * StartedKg(weightGrams - 2000)
    ensures ShippingCost(m, subtotal, weightGrams) >= 0
  {
    if !FreeShipping(m, subtotal) {
      var cost :=
        if weightGrams <= IncludedWeight then BaseFee(m)
        else BaseFee(m) + PerKgRate(m) * StartedKg(weightGrams - IncludedWeight);
      Q2OfWholeCents(cost, 0);
    }
  }

  /** Non-free shipping never gets cheaper as the parcel gets heavier. */
  lemma ShippingMonotoneInWeight(m: ShippingMethod, subtotal: int, w1: int, w2: int)
    requires w1 <= w2
    ensures ShippingCost(m, subtotal, w1) <= ShippingCost(m, subtotal, w2)
  {
    ShippingCostRules(m, subtotal, w1);
    ShippingCostRules(m, subtotal, w2);
    if !FreeShipping(m, subtotal) && w1 > 2000 {
      var k1 := StartedKg(w1 - 2000);
      var k2 := StartedKg(w2 - 2000);
      assert k1 <= k2;
      assert PerKgRate(m) * k1 <= PerKgRate(m) * k2;
    }
  }
}
