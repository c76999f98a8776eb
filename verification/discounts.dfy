/**
 * Per-line coupon discounts. Three coupons are applied to a line's unit
 * price in a fixed order, each one rounded to the cent before the next.
 */
module Discounts {
  import opened Money
  import opened Catalog

  const BookLover: string := "BOOKLOVER"
  const Save10: string := "SAVE10"
  const Bulk5: string := "BULK5"

  /** The order's total quantity from which BULK5 applies. */
  const BulkThreshold: int := 10

  /**
   * The unit price after coupons: 85% for BOOKLOVER on books, then 90% for
   * SAVE10 on books and stationery, then 95% for BULK5 when the whole
   * order's quantity reaches the threshold; each step rounded half up.
   */
  function UnitPriceFinal(price: int, category: Category, coupons: seq<string>, qtyTotal: int): int {
    var afterCategory :=
      if BookLover in coupons && category == Book then ApplyPercent(price, 85) else price;
    var afterSave10 :=
      if Save10 in coupons && (category == Book || category == Stationery)
      then ApplyPercent(afterCategory, 90) else afterCategory;
    if Bulk5 in coupons && qtyTotal >= BulkThreshold then ApplyPercent(afterSave10, 95) else afterSave10
  }

  /** `_q2(unit_price * qty)`: a line's subtotal in cents. */
  function LineSubtotal(unitPrice: int, qty: int): int {
    Q2(Cents(unitPrice * qty))
  }

  // The same discounts stated as data: an ordered list of rules, each a
  // coupon code, the lines it reaches and the percentage it keeps.

  datatype Scope = BooksOnly | PhysicalGoods | WholeOrderOverThreshold

  datatype CouponRule = CouponRule(code: string, scope: Scope, keepPercent: int)

  const CouponRules: seq<CouponRule> := [
    CouponRule(BookLover, BooksOnly, 85),
    CouponRule(Save10, PhysicalGoods, 90),
    CouponRule(Bulk5, WholeOrderOverThreshold, 95)
  ]

  predicate RuleApplies(rule: CouponRule, coupons: seq<string>, category: Category, qtyTotal: int) {
    && rule.code in coupons
    && match rule.scope
       case BooksOnly => category == Book
       case PhysicalGoods => category != Digital
       case WholeOrderOverThreshold => qtyTotal >= BulkThreshold
  }

  /** Applies the rules left to right, rounding after each rule that applies. */
  function ApplyRules(price: int, rules: seq<CouponRule>, coupons: seq<string>, category: Category, qtyTotal: int): int
    decreases rules
  {
    if rules == [] then price
    else
      var next :=
        if RuleApplies(rules[0], coupons, category, qtyTotal) then ApplyPercent(price, rules[0].keepPercent)
        else price;
      ApplyRules(next, rules[1..], coupons, category, qtyTotal)
  }
}

/** Properties of the coupon stage. */
module DiscountFacts {
  import opened Money
  import opened MoneyFacts
  import opened Catalog
  import opened Discounts

  /** The hand-written coupon chain is the rule list applied in its order. */
  lemma UnitPriceFinalFollowsRules(price: int, category: Category, coupons: seq<string>, qtyTotal: int)
    ensures UnitPriceFinal(price, category, coupons, qtyTotal)
            == ApplyRules(price, CouponRules, coupons, category, qtyTotal)
  {
    var p1 :=
      if RuleApplies(CouponRules[0], coupons, category, qtyTotal) then ApplyPercent(price, 85) else price;
    var p2 :=
      if RuleApplies(CouponRules[1], coupons, category, qtyTotal) then ApplyPercent(p1, 90) else p1;
    var p3 :=
      if RuleApplies(CouponRules[2], coupons, category, qtyTotal) then ApplyPercent(p2, 95) else p2;
    assert CouponRules[1..][1..][1..] == [];
    calc {
      ApplyRules(price, CouponRules, coupons, category, qtyTotal);
      ApplyRules(p1, CouponRules[1..], coupons, category, qtyTotal);
      ApplyRules(p2, CouponRules[1..][1..], coupons, category, qtyTotal);
      ApplyRules(p3, CouponRules[1..][1..][1..], coupons, category, qtyTotal);
      p3;
    }
  }

  /** Each rule keeps a non-negative price between zero and what it was. */
  lemma {:induction false} ApplyRulesBounds(price: int, rules: seq<CouponRule>, coupons: seq<string>, category: Category, qtyTotal: int)
    requires price >= 0
    requires forall k :: 0 <= k < |rules| ==> 0 <= rules[k].keepPercent <= 100
    ensures 0 <= ApplyRules(price, rules, coupons, category, qtyTotal) <= price
  {
    if rules != [] {
      ApplyPercentBounds(price, rules[0].keepPercent);
      var next :=
        if RuleApplies(rules[0], coupons, category, qtyTotal) then ApplyPercent(price, rules[0].keepPercent)
        else price;
      ApplyRulesBounds(next, rules[1..], coupons, category, qtyTotal);
    }
  }

  /** Coupons never raise a unit price, and never make it negative. */
  lemma UnitPriceFinalBounds(price: int, category: Category, coupons: seq<string>, qtyTotal: int)
    requires price >= 0
    ensures 0 <= UnitPriceFinal(price, category, coupons, qtyTotal) <= price
  {
    UnitPriceFinalFollowsRules(price, category, coupons, qtyTotal);
    ApplyRulesBounds(price, CouponRules, coupons, category, qtyTotal);
  }

  /** Without an applicable coupon the unit price is the list price. */
  lemma UnitPriceFinalWithoutCoupons(price: int, category: Category, coupons: seq<string>, qtyTotal: int)
    requires BookLover !in coupons || category != Book
    requires Save10 !in coupons || category == Digital
    requires Bulk5 !in coupons || qtyTotal < BulkThreshold
    ensures UnitPriceFinal(price, category, coupons, qtyTotal) == price
  {
  }

  /** A DIGITAL line is discounted by BULK5 alone. */
  lemma DigitalOnlyBulk(price: int, coupons: seq<string>, qtyTotal: int)
    requires price >= 0
    ensures UnitPriceFinal(price, Digital, coupons, qtyTotal)
            == if Bulk5 in coupons && qtyTotal >= BulkThreshold then (price * 95 + 50) / 100 else price
  {
    ApplyPercentNonNegative(price, 95);
  }

  /** The line subtotal is the exact product: the quantization changes nothing. */
  lemma LineSubtotalExact(unitPrice: int, qty: int)
    ensures LineSubtotal(unitPrice, qty) == unitPrice * qty
  {
    Q2OfWholeCents(unitPrice * qty, 0);
  }
}
