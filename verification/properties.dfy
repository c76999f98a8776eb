/**
 * What a checkout promises, stated over Quote: which inputs are rejected and
 * with which error, how the receipt's figures relate, the payment rules, and
 * what the commit step does to each SKU's stock.
 */
module CheckoutFacts {
  import opened Wrappers
  import opened Money
  import opened MoneyFacts
  import opened Catalog
  import opened Validation
  import opened Discounts
  import opened DiscountFacts
  import opened Shipping
  import opened ShippingFacts
  import opened Charges
  import opened Pipeline

  /** A checkout is rejected exactly for an unsupported shipping method, a
      failing line, an unsupported payment method, or too little store credit. */
  lemma QuoteRejectsExactly(order: Order, records: Records, credit: Decimal)
    ensures Quote(order, records, credit).Failure? <==>
              || ParseShipping(ShippingChoice(order)).None?
              || (exists i :: 0 <= i < |order.lines| && LineError(order.lines[i], records).Some?)
              || ParsePayment(PaymentChoice(order)).None?
              || (&& ParseShipping(ShippingChoice(order)).Some?
                  && FirstLineError(order.lines, records).None?
                  && ParsePayment(PaymentChoice(order)) == Some(StoreCredit)
                  && Q2(credit) < PriceOrder(order, records, ParseShipping(ShippingChoice(order)).value).baseTotal)
  {
    FirstLineErrorIsFirst(order.lines, records);
    var ship := ParseShipping(ShippingChoice(order));
    if ship.Some? && FirstLineError(order.lines, records).None? {
      var p := PriceOrder(order, records, ship.value);
      Q2OfWholeCents(p.baseTotal, 0);
    }
  }

  /** The error reported is that of the earliest failing stage, and among the
      lines that of the first failing line. */
  lemma QuoteReportsFirstError(order: Order, records: Records, credit: Decimal)
    requires Quote(order, records, credit).Failure?
    ensures var e := Quote(order, records, credit).error;
            && (e == InvalidShippingMethod <==> ParseShipping(ShippingChoice(order)).None?)
            && (ParseShipping(ShippingChoice(order)).Some? && FirstLineError(order.lines, records).Some? ==>
                  Some(e) == FirstLineError(order.lines, records))
            && ((e.UnknownSku? || e.MissingStock? || e.InsufficientStock?) ==>
                  && ParseShipping(ShippingChoice(order)).Some?
                  && exists i :: 0 <= i < |order.lines| && LineError(order.lines[i], records) == Some(e)
                                 && forall j :: 0 <= j < i ==> LineError(order.lines[j], records).None?)
            && (e == UnsupportedPaymentMethod <==>
                  && ParseShipping(ShippingChoice(order)).Some?
                  && FirstLineError(order.lines, records).None?
                  && ParsePayment(PaymentChoice(order)).None?)
            && (e == InsufficientStoreCredit <==>
                  && ParseShipping(ShippingChoice(order)).Some?
                  && FirstLineError(order.lines, records).None?
                  && ParsePayment(PaymentChoice(order)) == Some(StoreCredit))
  {
    FirstLineErrorIsFirst(order.lines, records);
  }

  /** Writing the taxes into the lines leaves their subtotals alone. */
  lemma {:induction false} WithTaxesKeepsSubtotals(ls: seq<LineResult>)
    ensures SumSubtotals(WithTaxes(ls)) == SumSubtotals(ls)
  {
    if ls != [] {
      var init := ls[..|ls| - 1];
      WithTaxesKeepsSubtotals(init);
      assert WithTaxes(ls)[..|ls| - 1] == WithTaxes(init);
    }
  }

  /**
   * The receipt adds up: the post-discount subtotal is the sum of the line
   * subtotals, the tax total the sum of the line taxes, and the total the sum
   * of subtotal, tax, shipping and payment fee.
   */
  lemma QuoteReceiptAddsUp(order: Order, records: Records, credit: Decimal)
    requires Quote(order, records, credit).Success?
    ensures var r := Quote(order, records, credit).value;
            && r.subtotalAfterDiscounts == SumSubtotals(r.lines)
            && r.taxTotal == SumTaxes(r.lines)
            && r.total == r.subtotalAfterDiscounts + r.taxTotal + r.shippingCost + r.paymentFee
  {
    var ship := ParseShipping(ShippingChoice(order)).value;
    var p := PriceOrder(order, records, ship);
    var priced := PricedLines(order.lines, records, order.coupons, QtyTotal(order.lines));
    WithTaxesKeepsSubtotals(priced);
    Q2OfCents(p.subtotalAfter);
    Q2OfCents(SumTaxes(p.lines));
    Q2OfCents(p.subtotalAfter + p.taxTotal + p.shippingCost);
    Q2OfCents(p.baseTotal + PaymentFee(ParsePayment(PaymentChoice(order)).value, p.baseTotal));
  }

  /**
   * Each receipt line belongs to the order line at the same position: same
   * SKU and qty, the inventory's category, the coupon-discounted unit price,
   * the exact line subtotal, and the category's tax on it.
   */
  lemma QuoteLines(order: Order, records: Records, credit: Decimal)
    requires Quote(order, records, credit).Success?
    ensures var r := Quote(order, records, credit).value;
            && |r.lines| == |order.lines|
            && forall i :: 0 <= i < |order.lines| ==>
                 && order.lines[i].sku in records
                 && r.lines[i].sku == order.lines[i].sku
                 && r.lines[i].qty == order.lines[i].qty
                 && r.lines[i].category == records[order.lines[i].sku].category
                 && r.lines[i].unitPriceFinal
                      == UnitPriceFinal(records[order.lines[i].sku].price, r.lines[i].category,
                                        order.coupons, QtyTotal(order.lines))
                 && r.lines[i].lineSubtotal == r.lines[i].unitPriceFinal * r.lines[i].qty
                 && r.lines[i].taxLine == LineTax(r.lines[i].lineSubtotal, r.lines[i].category)
  {
    var r := Quote(order, records, credit).value;
    forall i | 0 <= i < |order.lines|
      ensures r.lines[i].lineSubtotal == r.lines[i].unitPriceFinal * r.lines[i].qty
    {
      LineSubtotalExact(r.lines[i].unitPriceFinal, r.lines[i].qty);
    }
  }

  /**
   * The payment rules: a card pays 2% of subtotal + tax + shipping, rounded
   * half up, with no hold; a bank transfer pays no fee and is held two days;
   * store credit pays no fee, and the credit covered the total and is left
   * reduced by exactly that total.
   */
  lemma QuotePayment(order: Order, records: Records, credit: Decimal)
    requires Quote(order, records, credit).Success?
    ensures var r := Quote(order, records, credit).value;
            && ParsePayment(PaymentChoice(order)).Some?
            && r.paymentMethod == PaymentChoice(order)
            && match ParsePayment(PaymentChoice(order)).value
               case Card =>
                 && r.paymentFee == ApplyPercent(r.subtotalAfterDiscounts + r.taxTotal + r.shippingCost, 2)
                 && r.holdDays == 0
               case BankTransfer => r.paymentFee == 0 && r.holdDays == 2
               case StoreCredit =>
                 && r.paymentFee == 0 && r.holdDays == 0
                 && Q2(credit) >= r.total
                 && RemainingCredit(credit, r.total) == Cents(Q2(credit) - r.total)
  {
    var ship := ParseShipping(ShippingChoice(order)).value;
    var p := PriceOrder(order, records, ship);
    Q2OfCents(p.subtotalAfter);
    Q2OfCents(p.subtotalAfter + p.taxTotal + p.shippingCost);
    Q2OfCents(p.baseTotal);
    Q2OfCents(Q2(credit) - p.baseTotal);
  }

  /**
   * The receipt's shipping: free exactly for standard orders whose
   * post-discount subtotal reaches 100.00, otherwise the rate for the
   * order's total weight; and the reported weight is that total rounded half
   * up to 10 g.
   */
  lemma QuoteShipping(order: Order, records: Records, credit: Decimal)
    requires Quote(order, records, credit).Success?
    ensures var r := Quote(order, records, credit).value;
            var ship := ParseShipping(ShippingChoice(order)).value;
            && Known(order.lines, records)
            && r.shippingMethod == ShippingChoice(order)
            && (r.freeShipping <==> ship == Standard && r.subtotalAfterDiscounts >= 10000)
            && (r.shippingCost == 0 <==> r.freeShipping)
            && r.shippingCost == ShippingCost(ship, r.subtotalAfterDiscounts, TotalWeight(order.lines, records))
            && r.weight == Q2(Decimal(TotalWeight(order.lines, records), 3))
  {
    var ship := ParseShipping(ShippingChoice(order)).value;
    var p := PriceOrder(order, records, ship);
    Q2OfCents(p.subtotalAfter);
    ShippingCostRules(ship, p.subtotalAfter, p.weight);
  }

  /** Total quantity the lines order of one SKU. */
  function QtyOrdered(lines: seq<OrderLine>, sku: string): int {
    if lines == [] then 0
    else QtyOrdered(lines[..|lines| - 1], sku) + (if lines[|lines| - 1].sku == sku then lines[|lines| - 1].qty else 0)
  }

  /**
   * The commit step per SKU: a non-DIGITAL SKU's stock drops by the total
   * quantity ordered of it over all lines; DIGITAL records are unchanged.
   * The `stock.None?` case is never reached after a passing pre-scan.
   */
  lemma {:induction false} CommitStockEffect(records: Records, lines: seq<OrderLine>, sku: string)
    requires sku in records
    ensures CommitStock(records, lines)[sku] ==
              if records[sku].category == Digital || records[sku].stock.None? then records[sku]
              else records[sku].(stock := Some(records[sku].stock.value - QtyOrdered(lines, sku)))
  {
    if lines != [] {
      CommitStockEffect(records, lines[..|lines| - 1], sku);
    }
  }

  predicate DistinctSkus(lines: seq<OrderLine>) {
    forall i, j :: 0 <= i < j < |lines| ==> lines[i].sku != lines[j].sku
  }

  lemma {:induction false} QtyOrderedDistinct(lines: seq<OrderLine>, i: nat)
    requires DistinctSkus(lines) && i < |lines|
    ensures QtyOrdered(lines, lines[i].sku) == lines[i].qty
  {
    var n := |lines| - 1;
    var init := lines[..n];
    if i < n {
      QtyOrderedDistinct(init, i);
    } else {
      QtyOrderedAbsent(init, lines[i].sku);
    }
  }

  lemma {:induction false} QtyOrderedAbsent(lines: seq<OrderLine>, sku: string)
    requires forall j :: 0 <= j < |lines| ==> lines[j].sku != sku
    ensures QtyOrdered(lines, sku) == 0
  {
    if lines != [] {
      QtyOrderedAbsent(lines[..|lines| - 1], sku);
    }
  }

  /**
   * When no SKU appears on two lines and the pre-scan passes (as it has
   * whenever stock is committed), the commit leaves every ordered
   * non-DIGITAL SKU with its stock minus that line's qty, which the
   * pre-scan guarantees is not negative.
   */
  lemma DistinctSkusKeepStockNonNegative(lines: seq<OrderLine>, records: Records, i: nat)
    requires FirstLineError(lines, records).None?
    requires DistinctSkus(lines) && i < |lines|
    requires records[lines[i].sku].category != Digital
    ensures var after := CommitStock(records, lines)[lines[i].sku];
            && records[lines[i].sku].stock.Some? && after.stock.Some?
            && after.stock.value == records[lines[i].sku].stock.value - lines[i].qty >= 0
  {
    NoLineErrorAt(lines, records, i);
    QtyOrderedDistinct(lines, i);
    CommitStockEffect(records, lines, lines[i].sku);
  }

  /** A SKU that no line orders keeps its record unchanged. */
  lemma CommitStockUntouched(records: Records, lines: seq<OrderLine>, sku: string)
    requires sku in records
    requires forall j :: 0 <= j < |lines| ==> lines[j].sku != sku
    ensures CommitStock(records, lines)[sku] == records[sku]
  {
    QtyOrderedAbsent(lines, sku);
    CommitStockEffect(records, lines, sku);
  }

  /** The per-line stock check does not add up repeated SKUs: two lines of 3
      against a stock of 5 pass the pre-scan, and the commit leaves -1. */
  lemma RepeatedSkuOversells()
    ensures var records := map["P" := Record(Stationery, 100, 10, Some(5))];
            var lines := [OrderLine("P", 3), OrderLine("P", 3)];
            && FirstLineError(lines, records).None?
            && CommitStock(records, lines)["P"].stock == Some(-1)
  {
    var records := map["P" := Record(Stationery, 100, 10, Some(5))];
    var lines := [OrderLine("P", 3), OrderLine("P", 3)];
    assert lines[..1] == [OrderLine("P", 3)];
    assert lines[..1][..0] == [];
    CommitStockEffect(records, lines, "P");
  }

  /** Raising one line's quantity never lowers the pre-discount subtotal,
      when list prices are not negative. */
  lemma {:induction false} SubtotalBeforeMonotone(lines: seq<OrderLine>, records: Records, i: nat, q: int)
    requires Known(lines, records) && i < |lines| && q >= lines[i].qty
    requires forall sku :: sku in records ==> records[sku].price >= 0
    ensures Known(lines[i := lines[i].(qty := q)], records)
    ensures SubtotalBefore(lines[i := lines[i].(qty := q)], records) >= SubtotalBefore(lines, records)
  {
    var bigger := lines[i := lines[i].(qty := q)];
    var n := |lines| - 1;
    assert Known(bigger, records) by {
      forall k | 0 <= k < |bigger| ensures bigger[k].sku in records {
        assert bigger[k].sku == lines[k].sku;
      }
    }
    if i == n {
      assert bigger[..n] == lines[..n];
      var price := records[lines[i].sku].price;
      assert price * q - price * lines[i].qty == price * (q - lines[i].qty);
    } else {
      assert bigger[..n] == lines[..n][i := lines[i].(qty := q)];
      SubtotalBeforeMonotone(lines[..n], records, i, q);
    }
  }
}
