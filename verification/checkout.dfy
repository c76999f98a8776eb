/**
 * The checkout procedure itself, over an inventory and a customer that it
 * updates in place: stock is decremented and store credit deducted only
 * after every check has passed.
 */
module Checkout {
  import opened Wrappers
  import opened Money
  import opened Catalog
  import opened Validation
  import opened Discounts
  import opened Shipping
  import opened Charges
  import opened Pipeline

  /** The inventory mapping the caller owns; its records' stock is updated in place. */
  class Inventory {
    var records: Records

    constructor (records: Records)
      ensures this.records == records
    {
      this.records := records;
    }
  }

  /** A customer record; `storeCredit` may be absent. */
  class Customer {
    var storeCredit: Option<Decimal>

    constructor (storeCredit: Option<Decimal>)
      ensures this.storeCredit == storeCredit
    {
      this.storeCredit := storeCredit;
    }
  }

  /** The credit a (possibly missing) customer holds, 0.00 by default. */
  function CreditOf(customer: Customer?): Decimal
    reads customer
  {
    if customer == null then NoCredit else customer.storeCredit.GetOr(NoCredit)
  }

  /** The pre-scan: the first failing line's error, or the order-wide sums. */
  method PreScan(lines: seq<OrderLine>, records: Records)
      returns (error: Option<CheckoutError>, qtyTotal: int, subtotalBefore: int, totalWeight: int)
    ensures error == FirstLineError(lines, records)
    ensures error.None? ==>
              && qtyTotal == QtyTotal(lines)
              && subtotalBefore == SubtotalBefore(lines, records)
              && totalWeight == TotalWeight(lines, records)
  {
    totalWeight, subtotalBefore, qtyTotal := 0, 0, 0;
    var i := 0;
    while i < |lines|
      invariant 0 <= i <= |lines|
      invariant FirstLineError(lines[..i], records).None?
      invariant qtyTotal == QtyTotal(lines[..i])
      invariant subtotalBefore == SubtotalBefore(lines[..i], records)
      invariant totalWeight == TotalWeight(lines[..i], records)
    {
      var line := lines[i];
      assert lines[..i + 1][..i] == lines[..i];
      if line.sku !in records {
        FirstLineErrorSticks(lines, records, i + 1);
        return Some(UnknownSku(line.sku)), qtyTotal, subtotalBefore, totalWeight;
      }
      var rec := records[line.sku];
      if rec.category != Digital {
        if rec.stock.None? {
          FirstLineErrorSticks(lines, records, i + 1);
          return Some(MissingStock(line.sku)), qtyTotal, subtotalBefore, totalWeight;
        }
        if line.qty > rec.stock.value {
          FirstLineErrorSticks(lines, records, i + 1);
          return Some(InsufficientStock(line.sku)), qtyTotal, subtotalBefore, totalWeight;
        }
      }
      qtyTotal := qtyTotal + line.qty;
      subtotalBefore := subtotalBefore + rec.price * line.qty;
      totalWeight := totalWeight + rec.weight * line.qty;
      i := i + 1;
    }
    assert lines[..|lines|] == lines;
    error := None;
  }

  /** The coupon stage: one priced line per order line, in order. */
  method PriceLines(lines: seq<OrderLine>, records: Records, coupons: seq<string>, qtyTotal: int)
      returns (lineResults: seq<LineResult>)
    requires Known(lines, records)
    ensures lineResults == PricedLines(lines, records, coupons, qtyTotal)
  {
    lineResults := [];
    var i := 0;
    while i < |lines|
      invariant 0 <= i <= |lines|
      invariant lineResults == PricedLines(lines[..i], records, coupons, qtyTotal)
    {
      assert lines[..i + 1][..i] == lines[..i];
      var line := lines[i];
      var rec := records[line.sku];
      var unitPrice := UnitPriceFinal(rec.price, rec.category, coupons, qtyTotal);
      lineResults := lineResults + [LineResult(line.sku, rec.category, line.qty, unitPrice,
                                               LineSubtotal(unitPrice, line.qty), 0)];
      i := i + 1;
    }
    assert lines[..|lines|] == lines;
  }

  /** The tax stage: writes each line's tax into it and sums the taxes. */
  method ApplyTaxes(priced: seq<LineResult>) returns (lineResults: seq<LineResult>, taxTotal: int)
    ensures lineResults == WithTaxes(priced)
    ensures taxTotal == SumTaxes(lineResults)
  {
    lineResults := priced;
    taxTotal := 0;
    var i := 0;
    while i < |lineResults|
      invariant 0 <= i <= |lineResults| == |priced|
      invariant forall k :: 0 <= k < i ==> lineResults[k] == Taxed(priced[k])
      invariant forall k :: i <= k < |priced| ==> lineResults[k] == priced[k]
      invariant taxTotal == SumTaxes(lineResults[..i])
    {
      var taxLine := LineTax(lineResults[i].lineSubtotal, lineResults[i].category);
      ghost var before := lineResults;
      lineResults := lineResults[i := lineResults[i].(taxLine := taxLine)];
      assert lineResults[..i + 1][..i] == lineResults[..i] == before[..i];
      taxTotal := taxTotal + taxLine;
      i := i + 1;
    }
    assert lineResults[..|lineResults|] == lineResults;
  }

  /** The commit step: every non-DIGITAL line takes its qty off its SKU's stock. */
  method CommitStockLevels(inventory: Inventory, lines: seq<OrderLine>)
    requires FirstLineError(lines, inventory.records).None?
    modifies inventory
    ensures inventory.records == CommitStock(old(inventory.records), lines)
  {
    ghost var records := inventory.records;
    var i := 0;
    while i < |lines|
      invariant 0 <= i <= |lines|
      invariant inventory.records == CommitStock(records, lines[..i])
    {
      CommitStep(records, lines, i);
      var current := inventory.records;
      DecrementInPlace(current, lines[i]);
      ghost var next := Decrement(current, lines[i]);
      var sku := lines[i].sku;
      var rec := current[sku];
      if rec.category != Digital {
        inventory.records := current[sku := rec.(stock := Some(rec.stock.value - lines[i].qty))];
      }
      assert inventory.records == next;
      i := i + 1;
    }
    assert lines[..|lines|] == lines;
  }

  /** One step of the commit: the line's SKU is there, with a stock unless DIGITAL. */
  lemma CommitStep(records: Records, lines: seq<OrderLine>, i: nat)
    requires FirstLineError(lines, records).None?
    requires i < |lines|
    ensures var current := CommitStock(records, lines[..i]);
            && lines[i].sku in current
            && (current[lines[i].sku].category != Digital ==> current[lines[i].sku].stock.Some?)
            && CommitStock(records, lines[..i + 1]) == Decrement(current, lines[i])
  {
    assert lines[..i + 1][..i] == lines[..i];
    NoLineErrorAt(lines, records, i);
    CommitStockKeepsShape(records, lines[..i], lines[i].sku);
  }

  /** Decrement, spelled the way the commit loop performs it. */
  lemma DecrementInPlace(current: Records, line: OrderLine)
    requires line.sku in current
    requires current[line.sku].category != Digital ==> current[line.sku].stock.Some?
    ensures var rec := current[line.sku];
            Decrement(current, line)
            == if rec.category != Digital then current[line.sku := rec.(stock := Some(rec.stock.value - line.qty))]
               else current
  {
  }

  /** What the payment stage adds to the receipt. */
  datatype Charge = Charge(fee: int, holdDays: int)

  /**
   * The payment stage: the card fee or the bank-transfer hold, or for store
   * credit the sufficiency check and the deduction of `baseTotal`.
   */
  method Pay(paymentName: string, baseTotal: int, customer: Customer?)
      returns (outcome: Result<Charge, CheckoutError>)
    modifies customer
    ensures ParsePayment(paymentName).None? ==> outcome == Failure(UnsupportedPaymentMethod)
    ensures ParsePayment(paymentName).Some? ==>
              var pay := ParsePayment(paymentName).value;
              var fee := PaymentFee(pay, baseTotal);
              outcome == if pay == StoreCredit && Q2(old(CreditOf(customer))) < Q2(Cents(baseTotal + fee))
                         then Failure(InsufficientStoreCredit)
                         else Success(Charge(fee, HoldDays(pay)))
    ensures customer != null ==>
              customer.storeCredit ==
                if outcome.Success? && paymentName == PaymentName(StoreCredit)
                then Some(RemainingCredit(old(CreditOf(customer)), Q2(Cents(baseTotal + outcome.value.fee))))
                else old(customer.storeCredit)
  {
    var holdDays := 0;
    var paymentFee := 0;
    if paymentName == "card" {
      paymentFee := ApplyPercent(baseTotal, CardFeePercent);
    } else if paymentName == "bank_transfer" {
      holdDays := BankTransferHoldDays;
    } else if paymentName == "store_credit" {
      var credit := Q2(CreditOf(customer));
      var finalCandidate := Q2(Cents(baseTotal + paymentFee));
      if credit < finalCandidate {
        return Failure(InsufficientStoreCredit);
      }
      if customer != null {
        customer.storeCredit := Some(Cents(Q2(Cents(credit - finalCandidate))));
      }
    } else {
      return Failure(UnsupportedPaymentMethod);
    }
    outcome := Success(Charge(paymentFee, holdDays));
  }

  /**
   * Coupons, the post-discount subtotal, shipping, tax and the base total,
   * from the sums of a successful pre-scan.
   */
  method PriceStage(order: Order, records: Records, ship: ShippingMethod,
                    qtyTotal: int, subtotalBefore: int, totalWeight: int)
      returns (p: Priced)
    requires Known(order.lines, records)
    requires qtyTotal == QtyTotal(order.lines)
    requires subtotalBefore == SubtotalBefore(order.lines, records)
    requires totalWeight == TotalWeight(order.lines, records)
    ensures p == PriceOrder(order, records, ship)
  {
    var priced := PriceLines(order.lines, records, order.coupons, qtyTotal);
    var subtotalAfter := SumSubtotals(priced);
    var freeShipping := FreeShipping(ship, subtotalAfter);
    var shippingCost := ShippingCost(ship, subtotalAfter, totalWeight);
    var lineResults, taxTotal := ApplyTaxes(priced);
    taxTotal := Q2(Cents(taxTotal));
    var baseTotal := Q2(Cents(subtotalAfter + taxTotal + shippingCost));
    p := Priced(lineResults, qtyTotal, subtotalBefore, subtotalAfter, totalWeight,
                freeShipping, shippingCost, taxTotal, baseTotal);
  }

  /** Once shipping and the lines have passed, Quote is the payment stage's outcome. */
  lemma QuoteAfterValidation(order: Order, records: Records, credit: Decimal, ship: ShippingMethod)
    requires ParseShipping(ShippingChoice(order)) == Some(ship)
    requires FirstLineError(order.lines, records).None?
    ensures Quote(order, records, credit) ==
              if ParsePayment(PaymentChoice(order)).None? then Failure(UnsupportedPaymentMethod)
              else Settle(order, PriceOrder(order, records, ship), ParsePayment(PaymentChoice(order)).value, credit)
  {
  }

  method Checkout(order: Order, inventory: Inventory, customer: Customer?)
      returns (result: Result<Receipt, CheckoutError>)
    modifies inventory, customer
    ensures result == Quote(order, old(inventory.records), old(CreditOf(customer)))
    ensures result.Failure? ==> inventory.records == old(inventory.records)
    ensures result.Failure? && customer != null ==> customer.storeCredit == old(customer.storeCredit)
    ensures result.Success? ==> inventory.records == CommitStock(old(inventory.records), order.lines)
    ensures result.Success? && customer != null ==>
              customer.storeCredit ==
                if PaymentChoice(order) == PaymentName(StoreCredit)
                then Some(RemainingCredit(old(CreditOf(customer)), result.value.total))
                else old(customer.storeCredit)
  {
    var lines := order.lines;
    var shippingName := ShippingChoice(order);
    var paymentName := PaymentChoice(order);

    var ship := ParseShipping(shippingName);
    if ship.None? {
      return Failure(InvalidShippingMethod);
    }

    var records := inventory.records;
    var lineError, qtyTotal, subtotalBefore, totalWeight := PreScan(lines, records);
    if lineError.Some? {
      return Failure(lineError.value);
    }

    var p := PriceStage(order, records, ship.value, qtyTotal, subtotalBefore, totalWeight);
    ghost var credit0 := CreditOf(customer);
    ghost var pay := ParsePayment(paymentName);
    QuoteAfterValidation(order, records, credit0, ship.value);

    var charge := Pay(paymentName, p.baseTotal, customer);
    if charge.Failure? {
      return Failure(charge.error);
    }
    var finalTotal := Q2(Cents(p.baseTotal + charge.value.fee));

    CommitStockLevels(inventory, lines);

    result := Success(Receipt(
      p.lines, Q2(Cents(p.subtotalBefore)), Q2(Cents(p.subtotalAfter)), p.shippingCost, p.taxTotal,
      charge.value.fee, finalTotal, charge.value.holdDays, p.freeShipping, Q2(Decimal(p.weight, 3)),
      paymentName, shippingName));
    assert charge.value.fee == PaymentFee(pay.value, p.baseTotal);
    assert Settle(order, p, pay.value, credit0).Success?;
    assert Settle(order, p, pay.value, credit0).value.total == finalTotal;
  }
}
