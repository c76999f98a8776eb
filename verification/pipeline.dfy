/**
 * The whole checkout as one pure function: validate, accumulate, price the
 * lines, sum, ship, tax, charge the payment method; and the stock the
 * inventory holds afterwards. The imperative Checkout method is proved to
 * compute exactly this.
 */
module Pipeline {
  import opened Wrappers
  import opened Money
  import opened Catalog
  import opened Validation
  import opened Discounts
  import opened Shipping
  import opened Charges

  // Accumulations of the pre-scan, each over a prefix of the lines.

  function QtyTotal(lines: seq<OrderLine>): int {
    if lines == [] then 0 else QtyTotal(lines[..|lines| - 1]) + lines[|lines| - 1].qty
  }

  /** Sum of list price times quantity, in cents. */
  function SubtotalBefore(lines: seq<OrderLine>, records: Records): int
    requires Known(lines, records)
  {
    if lines == [] then 0
    else
      var last := lines[|lines| - 1];
      SubtotalBefore(lines[..|lines| - 1], records) + records[last.sku].price * last.qty
  }

  /** Sum of unit weight times quantity, in grams. */
  function TotalWeight(lines: seq<OrderLine>, records: Records): int
    requires Known(lines, records)
  {
    if lines == [] then 0
    else
      var last := lines[|lines| - 1];
      TotalWeight(lines[..|lines| - 1], records) + records[last.sku].weight * last.qty
  }

  /** A line priced after coupons; its tax is not yet computed. */
  function PriceLine(line: OrderLine, rec: Record, coupons: seq<string>, qtyTotal: int): LineResult {
    var unit := UnitPriceFinal(rec.price, rec.category, coupons, qtyTotal);
    LineResult(line.sku, rec.category, line.qty, unit, LineSubtotal(unit, line.qty), 0)
  }

  function PricedLines(lines: seq<OrderLine>, records: Records, coupons: seq<string>, qtyTotal: int): (r: seq<LineResult>)
    requires Known(lines, records)
    ensures |r| == |lines|
    ensures forall k :: 0 <= k < |lines| ==> r[k] == PriceLine(lines[k], records[lines[k].sku], coupons, qtyTotal)
  {
    if lines == [] then []
    else
      var last := lines[|lines| - 1];
      PricedLines(lines[..|lines| - 1], records, coupons, qtyTotal)
        + [PriceLine(last, records[last.sku], coupons, qtyTotal)]
  }

  /** The line with its tax filled in. */
  function Taxed(l: LineResult): LineResult {
    l.(taxLine := LineTax(l.lineSubtotal, l.category))
  }

  function WithTaxes(ls: seq<LineResult>): (r: seq<LineResult>)
    ensures |r| == |ls|
    ensures forall k :: 0 <= k < |ls| ==> r[k] == Taxed(ls[k])
  {
    if ls == [] then [] else WithTaxes(ls[..|ls| - 1]) + [Taxed(ls[|ls| - 1])]
  }

  function SumSubtotals(ls: seq<LineResult>): int {
    if ls == [] then 0 else SumSubtotals(ls[..|ls| - 1]) + ls[|ls| - 1].lineSubtotal
  }

  function SumTaxes(ls: seq<LineResult>): int {
    if ls == [] then 0 else SumTaxes(ls[..|ls| - 1]) + ls[|ls| - 1].taxLine
  }

  /** Everything computed before the payment stage. */
  datatype Priced = Priced(
    lines: seq<LineResult>,
    qtyTotal: int,
    subtotalBefore: int,
    subtotalAfter: int,
    weight: int,
    freeShipping: bool,
    shippingCost: int,
    taxTotal: int,
    baseTotal: int)

  function PriceOrder(order: Order, records: Records, ship: ShippingMethod): Priced
    requires Known(order.lines, records)
  {
    var qtyTotal := QtyTotal(order.lines);
    var priced := PricedLines(order.lines, records, order.coupons, qtyTotal);
    var subtotalAfter := SumSubtotals(priced);
    var weight := TotalWeight(order.lines, records);
    var shippingCost := ShippingCost(ship, subtotalAfter, weight);
    var taxed := WithTaxes(priced);
    var taxTotal := Q2(Cents(SumTaxes(taxed)));
    Priced(taxed, qtyTotal, SubtotalBefore(order.lines, records), subtotalAfter, weight,
           FreeShipping(ship, subtotalAfter), shippingCost, taxTotal,
           Q2(Cents(subtotalAfter + taxTotal + shippingCost)))
  }

  /** The store credit a customer holds; none, or no customer, reads as 0.00. */
  const NoCredit: Decimal := Cents(0)

  /** `_q2(credit - final_candidate)`, the credit left after paying `total`. */
  function RemainingCredit(credit: Decimal, total: int): Decimal {
    Cents(Q2(Cents(Q2(credit) - total)))
  }

  /** The payment stage and the receipt, for an order priced as `p`. */
  function Settle(order: Order, p: Priced, pay: PaymentMethod, credit: Decimal): Result<Receipt, CheckoutError> {
    var fee := PaymentFee(pay, p.baseTotal);
    if pay == StoreCredit && Q2(credit) < Q2(Cents(p.baseTotal + fee)) then
      Failure(InsufficientStoreCredit)
    else
      Success(Receipt(
        p.lines, Q2(Cents(p.subtotalBefore)), Q2(Cents(p.subtotalAfter)), p.shippingCost,
        p.taxTotal, fee, Q2(Cents(p.baseTotal + fee)), HoldDays(pay), p.freeShipping,
        Q2(Decimal(p.weight, 3)), PaymentChoice(order), ShippingChoice(order)))
  }

  /**
   * The outcome of a checkout of `order` against the inventory `records`
   * by a customer holding `credit`.
   */
  function Quote(order: Order, records: Records, credit: Decimal): Result<Receipt, CheckoutError> {
    match ParseShipping(ShippingChoice(order))
    case None => Failure(InvalidShippingMethod)
    case Some(ship) =>
      match FirstLineError(order.lines, records)
      case Some(e) => Failure(e)
      case None =>
        match ParsePayment(PaymentChoice(order))
        case None => Failure(UnsupportedPaymentMethod)
        case Some(pay) => Settle(order, PriceOrder(order, records, ship), pay, credit)
  }

  /**
   * One line of the commit step: a non-DIGITAL SKU's stock drops by the line's qty.
   * After a passing pre-scan every SKU is known and every non-DIGITAL record has a
   * stock (`CommitStockKeepsShape`), so the `stock.Some?` guard is never false there;
   * the source itself would fail at line 172 on such a record. The guard only keeps
   * this function total.
   */
  function Decrement(records: Records, line: OrderLine): (r: Records)
    ensures r.Keys == records.Keys
  {
    if line.sku in records && records[line.sku].category != Digital && records[line.sku].stock.Some? then
      var rec := records[line.sku];
      records[line.sku := rec.(stock := Some(rec.stock.value - line.qty))]
    else records
  }

  /** The inventory after the commit step has run over `lines`, in order. */
  function CommitStock(records: Records, lines: seq<OrderLine>): (r: Records)
    ensures r.Keys == records.Keys
  {
    if lines == [] then records
    else Decrement(CommitStock(records, lines[..|lines| - 1]), lines[|lines| - 1])
  }

  /** The commit changes stock figures only: categories stay, and so does whether a stock is recorded. */
  lemma {:induction false} CommitStockKeepsShape(records: Records, lines: seq<OrderLine>, sku: string)
    requires sku in records
    ensures var r := CommitStock(records, lines);
            r[sku].category == records[sku].category && r[sku].stock.Some? == records[sku].stock.Some?
  {
    if lines != [] {
      CommitStockKeepsShape(records, lines[..|lines| - 1], sku);
    }
  }
}
