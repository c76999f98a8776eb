/**
 * The repository's test scenarios as facts about the model: exact cent
 * values of the receipt, the stock left, and the credit left.
 */
module Scenarios {
  import opened Wrappers
  import opened Money
  import opened MoneyFacts
  import opened Catalog
  import opened Validation
  import opened Discounts
  import opened Shipping
  import opened Charges
  import opened Pipeline
  import opened CheckoutFacts

  /** The test inventory: a book, two stationery items and an e-book. */
  function TestRecords(): Records {
    map[
      "BK1" := Record(Book, 3000, 500, Some(10)),
      "ST1" := Record(Stationery, 500, 200, Some(100)),
      "ST2" := Record(Stationery, 200, 50, Some(50)),
      "DG1" := Record(Digital, 1500, 0, Some(999999999))
    ]
  }

  // Evaluation helpers for orders of one to three lines.

  /** The pre-scan of an order whose lines all pass. */
  lemma PreScan1(lines: seq<OrderLine>, records: Records)
    requires |lines| == 1 && LineError(lines[0], records).None?
    ensures FirstLineError(lines, records) == None
    ensures QtyTotal(lines) == lines[0].qty
    ensures SubtotalBefore(lines, records) == records[lines[0].sku].price * lines[0].qty
    ensures TotalWeight(lines, records) == records[lines[0].sku].weight * lines[0].qty
  {
    assert lines[..0] == [];
  }

  lemma PreScan2(lines: seq<OrderLine>, records: Records)
    requires |lines| == 2 && LineError(lines[0], records).None? && LineError(lines[1], records).None?
    ensures FirstLineError(lines, records) == None
    ensures QtyTotal(lines) == lines[0].qty + lines[1].qty
    ensures SubtotalBefore(lines, records)
            == records[lines[0].sku].price * lines[0].qty + records[lines[1].sku].price * lines[1].qty
    ensures TotalWeight(lines, records)
            == records[lines[0].sku].weight * lines[0].qty + records[lines[1].sku].weight * lines[1].qty
  {
    assert lines[..1] == [lines[0]];
    PreScan1(lines[..1], records);
  }

  lemma PreScan3(lines: seq<OrderLine>, records: Records)
    requires |lines| == 3
    requires LineError(lines[0], records).None? && LineError(lines[1], records).None?
    requires LineError(lines[2], records).None?
    ensures FirstLineError(lines, records) == None
    ensures QtyTotal(lines) == lines[0].qty + lines[1].qty + lines[2].qty
    ensures SubtotalBefore(lines, records)
            == records[lines[0].sku].price * lines[0].qty + records[lines[1].sku].price * lines[1].qty
               + records[lines[2].sku].price * lines[2].qty
    ensures TotalWeight(lines, records)
            == records[lines[0].sku].weight * lines[0].qty + records[lines[1].sku].weight * lines[1].qty
               + records[lines[2].sku].weight * lines[2].qty
  {
    assert lines[..2] == [lines[0], lines[1]];
    PreScan2(lines[..2], records);
  }

  lemma LineSums1(ls: seq<LineResult>)
    requires |ls| == 1
    ensures SumSubtotals(ls) == ls[0].lineSubtotal
    ensures SumTaxes(ls) == ls[0].taxLine
  {
    assert ls[..0] == [];
  }

  lemma LineSums2(ls: seq<LineResult>)
    requires |ls| == 2
    ensures SumSubtotals(ls) == ls[0].lineSubtotal + ls[1].lineSubtotal
    ensures SumTaxes(ls) == ls[0].taxLine + ls[1].taxLine
  {
    assert ls[..1] == [ls[0]];
    LineSums1(ls[..1]);
  }

  lemma LineSums3(ls: seq<LineResult>)
    requires |ls| == 3
    ensures SumSubtotals(ls) == ls[0].lineSubtotal + ls[1].lineSubtotal + ls[2].lineSubtotal
    ensures SumTaxes(ls) == ls[0].taxLine + ls[1].taxLine + ls[2].taxLine
  {
    assert ls[..2] == [ls[0], ls[1]];
    LineSums2(ls[..2]);
  }

  /** PriceOrder assembled from the values of its stages. */
  lemma PricedFrom(order: Order, records: Records, ship: ShippingMethod, priced: seq<LineResult>,
                   taxed: seq<LineResult>, subtotalAfter: int, taxTotal: int, shippingCost: int)
    requires Known(order.lines, records)
    requires PricedLines(order.lines, records, order.coupons, QtyTotal(order.lines)) == priced
    requires WithTaxes(priced) == taxed
    requires SumSubtotals(priced) == subtotalAfter
    requires Q2(Cents(SumTaxes(taxed))) == taxTotal
    requires ShippingCost(ship, subtotalAfter, TotalWeight(order.lines, records)) == shippingCost
    ensures PriceOrder(order, records, ship)
            == Priced(taxed, QtyTotal(order.lines), SubtotalBefore(order.lines, records), subtotalAfter,
                      TotalWeight(order.lines, records), FreeShipping(ship, subtotalAfter), shippingCost,
                      taxTotal, Q2(Cents(subtotalAfter + taxTotal + shippingCost)))
  {
  }

  // Scenario: one book and two notebooks, standard shipping, paid by card.

  function SimpleOrder(): Order {
    Order([OrderLine("BK1", 1), OrderLine("ST1", 2)], Some("standard"), [], Some("card"))
  }

  lemma SimpleOrderPreScan()
    ensures FirstLineError(SimpleOrder().lines, TestRecords()) == None
    ensures QtyTotal(SimpleOrder().lines) == 3
    ensures SubtotalBefore(SimpleOrder().lines, TestRecords()) == 4000
    ensures TotalWeight(SimpleOrder().lines, TestRecords()) == 900
  {
    PreScan2(SimpleOrder().lines, TestRecords());
  }

  lemma SimpleOrderLines()
    ensures PricedLines(SimpleOrder().lines, TestRecords(), [], 3)
            == [LineResult("BK1", Book, 1, 3000, 3000, 0), LineResult("ST1", Stationery, 2, 500, 1000, 0)]
  {
    SimpleOrderPreScan();
    Q2OfCents(3000);
    Q2OfCents(1000);
  }

  lemma SimpleOrderTaxes()
    ensures WithTaxes([LineResult("BK1", Book, 1, 3000, 3000, 0), LineResult("ST1", Stationery, 2, 500, 1000, 0)])
            == [LineResult("BK1", Book, 1, 3000, 3000, 120), LineResult("ST1", Stationery, 2, 500, 1000, 190)]
  {
    ApplyPercentNonNegative(3000, 4);
    ApplyPercentNonNegative(1000, 19);
  }

  lemma SimpleOrderPriced()
    ensures PriceOrder(SimpleOrder(), TestRecords(), Standard) == Priced(
              [LineResult("BK1", Book, 1, 3000, 3000, 120), LineResult("ST1", Stationery, 2, 500, 1000, 190)],
              3, 4000, 4000, 900, false, 500, 310, 4810)
  {
    var priced := [LineResult("BK1", Book, 1, 3000, 3000, 0), LineResult("ST1", Stationery, 2, 500, 1000, 0)];
    var taxed := [LineResult("BK1", Book, 1, 3000, 3000, 120), LineResult("ST1", Stationery, 2, 500, 1000, 190)];
    SimpleOrderPreScan();
    SimpleOrderLines();
    SimpleOrderTaxes();
    LineSums2(priced);
    LineSums2(taxed);
    Q2OfCents(310);
    Q2OfCents(500);
    PricedFrom(SimpleOrder(), TestRecords(), Standard, priced, taxed, 4000, 310, 500);
    Q2OfCents(4810);
  }

  /** 40.00 of goods, 3.10 of tax, 5.00 of shipping and a 0.96 card fee make
      49.06; the book's stock drops to 9 and the notebooks' to 98. */
  lemma SimpleOrderCardStandard()
    ensures var q := Quote(SimpleOrder(), TestRecords(), NoCredit);
            && q.Success?
            && q.value.subtotalAfterDiscounts == 4000
            && q.value.taxTotal == 310
            && q.value.shippingCost == 500
            && q.value.paymentFee == 96
            && q.value.total == 4906
            && CommitStock(TestRecords(), SimpleOrder().lines)["BK1"].stock == Some(9)
            && CommitStock(TestRecords(), SimpleOrder().lines)["ST1"].stock == Some(98)
  {
    SimpleOrderPreScan();
    SimpleOrderPriced();
    ApplyPercentNonNegative(4810, 2);
    Q2OfCents(4000);
    Q2OfCents(4906);
    CommitStockEffect(TestRecords(), SimpleOrder().lines, "BK1");
    CommitStockEffect(TestRecords(), SimpleOrder().lines, "ST1");
  }

  // Scenario: four books with SAVE10, standard shipping, bank transfer.

  function Save10Order(): Order {
    Order([OrderLine("BK1", 4)], Some("standard"), ["SAVE10"], Some("bank_transfer"))
  }

  lemma Save10OrderPreScan()
    ensures FirstLineError(Save10Order().lines, TestRecords()) == None
    ensures QtyTotal(Save10Order().lines) == 4
    ensures SubtotalBefore(Save10Order().lines, TestRecords()) == 12000
    ensures TotalWeight(Save10Order().lines, TestRecords()) == 2000
  {
    PreScan1(Save10Order().lines, TestRecords());
  }

  lemma Save10OrderLines()
    ensures PricedLines(Save10Order().lines, TestRecords(), ["SAVE10"], 4)
            == [LineResult("BK1", Book, 4, 2700, 10800, 0)]
  {
    Save10OrderPreScan();
    ApplyPercentNonNegative(3000, 90);
    Q2OfCents(10800);
  }

  lemma Save10OrderPriced()
    ensures PriceOrder(Save10Order(), TestRecords(), Standard) == Priced(
              [LineResult("BK1", Book, 4, 2700, 10800, 432)],
              4, 12000, 10800, 2000, true, 0, 432, 11232)
  {
    var priced := [LineResult("BK1", Book, 4, 2700, 10800, 0)];
    var taxed := [LineResult("BK1", Book, 4, 2700, 10800, 432)];
    Save10OrderPreScan();
    Save10OrderLines();
    ApplyPercentNonNegative(10800, 4);
    assert WithTaxes(priced) == taxed;
    LineSums1(priced);
    LineSums1(taxed);
    Q2OfCents(432);
    assert ShippingCost(Standard, 10800, 2000) == 0;
    PricedFrom(Save10Order(), TestRecords(), Standard, priced, taxed, 10800, 432, 0);
    Q2OfCents(11232);
  }

  /** SAVE10 brings 120.00 down to 108.00, which earns free standard shipping. */
  lemma FreeShippingWithSave10BankTransfer()
    ensures var q := Quote(Save10Order(), TestRecords(), NoCredit);
            && q.Success?
            && q.value.subtotalAfterDiscounts == 10800
            && q.value.freeShipping
            && q.value.shippingCost == 0
            && q.value.taxTotal == 432
            && q.value.total == 11232
            && q.value.holdDays == 2
  {
    Save10OrderPreScan();
    Save10OrderPriced();
    Q2OfCents(10800);
    Q2OfCents(11232);
  }

  // Scenario: twelve notebooks, four pens and an e-book with BULK5, express
  // shipping, paid from 200.00 of store credit.

  function BulkOrder(): Order {
    Order([OrderLine("ST1", 12), OrderLine("ST2", 4), OrderLine("DG1", 1)],
          Some("express"), ["BULK5"], Some("store_credit"))
  }

  lemma BulkOrderPreScan()
    ensures FirstLineError(BulkOrder().lines, TestRecords()) == None
    ensures QtyTotal(BulkOrder().lines) == 17
    ensures SubtotalBefore(BulkOrder().lines, TestRecords()) == 8300
    ensures TotalWeight(BulkOrder().lines, TestRecords()) == 2600
  {
    var lines := BulkOrder().lines;
    assert LineError(lines[0], TestRecords()).None? && LineError(lines[1], TestRecords()).None?
           && LineError(lines[2], TestRecords()).None?;
    PreScan3(lines, TestRecords());
  }

  lemma BulkOrderLines()
    ensures PricedLines(BulkOrder().lines, TestRecords(), ["BULK5"], 17)
            == [LineResult("ST1", Stationery, 12, 475, 5700, 0),
                LineResult("ST2", Stationery, 4, 190, 760, 0),
                LineResult("DG1", Digital, 1, 1425, 1425, 0)]
  {
    BulkOrderPreScan();
    ApplyPercentNonNegative(500, 95);
    ApplyPercentNonNegative(200, 95);
    ApplyPercentNonNegative(1500, 95);
    Q2OfCents(5700);
    Q2OfCents(760);
    Q2OfCents(1425);
  }

  lemma BulkOrderTaxes()
    ensures WithTaxes([LineResult("ST1", Stationery, 12, 475, 5700, 0),
                       LineResult("ST2", Stationery, 4, 190, 760, 0),
                       LineResult("DG1", Digital, 1, 1425, 1425, 0)])
            == [LineResult("ST1", Stationery, 12, 475, 5700, 1083),
                LineResult("ST2", Stationery, 4, 190, 760, 144),
                LineResult("DG1", Digital, 1, 1425, 1425, 0)]
  {
    ApplyPercentNonNegative(5700, 19);
    ApplyPercentNonNegative(760, 19);
    ApplyPercentNonNegative(1425, 0);
  }

  /** 2.6 kg by express: 10.00 plus one started kilogram over 2 kg at 5.00. */
  lemma BulkOrderShipping()
    ensures ShippingCost(Express, 7885, 2600) == 1500
  {
    assert StartedKg(600) == 1;
    Q2OfCents(1500);
  }

  lemma BulkOrderPriced()
    ensures PriceOrder(BulkOrder(), TestRecords(), Express) == Priced(
              [LineResult("ST1", Stationery, 12, 475, 5700, 1083),
               LineResult("ST2", Stationery, 4, 190, 760, 144),
               LineResult("DG1", Digital, 1, 1425, 1425, 0)],
              17, 8300, 7885, 2600, false, 1500, 1227, 10612)
  {
    var priced := [LineResult("ST1", Stationery, 12, 475, 5700, 0),
                   LineResult("ST2", Stationery, 4, 190, 760, 0),
                   LineResult("DG1", Digital, 1, 1425, 1425, 0)];
    var taxed := [LineResult("ST1", Stationery, 12, 475, 5700, 1083),
                  LineResult("ST2", Stationery, 4, 190, 760, 144),
                  LineResult("DG1", Digital, 1, 1425, 1425, 0)];
    BulkOrderPreScan();
    BulkOrderLines();
    BulkOrderTaxes();
    LineSums3(priced);
    LineSums3(taxed);
    Q2OfCents(1227);
    BulkOrderShipping();
    PricedFrom(BulkOrder(), TestRecords(), Express, priced, taxed, 7885, 1227, 1500);
    Q2OfCents(10612);
  }

  /** The total of 106.12 comes off the 200.00 of credit, leaving 93.88. */
  lemma ExpressOverweightBulk5StoreCredit()
    ensures var credit := Decimal(20000, 2);
            var q := Quote(BulkOrder(), TestRecords(), credit);
            && q.Success?
            && q.value.shippingCost == 1500
            && q.value.total == 10612
            && RemainingCredit(credit, q.value.total) == Cents(9388)
  {
    BulkOrderPreScan();
    BulkOrderPriced();
    Q2OfCents(7885);
    Q2OfCents(10612);
    Q2OfCents(20000);
    Q2OfCents(9388);
  }

  // Scenario: BOOKLOVER and SAVE10 together on a book, a pen and an e-book,
  // paid by card.

  function ComposedOrder(): Order {
    Order([OrderLine("BK1", 1), OrderLine("ST2", 1), OrderLine("DG1", 1)],
          Some("standard"), ["BOOKLOVER", "SAVE10"], Some("card"))
  }

  lemma ComposedOrderPreScan()
    ensures FirstLineError(ComposedOrder().lines, TestRecords()) == None
    ensures QtyTotal(ComposedOrder().lines) == 3
    ensures SubtotalBefore(ComposedOrder().lines, TestRecords()) == 4700
    ensures TotalWeight(ComposedOrder().lines, TestRecords()) == 550
  {
    var lines := ComposedOrder().lines;
    assert LineError(lines[0], TestRecords()).None? && LineError(lines[1], TestRecords()).None?
           && LineError(lines[2], TestRecords()).None?;
    PreScan3(lines, TestRecords());
  }

  /** 30.00 becomes 25.50 under BOOKLOVER and then 22.95 under SAVE10. */
  lemma ComposedOrderLines()
    ensures PricedLines(ComposedOrder().lines, TestRecords(), ["BOOKLOVER", "SAVE10"], 3)
            == [LineResult("BK1", Book, 1, 2295, 2295, 0),
                LineResult("ST2", Stationery, 1, 180, 180, 0),
                LineResult("DG1", Digital, 1, 1500, 1500, 0)]
  {
    ComposedOrderPreScan();
    ApplyPercentNonNegative(3000, 85);
    ApplyPercentNonNegative(2550, 90);
    ApplyPercentNonNegative(200, 90);
    Q2OfCents(2295);
    Q2OfCents(180);
    Q2OfCents(1500);
  }

  lemma ComposedOrderTaxes()
    ensures WithTaxes([LineResult("BK1", Book, 1, 2295, 2295, 0),
                       LineResult("ST2", Stationery, 1, 180, 180, 0),
                       LineResult("DG1", Digital, 1, 1500, 1500, 0)])
            == [LineResult("BK1", Book, 1, 2295, 2295, 92),
                LineResult("ST2", Stationery, 1, 180, 180, 34),
                LineResult("DG1", Digital, 1, 1500, 1500, 0)]
  {
    ApplyPercentNonNegative(2295, 4);
    ApplyPercentNonNegative(180, 19);
    ApplyPercentNonNegative(1500, 0);
  }

  lemma ComposedOrderPriced()
    ensures PriceOrder(ComposedOrder(), TestRecords(), Standard) == Priced(
              [LineResult("BK1", Book, 1, 2295, 2295, 92),
               LineResult("ST2", Stationery, 1, 180, 180, 34),
               LineResult("DG1", Digital, 1, 1500, 1500, 0)],
              3, 4700, 3975, 550, false, 500, 126, 4601)
  {
    var priced := [LineResult("BK1", Book, 1, 2295, 2295, 0),
                   LineResult("ST2", Stationery, 1, 180, 180, 0),
                   LineResult("DG1", Digital, 1, 1500, 1500, 0)];
    var taxed := [LineResult("BK1", Book, 1, 2295, 2295, 92),
                  LineResult("ST2", Stationery, 1, 180, 180, 34),
                  LineResult("DG1", Digital, 1, 1500, 1500, 0)];
    ComposedOrderPreScan();
    ComposedOrderLines();
    ComposedOrderTaxes();
    LineSums3(priced);
    LineSums3(taxed);
    Q2OfCents(126);
    Q2OfCents(500);
    PricedFrom(ComposedOrder(), TestRecords(), Standard, priced, taxed, 3975, 126, 500);
    Q2OfCents(4601);
  }

  /** The composed discounts, tax, shipping and card fee come to 46.93. */
  lemma BookLoverAndSave10Compose()
    ensures var q := Quote(ComposedOrder(), TestRecords(), NoCredit);
            && q.Success?
            && q.value.lines[0].unitPriceFinal == 2295
            && q.value.total == 4693
  {
    ComposedOrderPreScan();
    ComposedOrderPriced();
    ApplyPercentNonNegative(4601, 2);
    Q2OfCents(4693);
  }

  // Rejections.

  /** 9999 pens against a stock of 50 are refused, and the refusal is the stock's. */
  lemma InsufficientStockRejected()
    ensures Quote(Order([OrderLine("ST2", 9999)], Some("standard"), [], Some("card")), TestRecords(), NoCredit)
            == Failure(InsufficientStock("ST2"))
  {
    var lines := [OrderLine("ST2", 9999)];
    assert lines[..0] == [];
  }

  function SmallOrder(): Order {
    Order([OrderLine("BK1", 1)], Some("standard"), [], Some("store_credit"))
  }

  /** One book: 30.00, 1.20 of tax and 5.00 of shipping make 36.20. */
  lemma SmallOrderBaseTotal()
    ensures PriceOrder(SmallOrder(), TestRecords(), Standard).baseTotal == 3620
  {
    var priced := [LineResult("BK1", Book, 1, 3000, 3000, 0)];
    var taxed := [LineResult("BK1", Book, 1, 3000, 3000, 120)];
    PreScan1(SmallOrder().lines, TestRecords());
    Q2OfCents(3000);
    assert PricedLines(SmallOrder().lines, TestRecords(), [], 1) == priced;
    ApplyPercentNonNegative(3000, 4);
    assert WithTaxes(priced) == taxed;
    LineSums1(priced);
    LineSums1(taxed);
    Q2OfCents(120);
    Q2OfCents(500);
    PricedFrom(SmallOrder(), TestRecords(), Standard, priced, taxed, 3000, 120, 500);
    Q2OfCents(3620);
  }

  /** A 36.20 order cannot be paid from 10.00 of store credit. */
  lemma InsufficientStoreCreditRejected()
    ensures Quote(SmallOrder(), TestRecords(), Decimal(1000, 2)) == Failure(InsufficientStoreCredit)
  {
    PreScan1(SmallOrder().lines, TestRecords());
    SmallOrderBaseTotal();
    Q2OfCents(3620);
    Q2OfCents(1000);
  }
}
