# Checkout pricing pipeline, modelled and verified in Dafny

This project models `checkout` from `src/checkout_dirty.py`, together with its rounding helper `_q2`.

`checkout` takes an order, an inventory mapping and an optional customer record. It then works in a fixed order:

1. It validates the shipping method, and each line's SKU and stock.
2. It sums the quantity, the pre-discount subtotal and the weight.
3. It applies the BOOKLOVER, SAVE10 and BULK5 coupons to each line, rounding after each one.
4. It computes the shipping cost: free standard shipping from 100.00, otherwise a base fee plus a rate per started kilogram above 2 kg.
5. It computes each line's tax.
6. It applies the payment method: a 2% card fee, a two-day hold for bank transfer, or a check and deduction of store credit.
7. It decrements the stock of every non-DIGITAL line in place.
8. It returns a receipt.

How values are represented:
- Money is whole cents (`int`).
- Weight is grams, i.e. thousandths of a kilogram.
- Python's `Decimal` becomes `Money.Decimal(units, places)`. `_q2` becomes `Money.Q2`, which rounds half up with ties away from zero, as `ROUND_HALF_UP` does.
- A percentage of a cent amount is `ApplyPercent(c, pct) = Q2(Decimal(c * pct, 4))`. On non-negative amounts that is `(c * pct + 50) / 100`.

The project has two layers:

- **A pure specification.**
  - `Pipeline.Quote(order, records, credit)` is the outcome of a checkout: a `Receipt` or a `CheckoutError`.
  - It is built from stage functions: `Validation.FirstLineError`, `Discounts.UnitPriceFinal`, `Shipping.ShippingCost`, `Charges.LineTax`, `Charges.PaymentFee` and `Pipeline.Settle`.
  - `Pipeline.CommitStock` is the inventory after the commit step.
  - The lemmas in `CheckoutFacts`, `DiscountFacts`, `ShippingFacts`, `ChargeFacts` and `MoneyFacts` state what these promise.
- **The imperative procedure.**
  - `Checkout.Checkout` works over a class `Inventory`, whose `records` map it updates in place, and a class `Customer`, whose `storeCredit` it reassigns.
  - It uses loops with invariants:
    - `PreScan` accumulates the sums.
    - `PriceLines` appends the priced lines.
    - `ApplyTaxes` writes each line's tax and sums the taxes.
    - `CommitStockLevels` decrements the stock.
    - `Pay` follows the if/elif chain on the payment method name.
  - It is proved to return exactly `Quote(...)` of its inputs.
  - On failure it leaves the inventory and the customer's credit unchanged.
  - On success the new inventory is `CommitStock(old inventory, lines)` and, for store credit, the new credit is `credit - total`; otherwise the credit is unchanged.

`Scenarios` restates the six scenarios of `tests/test_checkout.py` as lemmas with exact cent values.

## Model

| member | source | states |
|---|---|---|
| Money.Q2Nearest | src/checkout_dirty.py:10-16 | `_q2(x)` is the nearest whole number of cents to `x`, and on a tie it is the candidate of larger magnitude (round half up, away from zero) |
| Money.RoundHalfUpNearest | src/checkout_dirty.py:9-10 | integer division rounded half up is the nearest integer, with ties going away from zero, and it keeps the sign of the numerator |
| MoneyFacts.Q2Unique | src/checkout_dirty.py:12-16 | any cent value that is nearest to `x` with ties away from zero is `Q2(x)`, so the rounding is fully determined |
| MoneyFacts.Q2OfWholeCents | src/checkout_dirty.py:12-16 | quantizing a value that already has two decimal places gives back that value, whatever its trailing zeros |
| MoneyFacts.Q2Idempotent | src/checkout_dirty.py:12-16 | `_q2(_q2(x)) == _q2(x)` |
| MoneyFacts.ApplyPercentNonNegative | src/checkout_dirty.py:94-102 | on non-negative amounts, `_q2(c * pct/100)` equals `(c * pct + 50) / 100` |
| MoneyFacts.ApplyPercentBounds | src/checkout_dirty.py:94-102 | a percentage of at most 100 keeps a non-negative amount between 0 and itself |
| Catalog.ParseShipping | src/checkout_dirty.py:28-43 | exactly the names "standard" and "express" are accepted, and each maps to the method of that name |
| Catalog.ParsePayment | src/checkout_dirty.py:150-163 | exactly "card", "bank_transfer" and "store_credit" are accepted, and each maps to the method of that name |
| CatalogFacts.ShippingNamesRoundTrip | src/checkout_dirty.py:28-31 | parsing a shipping method's name gives back that method |
| CatalogFacts.PaymentNamesRoundTrip | src/checkout_dirty.py:150-154 | parsing a payment method's name gives back that method |
| Validation.LineError | src/checkout_dirty.py:54-69 | a line passes iff its SKU is in the inventory and, unless the item is DIGITAL, a stock is recorded and the qty does not exceed it; an unknown SKU gives `UnknownSku`, a non-DIGITAL item without a stock gives `MissingStock`, and one whose qty exceeds its stock gives `InsufficientStock`, each for that SKU |
| Validation.FirstLineError | src/checkout_dirty.py:54-69 | when the scan finds no error, every line's SKU is in the inventory |
| Validation.FirstLineErrorSticks | src/checkout_dirty.py:54-58 | once a prefix of the lines has failed, the whole scan fails with that same error |
| Validation.NoLineErrorAt | src/checkout_dirty.py:54-69 | when the scan finds no error, no single line has one |
| Validation.FirstLineErrorIsFirst | src/checkout_dirty.py:54-69 | the scan finds no error iff every line passes; otherwise its error is that of a failing line all of whose predecessors pass |
| DiscountFacts.UnitPriceFinalFollowsRules | src/checkout_dirty.py:88-102 | the per-line coupon chain equals the ordered rule list applied in turn: BOOKLOVER 85% on BOOK, then SAVE10 90% on BOOK and STATIONERY, then BULK5 95% when the order's total qty is at least 10, each rounded half up |
| DiscountFacts.ApplyRulesBounds | src/checkout_dirty.py:88-102 | rules that keep at most 100% leave a non-negative price between 0 and the price |
| DiscountFacts.UnitPriceFinalBounds | src/checkout_dirty.py:88-102 | coupons never raise a unit price and never make it negative |
| DiscountFacts.UnitPriceFinalWithoutCoupons | src/checkout_dirty.py:88-102 | without an applicable coupon, the final unit price is the list price |
| DiscountFacts.DigitalOnlyBulk | src/checkout_dirty.py:96-102 | a DIGITAL line is discounted by BULK5 alone, to 95% rounded half up |
| DiscountFacts.LineSubtotalExact | src/checkout_dirty.py:105 | `_q2(unit_price_final * qty)` is exactly the product, because both factors are whole cents and whole units |
| Shipping.StartedKg | src/checkout_dirty.py:127-130 | the number of started kilograms of a positive excess weight is its ceiling: `(k-1) kg < over <= k kg` |
| ShippingFacts.ShippingCostRules | src/checkout_dirty.py:117-132 | shipping is 0 exactly for standard orders whose post-discount subtotal is at least 100.00; otherwise it is the base fee (5.00 / 10.00) up to 2 kg, and above that the base fee plus the rate (2.00 / 5.00) per started kilogram |
| ShippingFacts.ShippingMonotoneInWeight | src/checkout_dirty.py:121-131 | a heavier parcel never ships for less |
| ChargeFacts.LineTaxRule | src/checkout_dirty.py:134-140 | a line's tax is its subtotal times the category's rate (BOOK 4%, STATIONERY 19%, DIGITAL 0%) rounded half up; it lies between 0 and the subtotal, and is 0 on DIGITAL lines |
| ChargeFacts.CardFeeRule | src/checkout_dirty.py:150-151 | the card fee is 2% of the base total rounded half up, between 0 and the base total |
| Pipeline.PricedLines | src/checkout_dirty.py:81-112 | there is one priced line per order line, in order, each with the record's category, the coupon-discounted unit price and its line subtotal |
| Pipeline.WithTaxes | src/checkout_dirty.py:136-140 | the tax stage keeps every line and fills in its `tax_line` |
| Pipeline.Decrement | src/checkout_dirty.py:168-172 | one decrement changes no SKU's presence in the inventory |
| Pipeline.CommitStock | src/checkout_dirty.py:167-172 | the commit keeps the inventory's set of SKUs |
| Pipeline.CommitStockKeepsShape | src/checkout_dirty.py:167-172 | the commit changes only stock figures: categories stay the same, and so does whether a stock is recorded |
| CheckoutFacts.QuoteRejectsExactly | src/checkout_dirty.py:41-163 | a checkout fails iff the shipping method is unsupported, some line fails, the payment method is unsupported, or the method is store credit and the rounded credit is below the total |
| CheckoutFacts.QuoteReportsFirstError | src/checkout_dirty.py:41-163 | the error reported is that of the earliest failing stage: an invalid shipping method exactly when shipping does not parse; otherwise the first failing line's error when a line fails; otherwise an unsupported payment method exactly when payment does not parse, and insufficient store credit exactly when payment is store credit |
| MoneyFacts.Q2OfCents | src/checkout_dirty.py:12-16 | quantizing whole cents changes nothing |
| CheckoutFacts.WithTaxesKeepsSubtotals | src/checkout_dirty.py:136-140 | writing the taxes into the lines leaves the sum of their subtotals unchanged |
| CheckoutFacts.QuoteReceiptAddsUp | src/checkout_dirty.py:114-165 | on success, `subtotal_after_discounts` is the sum of the line subtotals, `tax_total` is the sum of the line taxes, and `total` = subtotal + tax + shipping + payment fee |
| CheckoutFacts.QuoteLines | src/checkout_dirty.py:81-140 | each receipt line matches the order line at its position: same SKU and qty, the record's category, the coupon-discounted unit price, a subtotal of exactly unit price × qty, and the category's tax on that subtotal |
| CheckoutFacts.QuotePayment | src/checkout_dirty.py:147-165 | card: fee is 2% of subtotal + tax + shipping, no hold; bank transfer: no fee, a 2-day hold; store credit: no fee, no hold, the rounded credit covers the total, and the credit left is exactly credit − total |
| CheckoutFacts.QuoteShipping | src/checkout_dirty.py:117-132 | the receipt's shipping is free iff standard and subtotal ≥ 100.00, its cost is 0 iff free and otherwise the rate for the order's total weight, and the receipt's weight is that total rounded to hundredths of a kg |
| CheckoutFacts.CommitStockEffect | src/checkout_dirty.py:167-172 | after the commit, a non-DIGITAL SKU's stock has dropped by the total qty its lines order; DIGITAL records are unchanged (a non-DIGITAL record without a stock never reaches the commit: the pre-scan rejects it first) |
| CheckoutFacts.CommitStockUntouched | src/checkout_dirty.py:167-172 | a SKU that no line orders keeps its record unchanged |
| CheckoutFacts.DistinctSkusKeepStockNonNegative | src/checkout_dirty.py:65-69 | when no SKU appears on two lines and the pre-scan passes, every ordered non-DIGITAL SKU ends with its stock minus its line's qty, which is not negative |
| CheckoutFacts.RepeatedSkuOversells | src/checkout_dirty.py:68 | the stock check is per line: two lines of 3 against a stock of 5 pass the pre-scan, and the commit leaves a stock of −1 |
| CheckoutFacts.SubtotalBeforeMonotone | src/checkout_dirty.py:72 | with non-negative prices, raising one line's qty never lowers the pre-discount subtotal |
| Checkout.PreScan | src/checkout_dirty.py:53-73 | the loop returns the first failing line's error, or, when every line passes, the qty, pre-discount subtotal and weight sums |
| Checkout.PriceLines | src/checkout_dirty.py:81-112 | the loop appends exactly the priced lines `PricedLines` describes |
| Checkout.ApplyTaxes | src/checkout_dirty.py:135-141 | the loop writes each line's tax in place, giving `WithTaxes`, and returns the sum of the line taxes |
| Checkout.CommitStockLevels | src/checkout_dirty.py:167-172 | the inventory after the loop is `CommitStock` of the inventory before it |
| Checkout.Pay | src/checkout_dirty.py:147-163 | an unknown method name is rejected; store credit below `_q2(base + fee)` is rejected with the credit untouched; otherwise it returns the method's fee and hold, and for store credit it reassigns the credit to `_q2(credit − total)` |
| Checkout.PriceStage | src/checkout_dirty.py:75-145 | the coupon, shipping and tax stages produce exactly `PriceOrder` |
| Checkout.Checkout | src/checkout_dirty.py:18-188 | the result is `Quote` of the order, the inventory and the credit at entry; a failure leaves inventory and credit unchanged; a success commits `CommitStock` and, for store credit only, leaves the credit reduced by the total |
| Scenarios.SimpleOrderCardStandard | tests/test_checkout.py:16-39 | a book and two notebooks by card: subtotal 40.00, tax 3.10, shipping 5.00, fee 0.96, total 49.06; stock left 9 and 98 |
| Scenarios.FreeShippingWithSave10BankTransfer | tests/test_checkout.py:41-60 | four books with SAVE10: subtotal 108.00, free shipping, tax 4.32, total 112.32, a 2-day hold |
| Scenarios.ExpressOverweightBulk5StoreCredit | tests/test_checkout.py:62-82 | BULK5, express, 2.6 kg: shipping 15.00, total 106.12, and 200.00 of credit leaves 93.88 |
| Scenarios.InsufficientStockRejected | tests/test_checkout.py:84-93 | 9999 pens against a stock of 50 are rejected with insufficient stock |
| Scenarios.BookLoverAndSave10Compose | tests/test_checkout.py:95-105 | BOOKLOVER then SAVE10 take 30.00 to 22.95, and the order's total is 46.93 |
| Scenarios.InsufficientStoreCreditRejected | tests/test_checkout.py:107-116 | a 36.20 order is rejected when the customer has 10.00 of store credit |

## Left out

- Prices and store credit are taken in whole cents, and weights in whole grams. The `Decimal(str(x))` conversions and the global decimal context are representation details. A price with more than two decimals, or a weight finer than a gram, is outside the model. Store credit is a general decimal and is quantized as the source does.
- Quantities are integers. The source converts `qty` to a `Decimal` and truncates it with `int(qty)` for `qty_total` and the receipt, so a fractional quantity is outside the model.
- Stock figures are integers. The source's `int(Decimal(str(stock)) - qty)` truncation on the commit is therefore the identity in the model.
- Categories are an enumeration of BOOK, STATIONERY and DIGITAL. The `KeyError` for an unknown category string at the tax stage is not modelled.
- Dictionary plumbing is not modelled: `or []`, `.get`, and the records' `name` field. The defaults are kept: shipping "standard", payment "card", and a credit of 0.00 when the customer or the key is missing. A stock key whose value is `None` reads the same as an absent one.
- Exceptions become `CheckoutError` values; the message texts are not modelled.
- A missing customer: the source writes the new credit into a fresh local dict that nobody sees. The model passes `null` and performs no write.
- Priced lines carry `taxLine` 0 until the tax stage fills it in. The source adds the `tax_line` key to each line dict at that point.
- Aliasing is not modelled. Inventory and customer are separate objects, and the inventory's records are values inside one map field, so a record shared with another reference is outside the model.
- Concurrency is not modelled.
- `tests/conftest.py` only adjusts the import path and is not part of this model.
