/** Per-line tax and the payment method's fee and hold. */
module Charges {
  import opened Money
  import opened Catalog

  /** Tax rate of a category, in percent. */
  function TaxRatePercent(c: Category): int {
    match c
    case Book => 4
    case Stationery => 19
    case Digital => 0
  }

  /** `_q2(line_subtotal * rate)`. */
  function LineTax(lineSubtotal: int, c: Category): int {
    ApplyPercent(lineSubtotal, TaxRatePercent(c))
  }

  const CardFeePercent: int := 2
  const BankTransferHoldDays: int := 2

  /** Card payments carry a 2% fee on the base total; the other methods none. */
  function PaymentFee(m: PaymentMethod, baseTotal: int): int {
    if m == Card then ApplyPercent(baseTotal, CardFeePercent) else 0
  }

  function HoldDays(m: PaymentMethod): int {
    if m == BankTransfer then BankTransferHoldDays else 0
  }
}

module ChargeFacts {
  import opened Money
  import opened MoneyFacts
  import opened Catalog
  import opened Charges

  /** Tax on a non-negative subtotal is the rate applied half up: between zero
      and the subtotal, and nothing at all on DIGITAL lines. */
  lemma LineTaxRule(lineSubtotal: int, c: Category)
    requires lineSubtotal >= 0
    ensures LineTax(lineSubtotal, c) == (lineSubtotal * TaxRatePercent(c) + 50) / 100
    ensures 0 <= LineTax(lineSubtotal, c) <= lineSubtotal
    ensures c == Digital ==> LineTax(lineSubtotal, c) == 0
  {
    ApplyPercentNonNegative(lineSubtotal, TaxRatePercent(c));
    ApplyPercentBounds(lineSubtotal, TaxRatePercent(c));
  }

  /** The card fee on a non-negative base total is 2% rounded half up. */
  lemma CardFeeRule(baseTotal: int)
    requires baseTotal >= 0
    ensures PaymentFee(Card, baseTotal) == (baseTotal * 2 + 50) / 100
    ensures 0 <= PaymentFee(Card, baseTotal) <= baseTotal
  {
    ApplyPercentNonNegative(baseTotal, 2);
    ApplyPercentBounds(baseTotal, 2);
  }
}
