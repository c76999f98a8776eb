/**
 * The values a checkout works on: inventory records, order lines, the
 * supported shipping and payment methods, the rejection kinds, and the
 * receipt. Money is in whole cents, weight in grams (thousandths of a kg).
 */
module Catalog {
  import opened Wrappers
  import opened Money

  datatype Category = Book | Stationery | Digital

  /** One inventory entry; `stock` may be absent, which only DIGITAL items tolerate. */
  datatype Record = Record(category: Category, price: int, weight: int, stock: Option<int>)

  /** The inventory mapping, keyed by SKU. */
  type Records = map<string, Record>

  datatype OrderLine = OrderLine(sku: string, qty: int)

  /** An order as the caller hands it in; absent methods take the defaults below. */
  datatype Order = Order(
    lines: seq<OrderLine>,
    shipping: Option<string>,
    coupons: seq<string>,
    payment: Option<string>)

  const DefaultShipping: string := "standard"
  const DefaultPayment: string := "card"

  /** The shipping method named by the order, or the default. */
  function ShippingChoice(order: Order): string {
    order.shipping.GetOr(DefaultShipping)
  }

  /** The payment method named by the order, or the default. */
  function PaymentChoice(order: Order): string {
    order.payment.GetOr(DefaultPayment)
  }

  datatype ShippingMethod = Standard | Express

  function ShippingName(m: ShippingMethod): string {
    match m
    case Standard => "standard"
    case Express => "express"
  }

  /** Recognises exactly the names of the supported shipping methods. */
  function ParseShipping(s: string): (m: Option<ShippingMethod>)
    ensures m.Some? ==> ShippingName(m.value) == s
    ensures m.None? ==> s != ShippingName(Standard) && s != ShippingName(Express)
  {
    if s == "standard" then Some(Standard)
    else if s == "express" then Some(Express)
    else None
  }

  datatype PaymentMethod = Card | BankTransfer | StoreCredit

  function PaymentName(m: PaymentMethod): string {
    match m
    case Card => "card"
    case BankTransfer => "bank_transfer"
    case StoreCredit => "store_credit"
  }

  /** Recognises exactly the names of the supported payment methods. */
  function ParsePayment(s: string): (m: Option<PaymentMethod>)
    ensures m.Some? ==> PaymentName(m.value) == s
    ensures m.None? ==> s != PaymentName(Card) && s != PaymentName(BankTransfer)
                        && s != PaymentName(StoreCredit)
  {
    if s == "card" then Some(Card)
    else if s == "bank_transfer" then Some(BankTransfer)
    else if s == "store_credit" then Some(StoreCredit)
    else None
  }

  /** The ways a checkout is rejected; each leaves inventory and customer untouched. */
  datatype CheckoutError =
    | InvalidShippingMethod
    | UnknownSku(sku: string)
    | MissingStock(sku: string)
    | InsufficientStock(sku: string)
    | UnsupportedPaymentMethod
    | InsufficientStoreCredit

  /** A priced line; `taxLine` is filled in by the tax stage. */
  datatype LineResult = LineResult(
    sku: string,
    category: Category,
    qty: int,
    unitPriceFinal: int,
    lineSubtotal: int,
    taxLine: int)

  /** The receipt; `weight` is in hundredths of a kilogram. */
  datatype Receipt = Receipt(
    lines: seq<LineResult>,
    subtotalBeforeDiscounts: int,
    subtotalAfterDiscounts: int,
    shippingCost: int,
    taxTotal: int,
    paymentFee: int,
    total: int,
    holdDays: int,
    freeShipping: bool,
    weight: int,
    paymentMethod: string,
    shippingMethod: string)
}

/** The name/parse round trips of the method enumerations. */
module CatalogFacts {
  import opened Wrappers
  import opened Catalog

  lemma ShippingNamesRoundTrip(m: ShippingMethod)
    ensures ParseShipping(ShippingName(m)) == Some(m)
  {
  }

  lemma PaymentNamesRoundTrip(m: PaymentMethod)
    ensures ParsePayment(PaymentName(m)) == Some(m)
  {
  }
}
