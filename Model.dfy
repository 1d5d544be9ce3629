/** The order snapshot read from the query endpoint, as declared in
    src/Model.ts. Only the fields some rule or operation looks at are kept;
    optional fields of the source are `Option`s, because the rules test them
    for presence. */
module Model {
  import opened Wrappers

  datatype OrderStatus = Pending | CheckOut | Reserved | Completed | Canceled | Timeout | Failed

  datatype PaymentStatus = Paid | PaymentPending | PaymentNone

  /** Line-item statuses are independent of the order status; the `Line`
      prefix keeps them apart from the order statuses of the same name. */
  datatype LineItemStatus =
    | LinePending | AwaitingClaim | LineReserved | LineCompleted | Removed | Returned

  datatype LineItemType = Access | Product

  datatype Currency = Currency(name: string, code: string, exponent: int, symbol: string)

  datatype RequiredPayment = RequiredPayment(currency: Currency, amount: real)

  /** A payment already recorded on the order; `psp` and `paymentMethod` are read by
      the loyalty-card rule. */
  datatype Payment = Payment(
    id: string, currency: Currency, amount: real, status: string,
    psp: Option<string>, paymentMethod: Option<string>)

  datatype LoyaltyCardPayment = LoyaltyCardPayment(currency: Currency, cardType: Option<string>, amount: real)

  datatype LineItem = LineItem(
    id: string, itemType: LineItemType, status: LineItemStatus,
    price: real, tax: real, currency: Option<Currency>, name: string)

  datatype OrderToken = OrderToken(id: string, typeId: string, token: string)

  datatype Order = Order(
    id: string,
    status: OrderStatus,
    customer: Option<string>,
    tokens: Option<seq<OrderToken>>,
    paymentStatus: Option<PaymentStatus>,
    payments: Option<seq<Payment>>,
    requiredPayments: Option<seq<RequiredPayment>>,
    requiredLoyaltyCardPayments: Option<seq<LoyaltyCardPayment>>,
    lineItems: Option<seq<LineItem>>)

  /** The currency code a line item is priced in, if it names a currency. */
  function LineCode(l: LineItem): Option<string> {
    if l.currency.Some? then Some(l.currency.value.code) else None
  }
}
