/** The messages the agents exchange, with Decimal and float read as exact reals. */
module Messages {
  import opened Prelude

  datatype Direction = Buy | Sell | Hold

  datatype OrderSide = Bid | Ask

  datatype OrderType = Limit | Market

  datatype OrderStatus = Filled | Partial | Cancelled | Failed

  datatype SignalMessage = SignalMessage(market: string, direction: Direction, confidence: real, strategy: string)

  /** A signal as the schema admits it: confidence lies in [0, 1]. */
  type Signal = s: SignalMessage | 0.0 <= s.confidence <= 1.0
    witness SignalMessage("", Hold, 0.0, "")

  datatype OrderRequest = OrderRequest(
    market: string, side: OrderSide, orderType: OrderType,
    price: Option<real>, volume: Option<real>, amountKrw: Option<real>)

  datatype OrderResult = OrderResult(
    orderUuid: string, market: string, side: OrderSide, status: OrderStatus,
    executedVolume: real, executedPrice: real, fee: real)

  /** An optional Decimal counts as present only when it is given and nonzero. */
  predicate Truthy(x: Option<real>) {
    x.Some? && x.value != 0.0
  }

  /** `x or y` on optional decimals. */
  function OrElse(x: Option<real>, y: Option<real>): Option<real> {
    if Truthy(x) then x else y
  }

  /** `x or 0` on an optional decimal. */
  function OrZero(x: Option<real>): real {
    x.GetOr(0.0)
  }
}
