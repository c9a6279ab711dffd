/** The immutable values the live order board consumes and produces. */
module Values {

  /** The side of an order. */
  datatype OrderType = Buy | Sell

  /** Order quantities are positive; callers validate them before registering. */
  type Quantity = q: real | q > 0.0 witness 1.0

  /**
    * An order as a plain value: two orders are the same order exactly when
    * all four fields agree, which is what cancellation compares.
    */
  datatype Order = Order(userId: string, quantity: Quantity, price: real, orderType: OrderType)

  /** One line of a summary: the aggregate quantity offered at one price. */
  datatype SummaryEntry = SummaryEntry(quantity: real, price: real)

  /** A snapshot of both sides, each as a list of price levels. */
  datatype Summary = Summary(buyOrders: seq<SummaryEntry>, sellOrders: seq<SummaryEntry>)
}
