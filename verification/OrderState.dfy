/** What a well-formed order is, and what one processing pass makes of it. */
module OrderState {
  import opened Schemas
  import opened BookLaws
  import opened Pricing
  import opened ExchangeModel

  /** A fill on the order's own terms. */
  predicate FillsOrder(f: PaperFill, o: PaperOrder) {
    && f.orderId == o.orderId && f.symbol == o.intent.symbol && f.side == o.intent.side
    && f.bookSide == o.intent.bookSide && f.price == o.intent.limitPrice && f.quantity > 0.0
  }

  /** An order fills whole, or in two exact halves; it is closed early with at most one half filled. */
  predicate FillShape(o: PaperOrder) {
    var half := o.intent.quantity / 2.0;
    match o.status
    case New => o.fills == []
    case PartiallyFilled => |o.fills| == 1 && o.fills[0].quantity == half
    case Filled =>
      || (|o.fills| == 1 && o.fills[0].quantity == o.intent.quantity)
      || (|o.fills| == 2 && o.fills[0].quantity == half && o.fills[1].quantity == half)
    case Canceled => o.fills == [] || (|o.fills| == 1 && o.fills[0].quantity == half)
    case Expired => o.fills == [] || (|o.fills| == 1 && o.fills[0].quantity == half)
  }

  predicate OrderOk(o: PaperOrder) {
    && o.intent.quantity > 0.0 && o.intent.limitPrice > 0.0
    && (o.intent.symbol == BTCUSDC || o.intent.symbol == ETHUSDC)
    && FillShape(o)
    && (forall f :: f in o.fills ==> FillsOrder(f, o))
    && o.filledQuantity == TotalOf(Quantity, o.fills)
    && o.fill == if o.fills == [] then None else Some(o.fills[|o.fills| - 1])
  }

  /** Orders are numbered by their place in the list. */
  ghost predicate OrdersOk(orders: seq<PaperOrder>) {
    forall i :: 0 <= i < |orders| ==> OrderOk(orders[i]) && orders[i].orderId == i + 1
  }

  /** The status a pass leaves an order in, under the built-in quotes. */
  function NextStatus(o: PaperOrder, now: Time): OrderStatus {
    if !o.IsOpen() || QuoteFor(o.intent.symbol, now) == None then o.status
    else if o.status == PartiallyFilled
            || PlacementOf(o.intent, QuoteFor(o.intent.symbol, now).value) == BetterThanTouch
    then Filled
    else PartiallyFilled
  }

  /** What a pass does to an order. */
  predicate Progress(o: PaperOrder, after: PaperOrder, now: Time) {
    && after.orderId == o.orderId && after.intent == o.intent && after.createdAt == o.createdAt
    && o.fills <= after.fills && after.status == NextStatus(o, now)
    && (!o.IsOpen() ==> after == o)
  }

  /** What a pass fills of an open order: all of a new one priced better than the touch,
      otherwise exactly half of the original quantity. */
  function Amount(o: PaperOrder, now: Time): real {
    if o.status == New && NextStatus(o, now) == Filled then o.intent.quantity else o.intent.quantity / 2.0
  }

  /** The one fill an open order gets in a pass. */
  predicate VisitFill(o: PaperOrder, v: Pass, policies: seq<FeePolicy>, fillId: nat, eventId: nat, now: Time) {
    && |v.orders| == |v.fills| == |v.events| == 1
    && v.orders[0] == AfterFill(o, v.fills[0])
    && v.orders[0].fills == o.fills + v.fills
    && FillsOrder(v.fills[0], o) && v.fills[0].fillId == fillId
    && v.fills[0].quantity == Amount(o, now)
    && v.fills[0].fee == v.fills[0].quantity * v.fills[0].price * MakerRate(policies, o.intent.symbol)
    && v.events[0] == FillEvent(v.orders[0], eventId, now)
  }
}
