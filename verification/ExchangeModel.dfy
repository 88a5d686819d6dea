/** The paper exchange as a state machine (services/paper_exchange/exchange.py): one state,
    one transition per public operation, and runs as sequences of operations. */
module ExchangeModel {
  import opened Schemas
  import opened Accounting
  import opened Pricing
  import opened Risk

  datatype ExchangeState = ExchangeState(
    account: AccountState, orders: seq<PaperOrder>, events: seq<ReconciliationEvent>,
    takerGateEnabled: bool, riskState: PaperRiskState, halted: bool)

  function Initial(account: AccountState, takerGateEnabled: bool): ExchangeState {
    ExchangeState(account, [], [], takerGateEnabled, CALM, false)
  }

  /** Appends an event under the next event number. */
  function Log(s: ExchangeState, subject: Subject, status: ReconciliationStatus, reasons: seq<Reason>, now: Time)
    : ExchangeState
  {
    s.(events := s.events + [ReconciliationEvent(|s.events| + 1, subject, status, reasons, now)])
  }

  // ---------------------------------------------------------------- submit

  function PreviewOrder(s: ExchangeState, intent: PaperOrderIntent, now: Time): PaperOrderPreview {
    Preview(s.account, s.halted, s.takerGateEnabled, intent, now)
  }

  /** The reasons a submit is turned down: the preview's, or failing those the risk gate's. */
  function Vetoes(s: ExchangeState, intent: PaperOrderIntent, now: Time): seq<Reason> {
    var preview := PreviewOrder(s, intent, now);
    if !preview.accepted then preview.reasons
    else
      EvaluatePaperOrderRisk(
        s.account, intent, preview, PreviewQuote(intent.symbol, now), DEFAULT_LIMITS, s.riskState, now).reasons
  }

  predicate Admits(s: ExchangeState, intent: PaperOrderIntent, now: Time) {
    Vetoes(s, intent, now) == []
  }

  function NewOrder(orderId: nat, intent: PaperOrderIntent, now: Time): PaperOrder {
    PaperOrder(orderId, intent, New, now, now, None, [], 0.0)
  }

  function Submit(s: ExchangeState, intent: PaperOrderIntent, now: Time): ExchangeState {
    var orderId := |s.orders| + 1;
    if Admits(s, intent, now) then
      Log(s.(orders := s.orders + [NewOrder(orderId, intent, now)]), ForOrder(orderId), Resting, [OrderAccepted], now)
    else
      Log(s, ForOrder(orderId), Rejected, Vetoes(s, intent, now), now)
  }

  // ---------------------------------------------------------------- process

  function FillsUpTo(orders: seq<PaperOrder>, k: nat): nat
    requires k <= |orders|
  {
    if k == 0 then 0 else FillsUpTo(orders, k - 1) + |orders[k - 1].fills|
  }

  /** `sum(len(item.fills) for item in orders)` */
  function TotalFills(orders: seq<PaperOrder>): nat {
    FillsUpTo(orders, |orders|)
  }

  /** How much of an order one pass wants to fill; nothing when it is closed or unquoted. */
  function FillQuantity(o: PaperOrder, now: Time): real {
    var quote := QuoteFor(o.intent.symbol, now);
    if !o.IsOpen() || quote == None then 0.0
    else
      var probability := QueueFillProbability(o.intent, quote.value);
      if probability >= 0.6 || o.status == PartiallyFilled then o.Remaining()
      else if probability >= 0.25 then Min(o.Remaining(), o.intent.quantity / 2.0)
      else 0.0
  }

  function MakeFill(o: PaperOrder, quantity: real, rate: real, fillId: nat, now: Time): PaperFill {
    PaperFill(fillId, o.orderId, o.intent.symbol, o.intent.side, o.intent.bookSide,
              quantity, o.intent.limitPrice, quantity * o.intent.limitPrice * rate, now)
  }

  function AfterFill(o: PaperOrder, fill: PaperFill): PaperOrder {
    var filled := o.filledQuantity + fill.quantity;
    o.(status := if filled >= o.intent.quantity then Filled else PartiallyFilled,
       updatedAt := fill.createdAt, fill := Some(fill), fills := o.fills + [fill], filledQuantity := filled)
  }

  function FillEvent(o: PaperOrder, eventId: nat, now: Time): ReconciliationEvent {
    ReconciliationEvent(eventId, ForOrder(o.orderId), if o.status == Filled then Matched else PartialFill,
                        [QueueFillApplied], now)
  }

  /** What one pass produces over a list of orders. */
  datatype Pass = Pass(orders: seq<PaperOrder>, fills: seq<PaperFill>, events: seq<ReconciliationEvent>)

  /** One order visited once: the order afterwards, with its fill and event if it filled. */
  function Visit(o: PaperOrder, policies: seq<FeePolicy>, fillId: nat, eventId: nat, now: Time): Pass {
    var quantity := Min(o.Remaining(), FillQuantity(o, now));
    if quantity <= 0.0 then Pass([o], [], [])
    else
      var fill := MakeFill(o, quantity, MakerRate(policies, o.intent.symbol), fillId, now);
      var after := AfterFill(o, fill);
      Pass([after], [fill], [FillEvent(after, eventId, now)])
  }

  /** The pass over the first `k` orders: each is visited once, on its own, with fill and event
      numbers continuing from `fillBase` and `eventBase` in list order. */
  function VisitUpTo(
    orders: seq<PaperOrder>, k: nat, policies: seq<FeePolicy>, fillBase: nat, eventBase: nat, now: Time): Pass
    requires k <= |orders|
  {
    if k == 0 then Pass([], [], [])
    else
      var done := VisitUpTo(orders, k - 1, policies, fillBase, eventBase, now);
      var last := Visit(orders[k - 1], policies, fillBase + |done.fills| + 1, eventBase + |done.events| + 1, now);
      Pass(done.orders + last.orders, done.fills + last.fills, done.events + last.events)
  }

  function PassOf(s: ExchangeState, now: Time): Pass {
    VisitUpTo(s.orders, |s.orders|, s.account.feePolicies, TotalFills(s.orders), |s.events|, now)
  }

  /** Map the orders, fold the fills into the account, append the events. */
  function Process(s: ExchangeState, now: Time): ExchangeState {
    var p := PassOf(s, now);
    s.(orders := p.orders, account := ApplyFills(s.account, p.fills), events := s.events + p.events)
  }

  // ---------------------------------------------------------------- one fill, in place

  /** `[updated if item.order_id == updated.order_id else item for item in orders]` */
  function ReplaceById(orders: seq<PaperOrder>, updated: PaperOrder): seq<PaperOrder> {
    seq(|orders|, i requires 0 <= i < |orders| => if orders[i].orderId == updated.orderId then updated else orders[i])
  }

  /** `_fill_order`: fills at most what remains of `order`, replaces it in the list by id, books
      the fill and logs it; does nothing for a non-positive quantity. */
  function FillInPlace(s: ExchangeState, order: PaperOrder, fillQuantity: real, now: Time)
    : (ExchangeState, PaperOrder)
  {
    var quantity := Min(order.Remaining(), fillQuantity);
    if quantity <= 0.0 then (s, order)
    else
      var fill := MakeFill(order, quantity, MakerRate(s.account.feePolicies, order.intent.symbol),
                           TotalFills(s.orders) + 1, now);
      var updated := AfterFill(order, fill);
      (s.(orders := ReplaceById(s.orders, updated), account := ApplyPaperFill(s.account, fill),
          events := s.events + [FillEvent(updated, |s.events| + 1, now)]),
       updated)
  }

  // ---------------------------------------------------------------- cancel, expire, panic, reset

  predicate Known(s: ExchangeState, orderId: nat) {
    exists i :: 0 <= i < |s.orders| && s.orders[i].orderId == orderId
  }

  function WithStatus(o: PaperOrder, status: OrderStatus, now: Time): PaperOrder {
    o.(status := status, updatedAt := now)
  }

  function Close(o: PaperOrder, status: OrderStatus, now: Time): PaperOrder {
    if o.IsOpen() then WithStatus(o, status, now) else o
  }

  function CloseNamed(orders: seq<PaperOrder>, orderId: nat, status: OrderStatus, now: Time): seq<PaperOrder> {
    seq(|orders|, i requires 0 <= i < |orders| =>
      if orders[i].orderId == orderId then Close(orders[i], status, now) else orders[i])
  }

  function CloseAll(orders: seq<PaperOrder>, now: Time): seq<PaperOrder> {
    seq(|orders|, i requires 0 <= i < |orders| => Close(orders[i], Canceled, now))
  }

  /** A cancel request is logged for every known order, open or not. */
  function Cancel(s: ExchangeState, orderId: nat, now: Time, loggedAt: Time): ExchangeState {
    if !Known(s, orderId) then s
    else Log(s.(orders := CloseNamed(s.orders, orderId, Canceled, now)), ForOrder(orderId), CancelRecorded,
             [CancelRequested], loggedAt)
  }

  /** An expiry is logged only when it closes an open order. */
  function Expire(s: ExchangeState, orderId: nat, now: Time): ExchangeState {
    if !exists i :: 0 <= i < |s.orders| && s.orders[i].orderId == orderId && s.orders[i].IsOpen() then s
    else Log(s.(orders := CloseNamed(s.orders, orderId, Expired, now)), ForOrder(orderId), ExpiryRecorded,
             [LifecycleExpired], now)
  }

  function PanicCancel(s: ExchangeState, now: Time): ExchangeState {
    Log(s.(orders := CloseAll(s.orders, now)), AllOpenOrders, CancelRecorded, [PanicCancelRecorded], now)
  }

  /** Renews the account; orders, open ones included, stay. */
  function PanicFlatten(s: ExchangeState, now: Time, loggedAt: Time): ExchangeState {
    Log(s.(account := DefaultAccountState(now)), AllPositions, Matched, [PositionsFlattened], loggedAt)
  }

  function PanicHalt(s: ExchangeState): ExchangeState {
    s.(halted := true, riskState := CALM.(panicHaltActive := true))
  }

  /** Lifts the halt flag but not the risk state. */
  function Reset(s: ExchangeState, now: Time): ExchangeState {
    s.(account := DefaultAccountState(now), orders := [], events := [], halted := false)
  }

  // ---------------------------------------------------------------- runs

  datatype Operation =
    | SubmitOp(intent: PaperOrderIntent, now: Time)
    | ProcessOp(now: Time)
    | CancelOp(orderId: nat, now: Time, loggedAt: Time)
    | ExpireOp(orderId: nat, now: Time)
    | PanicCancelOp(now: Time)
    | PanicFlattenOp(now: Time, loggedAt: Time)
    | PanicHaltOp
    | ResetOp(now: Time)

  function Step(s: ExchangeState, op: Operation): ExchangeState {
    match op
    case SubmitOp(intent, now) => Submit(s, intent, now)
    case ProcessOp(now) => Process(s, now)
    case CancelOp(orderId, now, loggedAt) => Cancel(s, orderId, now, loggedAt)
    case ExpireOp(orderId, now) => Expire(s, orderId, now)
    case PanicCancelOp(now) => PanicCancel(s, now)
    case PanicFlattenOp(now, loggedAt) => PanicFlatten(s, now, loggedAt)
    case PanicHaltOp => PanicHalt(s)
    case ResetOp(now) => Reset(s, now)
  }

  function Run(s: ExchangeState, ops: seq<Operation>): ExchangeState {
    if ops == [] then s else Step(Run(s, ops[..|ops| - 1]), ops[|ops| - 1])
  }
}
