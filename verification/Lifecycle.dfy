/** Order lifecycle: what every order looks like in every reachable state, and what a
    processing pass does to it. */
module Lifecycle {
  import opened Schemas
  import opened BookLaws
  import opened Pricing
  import opened Risk
  import opened ExchangeModel
  import opened OrderState

  lemma TotalOfAppend(m: Moment, fills: seq<PaperFill>, f: PaperFill)
    ensures TotalOf(m, fills + [f]) == TotalOf(m, fills) + Part(m, f)
  {
    assert (fills + [f])[..|fills|] == fills;
  }

  /** Status and filled quantity always agree. */
  lemma FilledQuantityByStatus(o: PaperOrder)
    requires OrderOk(o)
    ensures 0.0 <= o.filledQuantity <= o.intent.quantity && |o.fills| <= 2
    ensures o.status == New ==> o.filledQuantity == 0.0
    ensures o.status == PartiallyFilled ==> 0.0 < o.filledQuantity < o.intent.quantity
    ensures o.status == Filled <==> o.filledQuantity == o.intent.quantity
    ensures o.Remaining() == o.intent.quantity - o.filledQuantity
    ensures o.fills == [] || |o.fills| == 1 ==>
              o.filledQuantity == if o.fills == [] then 0.0 else o.fills[0].quantity
  {
    if |o.fills| == 1 {
      assert o.fills == [] + [o.fills[0]];
      TotalOfAppend(Quantity, [], o.fills[0]);
    } else if |o.fills| == 2 {
      assert o.fills == [o.fills[0]] + [o.fills[1]];
      assert [o.fills[0]] == [] + [o.fills[0]];
      TotalOfAppend(Quantity, [], o.fills[0]);
      TotalOfAppend(Quantity, [o.fills[0]], o.fills[1]);
    }
  }

  // ---------------------------------------------------------------- one visit

  lemma FillQuantityOfOpen(o: PaperOrder, now: Time)
    requires OrderOk(o) && o.IsOpen()
    ensures Min(o.Remaining(), FillQuantity(o, now)) == Amount(o, now) > 0.0
  {
    FilledQuantityByStatus(o);
    BuiltInProbability(o.intent, now);
  }

  lemma VisitIs(o: PaperOrder, policies: seq<FeePolicy>, fillId: nat, eventId: nat, now: Time)
    requires OrderOk(o) && o.IsOpen()
    ensures var fill := MakeFill(o, Amount(o, now), MakerRate(policies, o.intent.symbol), fillId, now);
            Visit(o, policies, fillId, eventId, now)
            == Pass([AfterFill(o, fill)], [fill], [FillEvent(AfterFill(o, fill), eventId, now)])
  {
    FillQuantityOfOpen(o, now);
  }

  lemma FillOpen(o: PaperOrder, fill: PaperFill, now: Time)
    requires OrderOk(o) && o.IsOpen() && FillsOrder(fill, o) && fill.quantity == Amount(o, now)
    ensures OrderOk(AfterFill(o, fill)) && Progress(o, AfterFill(o, fill), now)
    ensures fill.quantity <= o.Remaining()
  {
    var after := AfterFill(o, fill);
    FilledQuantityByStatus(o);
    TotalOfAppend(Quantity, o.fills, fill);
    forall f | f in after.fills ensures FillsOrder(f, after) {
      assert f in o.fills || f == fill;
      assert FillsOrder(f, o);
    }
  }

  lemma VisitOpen(o: PaperOrder, policies: seq<FeePolicy>, fillId: nat, eventId: nat, now: Time)
    requires OrderOk(o) && o.IsOpen()
    ensures VisitFill(o, Visit(o, policies, fillId, eventId, now), policies, fillId, eventId, now)
    ensures OrderOk(Visit(o, policies, fillId, eventId, now).orders[0])
    ensures Progress(o, Visit(o, policies, fillId, eventId, now).orders[0], now)
  {
    VisitIs(o, policies, fillId, eventId, now);
    FillQuantityOfOpen(o, now);
    FillOpen(o, MakeFill(o, Amount(o, now), MakerRate(policies, o.intent.symbol), fillId, now), now);
  }

  lemma VisitClosed(o: PaperOrder, policies: seq<FeePolicy>, fillId: nat, eventId: nat, now: Time)
    requires !o.IsOpen()
    ensures Visit(o, policies, fillId, eventId, now) == Pass([o], [], [])
  {
  }

  lemma VisitProgress(o: PaperOrder, policies: seq<FeePolicy>, fillId: nat, eventId: nat, now: Time)
    requires OrderOk(o)
    ensures var v := Visit(o, policies, fillId, eventId, now);
            |v.orders| == 1 && OrderOk(v.orders[0]) && Progress(o, v.orders[0], now)
  {
    if o.IsOpen() {
      VisitOpen(o, policies, fillId, eventId, now);
    } else {
      VisitClosed(o, policies, fillId, eventId, now);
    }
  }

  lemma VisitSize(o: PaperOrder, policies: seq<FeePolicy>, fillId: nat, eventId: nat, now: Time)
    ensures var v := Visit(o, policies, fillId, eventId, now);
            |v.orders| == 1 && |v.fills| == |v.events| <= 1
  {
  }

  lemma {:induction false} PassLength(
    orders: seq<PaperOrder>, k: nat, policies: seq<FeePolicy>, fillBase: nat, eventBase: nat, now: Time)
    requires k <= |orders|
    ensures var p := VisitUpTo(orders, k, policies, fillBase, eventBase, now);
            |p.orders| == k && |p.fills| == |p.events|
  {
    hide Visit;
    if k != 0 {
      var done := VisitUpTo(orders, k - 1, policies, fillBase, eventBase, now);
      PassLength(orders, k - 1, policies, fillBase, eventBase, now);
      VisitSize(orders[k - 1], policies, fillBase + |done.fills| + 1, eventBase + |done.events| + 1, now);
    }
  }

  /** The numbers the `i`-th order's fill and event get in a pass. */
  function FillIdAt(
    orders: seq<PaperOrder>, i: nat, policies: seq<FeePolicy>, fillBase: nat, eventBase: nat, now: Time): nat
    requires i <= |orders|
  {
    fillBase + |VisitUpTo(orders, i, policies, fillBase, eventBase, now).fills| + 1
  }

  function EventIdAt(
    orders: seq<PaperOrder>, i: nat, policies: seq<FeePolicy>, fillBase: nat, eventBase: nat, now: Time): nat
    requires i <= |orders|
  {
    eventBase + |VisitUpTo(orders, i, policies, fillBase, eventBase, now).events| + 1
  }

  /** The pass is a map: the `i`-th order afterwards is what visiting it alone leaves of it. */
  lemma {:induction false} PassIsAMap(
    orders: seq<PaperOrder>, k: nat, policies: seq<FeePolicy>, fillBase: nat, eventBase: nat, now: Time, i: nat)
    requires i < k <= |orders|
    ensures var p := VisitUpTo(orders, k, policies, fillBase, eventBase, now);
            && |p.orders| == k
            && [p.orders[i]] == Visit(orders[i], policies, FillIdAt(orders, i, policies, fillBase, eventBase, now),
                                      EventIdAt(orders, i, policies, fillBase, eventBase, now), now).orders
    decreases k
  {
    hide Visit;
    var done := VisitUpTo(orders, k - 1, policies, fillBase, eventBase, now);
    PassLength(orders, k - 1, policies, fillBase, eventBase, now);
    VisitSize(orders[k - 1], policies, fillBase + |done.fills| + 1, eventBase + |done.events| + 1, now);
    if i < k - 1 {
      PassIsAMap(orders, k - 1, policies, fillBase, eventBase, now, i);
    }
  }

  /** Every order is visited exactly once and makes its own progress, whatever the others do. */
  lemma PassProgress(
    orders: seq<PaperOrder>, policies: seq<FeePolicy>, fillBase: nat, eventBase: nat, now: Time)
    requires forall i :: 0 <= i < |orders| ==> OrderOk(orders[i])
    ensures var p := VisitUpTo(orders, |orders|, policies, fillBase, eventBase, now);
            && |p.orders| == |orders|
            && forall i :: 0 <= i < |orders| ==> OrderOk(p.orders[i]) && Progress(orders[i], p.orders[i], now)
  {
    hide VisitUpTo, Visit, OrderOk, Progress;
    var p := VisitUpTo(orders, |orders|, policies, fillBase, eventBase, now);
    PassLength(orders, |orders|, policies, fillBase, eventBase, now);
    forall i | 0 <= i < |orders| ensures OrderOk(p.orders[i]) && Progress(orders[i], p.orders[i], now) {
      PassIsAMap(orders, |orders|, policies, fillBase, eventBase, now, i);
      VisitProgress(orders[i], policies, FillIdAt(orders, i, policies, fillBase, eventBase, now),
                    EventIdAt(orders, i, policies, fillBase, eventBase, now), now);
    }
  }

  /** A pass over closed orders does nothing. */
  lemma {:induction false} ClosedPassIsIdle(
    orders: seq<PaperOrder>, k: nat, policies: seq<FeePolicy>, fillBase: nat, eventBase: nat, now: Time)
    requires k <= |orders| && forall i :: 0 <= i < |orders| ==> !orders[i].IsOpen()
    ensures VisitUpTo(orders, k, policies, fillBase, eventBase, now) == Pass(orders[..k], [], [])
  {
    hide Visit;
    if k != 0 {
      ClosedPassIsIdle(orders, k - 1, policies, fillBase, eventBase, now);
      VisitClosed(orders[k - 1], policies, fillBase + 1, eventBase + 1, now);
      assert orders[..k] == orders[..k - 1] + [orders[k - 1]];
    }
  }

  // ---------------------------------------------------------------- every step, every run

  lemma NewOrderIsOk(orderId: nat, intent: PaperOrderIntent, now: Time)
    requires intent.quantity > 0.0 && intent.limitPrice > 0.0
    requires intent.symbol == BTCUSDC || intent.symbol == ETHUSDC
    ensures OrderOk(NewOrder(orderId, intent, now)) && NewOrder(orderId, intent, now).orderId == orderId
  {
  }

  lemma AppendKeepsOrders(orders: seq<PaperOrder>, o: PaperOrder)
    requires OrdersOk(orders) && OrderOk(o) && o.orderId == |orders| + 1
    ensures OrdersOk(orders + [o])
  {
    hide OrderOk;
  }

  lemma SubmitKeepsOrders(s: ExchangeState, intent: PaperOrderIntent, now: Time)
    requires OrdersOk(s.orders)
    ensures OrdersOk(Submit(s, intent, now).orders)
  {
    hide OrdersOk, OrderOk, Vetoes, NewOrder;
    if Admits(s, intent, now) {
      AdmittedIntent(s, intent, now);
      NewOrderIsOk(|s.orders| + 1, intent, now);
      AppendKeepsOrders(s.orders, NewOrder(|s.orders| + 1, intent, now));
    }
  }

  /** Every order on the book was previewed and passed the gate. */
  lemma AdmittedIntent(s: ExchangeState, intent: PaperOrderIntent, now: Time)
    requires Admits(s, intent, now)
    ensures PreviewOrder(s, intent, now).accepted
    ensures EvaluatePaperOrderRisk(s.account, intent, PreviewOrder(s, intent, now), PreviewQuote(intent.symbol, now),
                                   DEFAULT_LIMITS, s.riskState, now).accepted
    ensures QuoteFor(intent.symbol, now) == Some(PreviewQuote(intent.symbol, now))
    ensures intent.quantity > 0.0 && intent.limitPrice > 0.0
    ensures intent.symbol == BTCUSDC || intent.symbol == ETHUSDC
  {
    PreviewAccepts(s.account, s.halted, s.takerGateEnabled, intent, now);
  }

  lemma CloseKeepsOrder(o: PaperOrder, status: OrderStatus, now: Time)
    requires OrderOk(o) && (status == Canceled || status == Expired)
    ensures OrderOk(Close(o, status, now)) && Close(o, status, now).orderId == o.orderId
  {
    var c := Close(o, status, now);
    assert c.fills == o.fills;
    forall f | f in c.fills ensures FillsOrder(f, c) {
      assert FillsOrder(f, o);
    }
  }

  lemma CloseNamedKeepsOrders(orders: seq<PaperOrder>, orderId: nat, status: OrderStatus, now: Time)
    requires OrdersOk(orders) && (status == Canceled || status == Expired)
    ensures OrdersOk(CloseNamed(orders, orderId, status, now))
  {
    forall i | 0 <= i < |orders|
      ensures OrderOk(CloseNamed(orders, orderId, status, now)[i])
      ensures CloseNamed(orders, orderId, status, now)[i].orderId == i + 1
    {
      CloseKeepsOrder(orders[i], status, now);
    }
  }

  lemma CloseAllKeepsOrders(orders: seq<PaperOrder>, now: Time)
    requires OrdersOk(orders)
    ensures OrdersOk(CloseAll(orders, now))
  {
    forall i | 0 <= i < |orders|
      ensures OrderOk(CloseAll(orders, now)[i]) && CloseAll(orders, now)[i].orderId == i + 1
    {
      CloseKeepsOrder(orders[i], Canceled, now);
    }
  }

  lemma ProcessKeepsOrders(s: ExchangeState, now: Time)
    requires OrdersOk(s.orders)
    ensures OrdersOk(Process(s, now).orders)
  {
    PassProgress(s.orders, s.account.feePolicies, TotalFills(s.orders), |s.events|, now);
  }

  lemma StepKeepsOrders(s: ExchangeState, op: Operation)
    requires OrdersOk(s.orders)
    ensures OrdersOk(Step(s, op).orders)
  {
    hide OrdersOk, Submit, Process, CloseNamed, CloseAll;
    match op
    case SubmitOp(intent, now) => SubmitKeepsOrders(s, intent, now);
    case ProcessOp(now) => ProcessKeepsOrders(s, now);
    case CancelOp(orderId, now, _) => CloseNamedKeepsOrders(s.orders, orderId, Canceled, now);
    case ExpireOp(orderId, now) => CloseNamedKeepsOrders(s.orders, orderId, Expired, now);
    case PanicCancelOp(now) => CloseAllKeepsOrders(s.orders, now);
    case PanicFlattenOp(_, _) =>
    case PanicHaltOp =>
    case ResetOp(_) => NoOrdersAreOk();
  }

  lemma NoOrdersAreOk()
    ensures OrdersOk([])
  {
  }

  /** Lifecycle invariant: in every reachable state every order is well formed, so its status,
      filled quantity and fills agree, it has at most two fills, and ids follow the list. */
  lemma {:induction false} RunKeepsOrders(s: ExchangeState, ops: seq<Operation>)
    requires OrdersOk(s.orders)
    ensures OrdersOk(Run(s, ops).orders)
  {
    hide OrdersOk, Step;
    if ops != [] {
      var n := |ops| - 1;
      RunKeepsOrders(s, ops[..n]);
      StepKeepsOrders(Run(s, ops[..n]), ops[n]);
    }
  }
}
