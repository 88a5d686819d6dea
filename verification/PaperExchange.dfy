/** The exchange object itself (services/paper_exchange/exchange.py): its methods update its
    fields in place, and each is the transition of the state machine it is named after. */
module PaperExchange {
  import opened Schemas
  import opened Accounting
  import opened Pricing
  import opened Risk
  import opened ExchangeModel
  import opened OrderState
  import opened Lifecycle
  import opened EventLog
  import opened Settlement

  datatype SubmitResult = SubmitResult(
    accepted: bool, preview: PaperOrderPreview, order: Option<PaperOrder>, event: ReconciliationEvent,
    risk: Option<PaperRiskResult>)

  /** What a pass reports of an order it looked at. */
  datatype ProcessedRow = ProcessedRow(
    orderId: nat, status: OrderStatus, filledQuantity: real, remainingQuantity: real, probability: real)

  datatype CancelReply = NotFound | CancelLogged(canceled: bool)
  datatype ExpireReply = NoSuchOrder | NotOpen | ExpiredNow

  // ---------------------------------------------------------------- the pass in place is the pass as a map

  /** The state after `k` orders of a pass: visited orders first, the rest as they were. */
  function Midway(s: ExchangeState, k: nat, now: Time): ExchangeState
    requires k <= |s.orders|
  {
    var p := VisitUpTo(s.orders, k, s.account.feePolicies, TotalFills(s.orders), |s.events|, now);
    s.(orders := p.orders + s.orders[k..], account := ApplyFills(s.account, p.fills), events := s.events + p.events)
  }

  lemma {:induction false} FillsOfJoined(orders: seq<PaperOrder>, visited: seq<PaperOrder>, k: nat, n: nat)
    requires |visited| == k <= n <= |orders|
    ensures FillsUpTo(visited + orders[k..], n) == FillsUpTo(visited, k) + FillsUpTo(orders, n) - FillsUpTo(orders, k)
    decreases n
  {
    if n == k {
      FillsUpToSame(visited + orders[k..], visited, k);
    } else {
      FillsOfJoined(orders, visited, k, n - 1);
      assert (visited + orders[k..])[n - 1] == orders[n - 1];
    }
  }

  /** Halfway through a pass, the next fill number counts the fills made so far in the pass. */
  lemma NextFillNumber(s: ExchangeState, k: nat, now: Time)
    requires OrdersOk(s.orders) && k <= |s.orders|
    ensures var p := VisitUpTo(s.orders, k, s.account.feePolicies, TotalFills(s.orders), |s.events|, now);
            |p.orders| == k && TotalFills(Midway(s, k, now).orders) == TotalFills(s.orders) + |p.fills|
  {
    hide VisitUpTo, ApplyFills, OrdersOk;
    PassFills(s.orders, k, s.account.feePolicies, TotalFills(s.orders), |s.events|, now);
    var p := VisitUpTo(s.orders, k, s.account.feePolicies, TotalFills(s.orders), |s.events|, now);
    FillsOfJoined(s.orders, p.orders, k, |s.orders|);
  }

  lemma ReplaceIsUpdate(orders: seq<PaperOrder>, visited: seq<PaperOrder>, k: nat, updated: PaperOrder)
    requires |visited| == k < |orders| && updated.orderId == k + 1
    requires forall i :: 0 <= i < |orders| ==> (visited + orders[k..])[i].orderId == i + 1
    ensures ReplaceById(visited + orders[k..], updated) == visited + [updated] + orders[k + 1..]
  {
  }

  lemma MidwayIds(s: ExchangeState, k: nat, now: Time)
    requires OrdersOk(s.orders) && k <= |s.orders|
    ensures |Midway(s, k, now).orders| == |s.orders|
    ensures forall i :: 0 <= i < |s.orders| ==> Midway(s, k, now).orders[i].orderId == i + 1
  {
    hide VisitUpTo, Visit, ApplyFills, OrderOk;
    PassLength(s.orders, k, s.account.feePolicies, TotalFills(s.orders), |s.events|, now);
    forall i | 0 <= i < k ensures Midway(s, k, now).orders[i].orderId == i + 1 {
      PassIsAMap(s.orders, k, s.account.feePolicies, TotalFills(s.orders), |s.events|, now, i);
      VisitKeepsId(s.orders[i], s.account.feePolicies,
                   FillIdAt(s.orders, i, s.account.feePolicies, TotalFills(s.orders), |s.events|, now),
                   EventIdAt(s.orders, i, s.account.feePolicies, TotalFills(s.orders), |s.events|, now), now);
    }
  }

  lemma VisitKeepsId(o: PaperOrder, policies: seq<FeePolicy>, fillId: nat, eventId: nat, now: Time)
    ensures var v := Visit(o, policies, fillId, eventId, now);
            |v.orders| == 1 && v.orders[0].orderId == o.orderId
  {
  }

  /** What an in-place fill does to an order is what visiting it alone does. */
  lemma FillIsVisit(s: ExchangeState, o: PaperOrder, policies: seq<FeePolicy>, now: Time)
    requires s.account.feePolicies == policies
    ensures var v := Visit(o, policies, TotalFills(s.orders) + 1, |s.events| + 1, now);
            var r := FillInPlace(s, o, FillQuantity(o, now), now);
            && |v.orders| == 1 && |v.fills| == |v.events| <= 1
            && r.1 == v.orders[0]
            && (v.fills == [] ==> r.0 == s && v.orders[0] == o)
            && (v.fills != [] ==> r.0 == s.(orders := ReplaceById(s.orders, v.orders[0]),
                                            account := ApplyPaperFill(s.account, v.fills[0]),
                                            events := s.events + v.events))
  {
    hide FillQuantity, MakerRate, ApplyPaperFill;
  }

  /** Adding a visit to what is midway. */
  lemma MidwayGrows(s: ExchangeState, k: nat, now: Time, v: Pass)
    requires k < |s.orders|
    requires var p := VisitUpTo(s.orders, k, s.account.feePolicies, TotalFills(s.orders), |s.events|, now);
             && |p.orders| == k && |v.orders| == 1 && |v.fills| == |v.events| <= 1
             && v == Visit(s.orders[k], s.account.feePolicies, TotalFills(s.orders) + |p.fills| + 1,
                           |s.events| + |p.events| + 1, now)
    ensures var p := VisitUpTo(s.orders, k, s.account.feePolicies, TotalFills(s.orders), |s.events|, now);
            var m := Midway(s, k, now);
            Midway(s, k + 1, now) ==
              m.(orders := p.orders + v.orders + s.orders[k + 1..],
                 account := if v.fills == [] then m.account else ApplyPaperFill(m.account, v.fills[0]),
                 events := m.events + v.events)
  {
    hide Visit, ApplyPaperFill, TotalFills;
    var p := VisitUpTo(s.orders, k, s.account.feePolicies, TotalFills(s.orders), |s.events|, now);
    assert s.events + p.events + v.events == s.events + (p.events + v.events);
    if v.fills == [] {
      assert p.fills + v.fills == p.fills;
    } else {
      assert v.fills == [v.fills[0]];
      ApplyFillsStep(s.account, p.fills, v.fills[0]);
    }
  }

  /** One turn of the loop: filling the snapshot's order in place takes the state from `k`
      visited orders to `k + 1`, so no update is lost, repeated or stale. */
  lemma LoopTurn(s: ExchangeState, k: nat, now: Time)
    requires OrdersOk(s.orders) && k < |s.orders|
    ensures k < |Midway(s, k + 1, now).orders|
    ensures FillInPlace(Midway(s, k, now), s.orders[k], FillQuantity(s.orders[k], now), now)
            == (Midway(s, k + 1, now), Midway(s, k + 1, now).orders[k])
  {
    hide Visit, VisitUpTo, FillQuantity, FillInPlace, OrderOk, ReplaceById, ApplyPaperFill, ApplyFills, TotalFills;
    var m := Midway(s, k, now);
    var p := VisitUpTo(s.orders, k, s.account.feePolicies, TotalFills(s.orders), |s.events|, now);
    NextFillNumber(s, k, now);
    MidwayIds(s, k, now);
    PassLength(s.orders, k, s.account.feePolicies, TotalFills(s.orders), |s.events|, now);
    FillsKeepTheRest(s.account, p.fills);
    FillIsVisit(m, s.orders[k], s.account.feePolicies, now);
    var v := Visit(s.orders[k], s.account.feePolicies, TotalFills(s.orders) + |p.fills| + 1,
                   |s.events| + |p.events| + 1, now);
    VisitKeepsId(s.orders[k], s.account.feePolicies, TotalFills(s.orders) + |p.fills| + 1,
                 |s.events| + |p.events| + 1, now);
    MidwayGrows(s, k, now, v);
    assert v.orders == [v.orders[0]];
    assert s.orders[k..] == [s.orders[k]] + s.orders[k + 1..];
    if v.fills == [] {
      assert m.events + v.events == m.events;
      assert p.orders + v.orders + s.orders[k + 1..] == m.orders;
    } else {
      ReplaceIsUpdate(s.orders, p.orders, k, v.orders[0]);
    }
  }

  lemma MidwayEnds(s: ExchangeState, now: Time)
    ensures Midway(s, 0, now) == s
    ensures Midway(s, |s.orders|, now) == Process(s, now)
  {
    assert [] + s.orders[0..] == s.orders && s.events + [] == s.events;
    PassLength(s.orders, |s.orders|, s.account.feePolicies, TotalFills(s.orders), |s.events|, now);
    var p := PassOf(s, now);
    assert p.orders + s.orders[|s.orders|..] == p.orders;
  }

  // ---------------------------------------------------------------- what a pass reports

  function RowOf(o: PaperOrder, probability: real): ProcessedRow {
    ProcessedRow(o.orderId, o.status, o.filledQuantity, o.Remaining(), probability)
  }

  predicate Reported(o: PaperOrder, now: Time) {
    o.IsOpen() && QuoteFor(o.intent.symbol, now).Some?
  }

  lemma QuoteHasSize(symbol: Symbol, now: Time)
    requires QuoteFor(symbol, now).Some?
    ensures QuoteFor(symbol, now).value.bidSize + QuoteFor(symbol, now).value.askSize > 0.0
  {
  }

  function ProbabilityOf(o: PaperOrder, now: Time): real
    requires Reported(o, now)
  {
    QuoteHasSize(o.intent.symbol, now);
    QueueFillProbability(o.intent, QuoteFor(o.intent.symbol, now).value)
  }

  /** One row for each of the first `k` orders that was open and quoted: the order as the pass left it, with
      the probability it was given. */
  function RowsUpTo(before: seq<PaperOrder>, after: seq<PaperOrder>, k: nat, now: Time): seq<ProcessedRow>
    requires k <= |before| && k <= |after|
  {
    if k == 0 then []
    else
      RowsUpTo(before, after, k - 1, now)
      + if Reported(before[k - 1], now) then [RowOf(after[k - 1], ProbabilityOf(before[k - 1], now))] else []
  }

  lemma {:induction false} RowsOfPrefix(
    before: seq<PaperOrder>, after: seq<PaperOrder>, later: seq<PaperOrder>, k: nat, now: Time)
    requires k <= |before| && k <= |after| && k <= |later| && after[..k] == later[..k]
    ensures RowsUpTo(before, after, k, now) == RowsUpTo(before, later, k, now)
  {
    hide ProbabilityOf;
    if k != 0 {
      assert after[..k][..k - 1] == after[..k - 1] && later[..k][..k - 1] == later[..k - 1];
      assert after[..k][k - 1] == later[..k][k - 1];
      RowsOfPrefix(before, after, later, k - 1, now);
    }
  }

  /** How many of the first `k` orders get a row. */
  function RowCount(before: seq<PaperOrder>, k: nat, now: Time): nat
    requires k <= |before|
  {
    if k == 0 then 0 else RowCount(before, k - 1, now) + if Reported(before[k - 1], now) then 1 else 0
  }

  /** The rows in numbers: one for each order that was open before, in list order, giving its id, its status and filled
      quantity after the pass, what then remains, and the probability its side and price had. */
  lemma {:induction false} RowsInNumbers(
    before: seq<PaperOrder>, after: seq<PaperOrder>, k: nat, now: Time, i: nat)
    requires i < k <= |before| && |after| == |before| && OrderOk(before[i])
    requires before[i].status == New || before[i].status == PartiallyFilled
    ensures Reported(before[i], now)
    ensures RowCount(before, i, now) < |RowsUpTo(before, after, k, now)| == RowCount(before, k, now)
    ensures var row := RowsUpTo(before, after, k, now)[RowCount(before, i, now)];
            && row.orderId == after[i].orderId && row.status == after[i].status
            && row.filledQuantity == after[i].filledQuantity
            && row.remainingQuantity
               == (if after[i].intent.quantity > after[i].filledQuantity
                   then after[i].intent.quantity - after[i].filledQuantity else 0.0)
            && BuiltInProbabilityIs(row.probability, before[i].intent)
    decreases k
  {
    hide BuiltInProbabilityIs, QueueFillProbability, FillShape;
    RowsAreCounted(before, after, k - 1, now);
    if i < k - 1 {
      RowsInNumbers(before, after, k - 1, now, i);
    } else {
      BuiltInProbabilityInNumbers(before[i].intent, now);
    }
  }

  lemma {:induction false} RowsAreCounted(before: seq<PaperOrder>, after: seq<PaperOrder>, k: nat, now: Time)
    requires k <= |before| && k <= |after|
    ensures |RowsUpTo(before, after, k, now)| == RowCount(before, k, now)
  {
    hide ProbabilityOf;
    if k != 0 { RowsAreCounted(before, after, k - 1, now); }
  }

  /** Closed orders get none. */
  lemma ClosedGetNoRow(o: PaperOrder, now: Time)
    requires o.status == Filled || o.status == Canceled || o.status == Expired
    ensures !Reported(o, now)
  {
  }

  /** A pass settles its orders one by one: what is visited is not touched again. */
  lemma MidwaySettles(s: ExchangeState, k: nat, now: Time)
    requires k < |s.orders|
    ensures |Midway(s, k, now).orders| == |Midway(s, k + 1, now).orders| == |s.orders|
    ensures Midway(s, k, now).orders[..k] == Midway(s, k + 1, now).orders[..k]
    ensures Midway(s, k, now).orders[k] == s.orders[k]
  {
    hide Visit, ApplyFills, TotalFills;
    PassLength(s.orders, k, s.account.feePolicies, TotalFills(s.orders), |s.events|, now);
    PassLength(s.orders, k + 1, s.account.feePolicies, TotalFills(s.orders), |s.events|, now);
  }

  // ---------------------------------------------------------------- searching by id

  lemma ReplaceAt(orders: seq<PaperOrder>, i: nat, updated: PaperOrder)
    requires OrdersOk(orders) && i < |orders| && updated.orderId == i + 1
    ensures ReplaceById(orders, updated) == orders[i := updated]
  {
    hide OrderOk;
  }

  lemma CloseNamedAt(orders: seq<PaperOrder>, i: nat, status: OrderStatus, now: Time)
    requires OrdersOk(orders) && i < |orders|
    ensures CloseNamed(orders, i + 1, status, now) == orders[i := Close(orders[i], status, now)]
  {
    hide OrderOk;
  }

  // ---------------------------------------------------------------- small facts the methods use

  ghost predicate StateOk(s: ExchangeState) {
    OrdersOk(s.orders) && LogOk(s.events, s.orders)
  }

  lemma StepKeepsState(s: ExchangeState, op: Operation)
    requires StateOk(s)
    ensures StateOk(Step(s, op))
  {
    hide OrdersOk, LogOk, Step;
    StepKeepsOrders(s, op);
    StepIsLogged(s, op);
  }

  /** An accepted preview always has a quote, so the source's runtime error cannot be raised. */
  lemma AcceptedHasQuote(s: ExchangeState, intent: PaperOrderIntent, now: Time)
    requires ExchangeModel.PreviewOrder(s, intent, now).accepted
    ensures QuoteFor(intent.symbol, now) == Some(PreviewQuote(intent.symbol, now))
  {
    PreviewAccepts(s.account, s.halted, s.takerGateEnabled, intent, now);
  }

  /** Both gates turn down an order exactly when they have a reason to. */
  lemma NoReasonsMeansAccepted(
    s: ExchangeState, intent: PaperOrderIntent, preview: PaperOrderPreview, quote: PaperMarketQuote, now: Time)
    ensures ExchangeModel.PreviewOrder(s, intent, now).accepted
            <==> ExchangeModel.PreviewOrder(s, intent, now).reasons == []
    ensures var risk := EvaluatePaperOrderRisk(s.account, intent, preview, quote, DEFAULT_LIMITS, s.riskState, now);
            risk.accepted <==> risk.reasons == []
  {
    hide InstrumentReasons, FeeReasons, QuoteReasons, MakerFirstReasons, CalculateExpectedEdge;
    hide AccountErrors, StateReasons, MarketReasons, ExposureReasons, MissingBooks;
  }

  class InMemoryPaperExchange {
    var accountState: AccountState
    var orders: seq<PaperOrder>
    var reconciliationEvents: seq<ReconciliationEvent>
    var takerGateEnabled: bool
    var riskState: PaperRiskState
    var halted: bool

    function State(): ExchangeState
      reads this
    {
      ExchangeState(accountState, orders, reconciliationEvents, takerGateEnabled, riskState, halted)
    }

    /** Orders are well formed and numbered by place, and the log tells their whole story. */
    ghost predicate Valid()
      reads this
    {
      StateOk(State())
    }

    constructor (account: AccountState, takerGateEnabled: bool)
      ensures Valid() && State() == Initial(account, takerGateEnabled)
    {
      accountState := account;
      orders := [];
      reconciliationEvents := [];
      this.takerGateEnabled := takerGateEnabled;
      riskState := CALM;
      halted := false;
      new;
      NoOrdersAreOk();
      EmptyLog();
    }

    method CheckInstrument(intent: PaperOrderIntent, now: Time) returns (reasons: seq<Reason>)
      ensures reasons == InstrumentReasons(accountState, intent, now)
    {
      hide FilterReasons, SymbolMetadata.ValidationErrors;
      var metadata := FindMetadata(accountState.symbolMetadata, intent.symbol);
      if metadata == None {
        reasons := [MetadataUnavailable];
      } else if metadata.value.role != Executable {
        reasons := [NotExecutable];
      } else if metadata.value.filters == None {
        reasons := [FiltersUnavailable];
      } else {
        reasons := metadata.value.ValidationErrors(now) + FilterReasons(intent, metadata.value.filters.value);
      }
    }

    method CheckFee(intent: PaperOrderIntent, now: Time) returns (reasons: seq<Reason>, fee: FeePolicy)
      ensures reasons == FeeReasons(accountState, intent.symbol, now)
      ensures fee == PreviewFee(accountState, intent.symbol, now)
    {
      hide FeePolicy.ValidationErrors;
      var policy := FindFee(accountState.feePolicies, intent.symbol);
      if policy == None {
        return [FeePolicyUnavailable], MissingFeePolicy(intent.symbol, now);
      }
      return policy.value.ValidationErrors(now), policy.value;
    }

    method PreviewOrder(intent: PaperOrderIntent, now: Time) returns (preview: PaperOrderPreview)
      ensures preview == ExchangeModel.PreviewOrder(State(), intent, now)
    {
      hide InstrumentReasons, FeeReasons, PreviewFee, CalculateExpectedEdge, MakerFirstReasons;
      var reasons: seq<Reason> := [];
      if halted { reasons := reasons + [ExchangeHalted]; }
      assert reasons == When(halted, ExchangeHalted);
      var instrument := CheckInstrument(intent, now);
      var feeReasons, fee := CheckFee(intent, now);
      reasons := reasons + instrument + feeReasons;
      var quote := QuoteFor(intent.symbol, now);
      if quote == None {
        reasons := reasons + [QuoteUnavailable];
        quote := Some(MissingQuote(intent.symbol, now));
      } else {
        reasons := reasons + quote.value.freshness.ValidationErrors(now, QuoteLabel(intent.symbol));
      }
      reasons := reasons + MakerFirstReasons(intent, quote.value, takerGateEnabled);
      var edge := CalculateExpectedEdge(intent, fee, quote.value);
      reasons := reasons + When(edge.afterCosts <= 0.0, EdgeNotPositive);
      preview := PaperOrderPreview(intent, reasons == [], reasons, WouldCross(intent, quote.value), edge);
    }

    /** Appends an event under the next number. */
    method Record(subject: Subject, status: ReconciliationStatus, reasons: seq<Reason>, now: Time)
      returns (event: ReconciliationEvent)
      modifies this`reconciliationEvents
      ensures State() == Log(old(State()), subject, status, reasons, now)
      ensures event == ReconciliationEvent(|old(reconciliationEvents)| + 1, subject, status, reasons, now)
      ensures reconciliationEvents == old(reconciliationEvents) + [event]
    {
      event := ReconciliationEvent(|reconciliationEvents| + 1, subject, status, reasons, now);
      reconciliationEvents := reconciliationEvents + [event];
    }

    method SubmitOrder(intent: PaperOrderIntent, now: Time) returns (result: SubmitResult)
      requires Valid()
      modifies this
      ensures Valid() && State() == Submit(old(State()), intent, now)
      ensures result.accepted <==> Admits(old(State()), intent, now)
      ensures result.accepted ==> result.order == Some(NewOrder(|old(orders)| + 1, intent, now))
      ensures !result.accepted ==> result.order == None && result.event.reasons == Vetoes(old(State()), intent, now)
      ensures reconciliationEvents == old(reconciliationEvents) + [result.event]
      ensures result.preview == ExchangeModel.PreviewOrder(old(State()), intent, now)
      ensures result.risk == if !result.preview.accepted then None
                             else Some(EvaluatePaperOrderRisk(
                               old(accountState), intent, result.preview, PreviewQuote(intent.symbol, now),
                               DEFAULT_LIMITS, old(riskState), now))
    {
      hide StateOk, Preview, EvaluatePaperOrderRisk;
      ghost var s := State();
      StepKeepsState(s, SubmitOp(intent, now));
      var preview := PreviewOrder(intent, now);
      var orderId := |orders| + 1;
      NoReasonsMeansAccepted(s, intent, preview, PreviewQuote(intent.symbol, now), now);
      if !preview.accepted {
        var event := Record(ForOrder(orderId), Rejected, preview.reasons, now);
        return SubmitResult(false, preview, None, event, None);
      }
      AcceptedHasQuote(s, intent, now);
      var quote := QuoteFor(intent.symbol, now).value;
      var risk := JudgeOrder(accountState, intent, preview, quote, DEFAULT_LIMITS, riskState, now);
      if !risk.accepted {
        var event := Record(ForOrder(orderId), Rejected, risk.reasons, now);
        return SubmitResult(false, preview, None, event, Some(risk));
      }
      var order := NewOrder(orderId, intent, now);
      orders := orders + [order];
      var event := Record(ForOrder(orderId), Resting, [OrderAccepted], now);
      return SubmitResult(true, preview, Some(order), event, Some(risk));
    }

    /** `_fill_order` */
    method FillOrder(order: PaperOrder, fillQuantity: real, now: Time) returns (updated: PaperOrder)
      modifies this
      ensures (State(), updated) == FillInPlace(old(State()), order, fillQuantity, now)
    {
      var quantity := Min(order.Remaining(), fillQuantity);
      if quantity <= 0.0 {
        return order;
      }
      var policy := FindFee(accountState.feePolicies, order.intent.symbol);
      var rate := if policy == None then 0.0 else policy.value.makerFeeRate;
      var fill := MakeFill(order, quantity, rate, TotalFills(orders) + 1, now);
      updated := AfterFill(order, fill);
      orders := ReplaceById(orders, updated);
      accountState := ApplyPaperFill(accountState, fill);
      reconciliationEvents := reconciliationEvents + [FillEvent(updated, |reconciliationEvents| + 1, now)];
    }

    /** Iterates over a snapshot of the order list while filling the list itself, and reports each order
        it looked at as it left it. */
    method ProcessOpenOrders(now: Time) returns (processed: seq<ProcessedRow>)
      requires Valid()
      modifies this
      ensures Valid() && State() == Process(old(State()), now)
      ensures |orders| == |old(orders)| && processed == RowsUpTo(old(orders), orders, |orders|, now)
    {
      hide StateOk, Midway, Process, FillInPlace, RowsUpTo;
      ghost var s := State();
      StepKeepsState(s, ProcessOp(now));
      MidwayEnds(s, now);
      NoRows(orders, now);
      processed := [];
      var snapshot := orders;
      for k := 0 to |snapshot|
        invariant State() == Midway(s, k, now) && |orders| == |snapshot|
        invariant processed == RowsUpTo(snapshot, orders, k, now)
      {
        var order := snapshot[k];
        TurnOf(s, k, now);
        if order.status == New || order.status == PartiallyFilled {
          var quote := QuoteFor(order.intent.symbol, now);
          if quote.Some? {
            QuoteHasSize(order.intent.symbol, now);
            var probability := QueueFillProbability(order.intent, quote.value);
            var updated := order;
            if probability >= 0.6 || order.status == PartiallyFilled {
              updated := FillOrder(order, order.Remaining(), now);
            } else if probability >= 0.25 {
              updated := FillOrder(order, Min(order.Remaining(), order.intent.quantity / 2.0), now);
            } else {
              updated := order.(updatedAt := now);
            }
            processed := processed + [RowOf(updated, probability)];
          }
        }
        RowsAfterTurn(s, k, now);
      }
    }

    method ExpireOrder(orderId: nat, now: Time) returns (reply: ExpireReply)
      requires Valid()
      modifies this
      ensures Valid() && State() == Expire(old(State()), orderId, now)
      ensures reply == NoSuchOrder <==> !Known(old(State()), orderId)
      ensures reply == ExpiredNow <==> 1 <= orderId <= |old(orders)| && old(orders)[orderId - 1].IsOpen()
    {
      hide LogOk, OrderOk;
      ghost var s := State();
      StepKeepsState(s, ExpireOp(orderId, now));
      for index := 0 to |orders|
        invariant State() == s && forall i :: 0 <= i < index ==> orders[i].orderId != orderId
      {
        var order := orders[index];
        if order.orderId == orderId {
          if !(order.status == New || order.status == PartiallyFilled) {
            return NotOpen;
          }
          CloseNamedAt(orders, index, Expired, now);
          orders := orders[index := WithStatus(order, Expired, now)];
          var _ := Record(ForOrder(orderId), ExpiryRecorded, [LifecycleExpired], now);
          return ExpiredNow;
        }
      }
      return NoSuchOrder;
    }

    /** Reads the clock once for the order and once for the event. */
    method CancelOrder(orderId: nat, now: Time, loggedAt: Time) returns (reply: CancelReply)
      requires Valid()
      modifies this
      ensures Valid() && State() == Cancel(old(State()), orderId, now, loggedAt)
      ensures reply == NotFound <==> !Known(old(State()), orderId)
      ensures reply == CancelLogged(true) <==> 1 <= orderId <= |old(orders)| && old(orders)[orderId - 1].IsOpen()
    {
      hide LogOk, OrderOk;
      ghost var s := State();
      StepKeepsState(s, CancelOp(orderId, now, loggedAt));
      for index := 0 to |orders|
        invariant State() == s && forall i :: 0 <= i < index ==> orders[i].orderId != orderId
      {
        var order := orders[index];
        if order.orderId == orderId {
          var open := order.status == New || order.status == PartiallyFilled;
          CloseNamedAt(orders, index, Canceled, now);
          assert orders[index := order] == orders;
          if open {
            ReplaceAt(orders, index, WithStatus(order, Canceled, now));
            orders := ReplaceById(orders, WithStatus(order, Canceled, now));
          }
          var _ := Record(ForOrder(orderId), CancelRecorded, [CancelRequested], loggedAt);
          return CancelLogged(open);
        }
      }
      return NotFound;
    }

    method PanicCancelOpenOrders(now: Time) returns (canceledCount: nat)
      requires Valid()
      modifies this
      ensures Valid() && State() == PanicCancel(old(State()), now)
      ensures canceledCount == OpenCount(old(orders), |old(orders)|)
    {
      hide StateOk, DefaultAccountState;
      ghost var s := State();
      StepKeepsState(s, PanicCancelOp(now));
      var updatedOrders: seq<PaperOrder> := [];
      canceledCount := 0;
      for index := 0 to |orders|
        invariant State() == s
        invariant updatedOrders == CloseAll(orders, now)[..index]
        invariant canceledCount == OpenCount(orders, index)
      {
        var order := orders[index];
        if order.status == New || order.status == PartiallyFilled {
          canceledCount := canceledCount + 1;
          updatedOrders := updatedOrders + [WithStatus(order, Canceled, now)];
        } else {
          updatedOrders := updatedOrders + [order];
        }
      }
      assert CloseAll(orders, now)[..|orders|] == CloseAll(orders, now);
      orders := updatedOrders;
      var _ := Record(AllOpenOrders, CancelRecorded, [PanicCancelRecorded], now);
    }

    method PanicFlattenPositions(now: Time, loggedAt: Time)
      requires Valid()
      modifies this
      ensures Valid() && State() == PanicFlatten(old(State()), now, loggedAt)
    {
      hide StateOk, DefaultAccountState;
      StepKeepsState(State(), PanicFlattenOp(now, loggedAt));
      accountState := DefaultAccountState(now);
      var _ := Record(AllPositions, Matched, [PositionsFlattened], loggedAt);
    }

    method Halt()
      requires Valid()
      modifies this
      ensures Valid() && State() == PanicHalt(old(State()))
    {
      halted := true;
      riskState := PaperRiskState(0.0, 0.0, 0, false, true);
    }

    method ResetAll(now: Time)
      requires Valid()
      modifies this
      ensures Valid() && State() == Reset(old(State()), now)
    {
      hide StateOk, DefaultAccountState;
      StepKeepsState(State(), ResetOp(now));
      accountState := DefaultAccountState(now);
      orders := [];
      reconciliationEvents := [];
      halted := false;
    }
  }

  function OpenCount(orders: seq<PaperOrder>, k: nat): nat
    requires k <= |orders|
  {
    if k == 0 then 0 else OpenCount(orders, k - 1) + if orders[k - 1].IsOpen() then 1 else 0
  }

  /** The count is of the open orders among the first `k`. */
  lemma {:induction false} OpenCountIs(orders: seq<PaperOrder>, k: nat)
    requires k <= |orders|
    ensures OpenCount(orders, k)
            == |set i | 0 <= i < k && (orders[i].status == New || orders[i].status == PartiallyFilled)|
  {
    if k != 0 {
      OpenCountIs(orders, k - 1);
      var before := set i | 0 <= i < k - 1 && (orders[i].status == New || orders[i].status == PartiallyFilled);
      var all := set i | 0 <= i < k && (orders[i].status == New || orders[i].status == PartiallyFilled);
      assert all == if orders[k - 1].IsOpen() then before + {k - 1} else before;
    }
  }

  lemma NoRows(orders: seq<PaperOrder>, now: Time)
    ensures RowsUpTo(orders, orders, 0, now) == []
  {
  }

  lemma RowsAfterTurn(s: ExchangeState, k: nat, now: Time)
    requires k < |s.orders|
    ensures var m, next := Midway(s, k, now).orders, Midway(s, k + 1, now).orders;
            && |m| == |next| == |s.orders|
            && RowsUpTo(s.orders, next, k + 1, now)
               == RowsUpTo(s.orders, m, k, now)
                  + if Reported(s.orders[k], now) then [RowOf(next[k], ProbabilityOf(s.orders[k], now))] else []
  {
    hide Midway, ProbabilityOf;
    MidwaySettles(s, k, now);
    RowsOfPrefix(s.orders, Midway(s, k, now).orders, Midway(s, k + 1, now).orders, k, now);
  }

  /** What one turn of the loop does, by the branch it takes. */
  lemma TurnOf(s: ExchangeState, k: nat, now: Time)
    requires StateOk(s) && k < |s.orders|
    ensures |Midway(s, k, now).orders| == |Midway(s, k + 1, now).orders| == |s.orders|
    ensures var o := s.orders[k];
            var m := Midway(s, k, now);
            var quote := QuoteFor(o.intent.symbol, now);
            var next := Midway(s, k + 1, now);
            if !o.IsOpen() || quote == None then m == next
            else
              quote.value.bidSize + quote.value.askSize > 0.0
              && var p := QueueFillProbability(o.intent, quote.value);
                 if p >= 0.6 || o.status == PartiallyFilled
                 then FillInPlace(m, o, o.Remaining(), now) == (next, next.orders[k])
                 else if p >= 0.25
                 then FillInPlace(m, o, Min(o.Remaining(), o.intent.quantity / 2.0), now) == (next, next.orders[k])
                 else m == next && o == next.orders[k]
  {
    hide Midway, OrdersOk, LogOk, QueueFillProbability;
    LoopTurn(s, k, now);
    MidwaySettles(s, k, now);
    NothingToFill(Midway(s, k, now), s.orders[k], now);
  }

  lemma NothingToFill(m: ExchangeState, o: PaperOrder, now: Time)
    ensures FillInPlace(m, o, 0.0, now).0 == m
  {
  }
}
