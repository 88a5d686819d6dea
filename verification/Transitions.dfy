/** What each operation of the exchange leaves behind, field by field: orders, times, log entries and flags. */
module Transitions {
  import opened Schemas
  import opened Accounting
  import opened Pricing
  import opened Risk
  import opened ExchangeModel
  import opened Settlement

  // ---------------------------------------------------------------- one log entry

  /** The log has grown by one entry, numbered by its place, with these contents. */
  predicate Logged(
    s: ExchangeState, after: ExchangeState, subject: Subject, status: ReconciliationStatus, reasons: seq<Reason>,
    at: Time)
  {
    && |after.events| == |s.events| + 1 && after.events[..|s.events|] == s.events
    && var e := after.events[|s.events|];
       && e.eventId == |s.events| + 1 && e.subject == subject && e.status == status && e.reasons == reasons
       && e.createdAt == at
  }

  /** A submit names the next order.  Admitted, the order rests with the submitted intent and nothing filled;
      turned down, the log gives the preview's reasons, or the gate's if the preview had none. */
  lemma SubmitLeaves(s: ExchangeState, intent: PaperOrderIntent, now: Time)
    ensures var after := Submit(s, intent, now);
            var id := |s.orders| + 1;
            && after == s.(orders := after.orders, events := after.events)
            && if Admits(s, intent, now) then
                 && Logged(s, after, ForOrder(id), Resting, [OrderAccepted], now)
                 && |after.orders| == id && after.orders[..id - 1] == s.orders
                 && var o := after.orders[id - 1];
                    && o.orderId == id && o.intent == intent && o.status == New && o.createdAt == now
                    && o.updatedAt == now && o.fill == None && o.fills == [] && o.filledQuantity == 0.0
               else
                 var preview := PreviewOrder(s, intent, now);
                 var gate := EvaluatePaperOrderRisk(s.account, intent, preview, PreviewQuote(intent.symbol, now),
                                                    DEFAULT_LIMITS, s.riskState, now);
                 && after.orders == s.orders
                 && Logged(s, after, ForOrder(id), Rejected,
                           if preview.accepted then gate.reasons else preview.reasons, now)
  {
    hide EvaluatePaperOrderRisk, Preview;
  }

  /** What closing leaves of the list: the orders asked for, if open, get the status and the time, nothing else. */
  predicate ClosedAs(
    orders: seq<PaperOrder>, after: seq<PaperOrder>, asked: PaperOrder -> bool, status: OrderStatus, now: Time)
  {
    && |after| == |orders|
    && forall i :: 0 <= i < |orders| ==>
        if asked(orders[i]) && orders[i].IsOpen()
        then after[i].status == status && after[i].updatedAt == now
             && after[i] == orders[i].(status := after[i].status, updatedAt := after[i].updatedAt)
        else after[i] == orders[i]
  }

  lemma CancelLeaves(s: ExchangeState, orderId: nat, now: Time, loggedAt: Time)
    ensures var after := Cancel(s, orderId, now, loggedAt);
            && after == s.(orders := after.orders, events := after.events)
            && ClosedAs(s.orders, after.orders, (o: PaperOrder) => o.orderId == orderId, Canceled, now)
            && if exists o :: o in s.orders && o.orderId == orderId
               then Logged(s, after, ForOrder(orderId), CancelRecorded, [CancelRequested], loggedAt)
               else after.events == s.events
  {
  }

  lemma ExpireLeaves(s: ExchangeState, orderId: nat, now: Time)
    ensures var after := Expire(s, orderId, now);
            && after == s.(orders := after.orders, events := after.events)
            && ClosedAs(s.orders, after.orders, (o: PaperOrder) => o.orderId == orderId, Expired, now)
            && if exists o :: o in s.orders && o.orderId == orderId && o.IsOpen()
               then Logged(s, after, ForOrder(orderId), ExpiryRecorded, [LifecycleExpired], now)
               else after.events == s.events
  {
  }

  lemma PanicCancelLeaves(s: ExchangeState, now: Time)
    ensures var after := PanicCancel(s, now);
            && after == s.(orders := after.orders, events := after.events)
            && ClosedAs(s.orders, after.orders, (o: PaperOrder) => true, Canceled, now)
            && Logged(s, after, AllOpenOrders, CancelRecorded, [PanicCancelRecorded], now)
  {
  }

  /** Flatten, halt and reset. */
  lemma PanicAndResetLeave(s: ExchangeState, now: Time, loggedAt: Time)
    ensures var flat := PanicFlatten(s, now, loggedAt);
            && flat == s.(account := DefaultAccountState(now), events := flat.events)
            && Logged(s, flat, AllPositions, Matched, [PositionsFlattened], loggedAt)
    ensures PanicHalt(s) == s.(halted := true, riskState := PaperRiskState(0.0, 0.0, 0, false, true))
    ensures Reset(s, now)
            == ExchangeState(DefaultAccountState(now), [], [], s.takerGateEnabled, s.riskState, false)
  {
    hide DefaultAccountState;
  }

  // ---------------------------------------------------------------- one pass

  /** A pass either leaves an order or adds one fill to it, and stamps both with the time. */
  predicate Stamped(o: PaperOrder, after: PaperOrder, now: Time) {
    || after == o
    || (&& |after.fills| == |o.fills| + 1 && after.fills[..|o.fills|] == o.fills && after.updatedAt == now
        && after.createdAt == o.createdAt && after.intent == o.intent && after.orderId == o.orderId
        && var f := after.fills[|o.fills|];
           f.createdAt == now && after.filledQuantity == o.filledQuantity + f.quantity)
  }

  lemma VisitStamps(o: PaperOrder, policies: seq<FeePolicy>, fillId: nat, eventId: nat, now: Time)
    ensures var v := Visit(o, policies, fillId, eventId, now);
            && |v.orders| == 1 && Stamped(o, v.orders[0], now)
            && forall e :: e in v.events ==>
                 e.createdAt == now && e.reasons == [QueueFillApplied] && e.subject == ForOrder(o.orderId)
  {
    hide FillQuantity, MakerRate;
  }

  lemma {:induction false} PassStamps(
    orders: seq<PaperOrder>, k: nat, policies: seq<FeePolicy>, fillBase: nat, eventBase: nat, now: Time)
    requires k <= |orders|
    ensures var p := VisitUpTo(orders, k, policies, fillBase, eventBase, now);
            && |p.orders| == k && (forall i :: 0 <= i < k ==> Stamped(orders[i], p.orders[i], now))
            && forall e :: e in p.events ==> e.createdAt == now && e.reasons == [QueueFillApplied]
  {
    hide Visit, Stamped;
    if k != 0 {
      var done := VisitUpTo(orders, k - 1, policies, fillBase, eventBase, now);
      PassStamps(orders, k - 1, policies, fillBase, eventBase, now);
      VisitStamps(orders[k - 1], policies, fillBase + |done.fills| + 1, eventBase + |done.events| + 1, now);
    }
  }

  /** A pass keeps every order's place and every earlier log entry, and stamps what it adds with its time. */
  lemma ProcessLeaves(s: ExchangeState, now: Time)
    ensures var after := Process(s, now);
            && after == s.(orders := after.orders, account := after.account, events := after.events)
            && |after.orders| == |s.orders|
            && (forall i :: 0 <= i < |s.orders| ==> Stamped(s.orders[i], after.orders[i], now))
            && |s.events| <= |after.events| && after.events[..|s.events|] == s.events
            && forall k :: |s.events| <= k < |after.events| ==>
                 after.events[k].createdAt == now && after.events[k].reasons == [QueueFillApplied]
  {
    hide VisitUpTo, ApplyFills, Stamped;
    PassStamps(s.orders, |s.orders|, s.account.feePolicies, TotalFills(s.orders), |s.events|, now);
    var p := PassOf(s, now);
    forall k | |s.events| <= k < |s.events + p.events|
      ensures (s.events + p.events)[k].createdAt == now && (s.events + p.events)[k].reasons == [QueueFillApplied]
    {
      assert p.events[k - |s.events|] in p.events;
    }
  }

  // ---------------------------------------------------------------- flags over runs

  /** A panic halt has run. */
  predicate EverHalted(ops: seq<Operation>) {
    ops != [] && (ops[|ops| - 1].PanicHaltOp? || EverHalted(ops[..|ops| - 1]))
  }

  /** A panic halt has run since the last reset. */
  predicate HaltedSinceReset(ops: seq<Operation>) {
    ops != [] && !ops[|ops| - 1].ResetOp? && (ops[|ops| - 1].PanicHaltOp? || HaltedSinceReset(ops[..|ops| - 1]))
  }

  lemma StepFlags(s: ExchangeState, op: Operation)
    ensures var after := Step(s, op);
            && after.takerGateEnabled == s.takerGateEnabled
            && after.halted == (!op.ResetOp? && (op.PanicHaltOp? || s.halted))
            && after.riskState == if op.PanicHaltOp? then PaperRiskState(0.0, 0.0, 0, false, true) else s.riskState
  {
    hide Vetoes, VisitUpTo, ApplyFills, DefaultAccountState;
  }

  /** In every reachable state the halt flag says whether a panic halt has run since the last reset, the risk state
      whether one ever has and nothing else, and the taker gate is as it was set. */
  lemma {:induction false} FlagsTellTheHistory(account: AccountState, takerGateEnabled: bool, ops: seq<Operation>)
    ensures var s := Run(Initial(account, takerGateEnabled), ops);
            && s.takerGateEnabled == takerGateEnabled && s.halted == HaltedSinceReset(ops)
            && s.riskState == PaperRiskState(0.0, 0.0, 0, false, EverHalted(ops))
    ensures HaltedSinceReset(ops) ==> EverHalted(ops)
  {
    hide Step;
    if ops != [] {
      var n := |ops| - 1;
      FlagsTellTheHistory(account, takerGateEnabled, ops[..n]);
      StepFlags(Run(Initial(account, takerGateEnabled), ops[..n]), ops[n]);
    }
  }

  // ---------------------------------------------------------------- the last renewal

  /** When the account was last renewed. */
  function LastRenewal(start: Time, ops: seq<Operation>): Time {
    if ops == [] then start
    else match ops[|ops| - 1]
      case PanicFlattenOp(now, _) => now
      case ResetOp(now) => now
      case _ => LastRenewal(start, ops[..|ops| - 1])
  }

  /** The account every fill since then is booked on is the default account of that time. */
  lemma {:induction false} AccountOfLastRenewal(start: Time, takerGateEnabled: bool, ops: seq<Operation>)
    ensures HistoryOf(DefaultAccountState(start), takerGateEnabled, ops).base
            == DefaultAccountState(LastRenewal(start, ops))
  {
    hide Run, DefaultAccountState, PassOf;
    if ops != [] {
      AccountOfLastRenewal(start, takerGateEnabled, ops[..|ops| - 1]);
    }
  }
}
