/** The reconciliation log tells the whole story: replaying it rebuilds every order's status,
    and its fill events count every order's fills. */
module EventLog {
  import opened Schemas
  import opened Accounting
  import opened ExchangeModel
  import opened OrderState
  import opened Lifecycle

  // ---------------------------------------------------------------- replaying statuses

  predicate OpenStatus(status: OrderStatus) {
    status == New || status == PartiallyFilled
  }

  function CanceledIfOpen(status: OrderStatus): OrderStatus {
    if OpenStatus(status) then Canceled else status
  }

  /** What an event about one order makes of its status. */
  function Replayed(status: OrderStatus, event: ReconciliationStatus): OrderStatus {
    match event
    case PartialFill => PartiallyFilled
    case Matched => Filled
    case CancelRecorded => CanceledIfOpen(status)
    case ExpiryRecorded => Expired
    case Rejected => status
    case Resting => status
  }

  /** A rejected event reports the id the order would have had, so it says nothing about orders. */
  function ReplayEvent(book: seq<OrderStatus>, e: ReconciliationEvent): seq<OrderStatus> {
    match e.subject
    case AllPositions => book
    case AllOpenOrders => seq(|book|, i requires 0 <= i < |book| => CanceledIfOpen(book[i]))
    case ForOrder(id) =>
      if e.status == Rejected then book
      else if e.status == Resting then if id == |book| + 1 then book + [New] else book
      else if 1 <= id <= |book| then book[id - 1 := Replayed(book[id - 1], e.status)]
      else book
  }

  function Replay(events: seq<ReconciliationEvent>): seq<OrderStatus> {
    if events == [] then [] else ReplayEvent(Replay(events[..|events| - 1]), events[|events| - 1])
  }

  function Statuses(orders: seq<PaperOrder>): seq<OrderStatus> {
    seq(|orders|, i requires 0 <= i < |orders| => orders[i].status)
  }

  lemma ReplayStep(events: seq<ReconciliationEvent>, e: ReconciliationEvent)
    ensures Replay(events + [e]) == ReplayEvent(Replay(events), e)
  {
    assert (events + [e])[..|events|] == events;
  }

  // ---------------------------------------------------------------- counting fills

  predicate IsFillEvent(e: ReconciliationEvent, orderId: nat) {
    e.subject == ForOrder(orderId) && (e.status == PartialFill || e.status == Matched)
  }

  function FillEvents(events: seq<ReconciliationEvent>, orderId: nat): nat {
    if events == [] then 0
    else FillEvents(events[..|events| - 1], orderId) + if IsFillEvent(events[|events| - 1], orderId) then 1 else 0
  }

  lemma FillEventsStep(events: seq<ReconciliationEvent>, e: ReconciliationEvent, orderId: nat)
    ensures FillEvents(events + [e], orderId)
            == FillEvents(events, orderId) + if IsFillEvent(e, orderId) then 1 else 0
  {
    assert (events + [e])[..|events|] == events;
  }

  function FillCount(orders: seq<PaperOrder>, orderId: nat): nat {
    if 1 <= orderId <= |orders| then |orders[orderId - 1].fills| else 0
  }

  // ---------------------------------------------------------------- numbering

  ghost predicate Numbered(events: seq<ReconciliationEvent>) {
    forall k :: 0 <= k < |events| ==> events[k].eventId == k + 1
  }

  /** The log is numbered, tells every status, and counts every fill. */
  ghost predicate LogOk(events: seq<ReconciliationEvent>, orders: seq<PaperOrder>) {
    && Numbered(events)
    && Replay(events) == Statuses(orders)
    && forall id: nat :: FillEvents(events, id) == FillCount(orders, id)
  }

  /** How one more event accounts for one change of the order list. */
  lemma LogStep(
    events: seq<ReconciliationEvent>, orders: seq<PaperOrder>, e: ReconciliationEvent, after: seq<PaperOrder>)
    requires LogOk(events, orders) && e.eventId == |events| + 1
    requires ReplayEvent(Statuses(orders), e) == Statuses(after)
    requires forall id: nat :: FillCount(after, id) == FillCount(orders, id) + if IsFillEvent(e, id) then 1 else 0
    ensures LogOk(events + [e], after)
  {
    ReplayStep(events, e);
    forall id: nat ensures FillEvents(events + [e], id) == FillCount(after, id) {
      FillEventsStep(events, e, id);
    }
  }

  // ---------------------------------------------------------------- one pass

  /** The order list halfway through a pass: the first `k` orders visited, the rest untouched. */
  function Halfway(orders: seq<PaperOrder>, visited: seq<PaperOrder>, k: nat): seq<PaperOrder>
    requires k <= |orders| && |visited| == k
  {
    visited + orders[k..]
  }

  lemma FillEventReplays(orders: seq<PaperOrder>, k: nat, after: PaperOrder, e: ReconciliationEvent)
    requires k < |orders| && orders[k].orderId == k + 1 == after.orderId
    requires after.status == Filled || after.status == PartiallyFilled
    requires |after.fills| == |orders[k].fills| + 1
    requires e.subject == ForOrder(k + 1) && e.status == if after.status == Filled then Matched else PartialFill
    ensures ReplayEvent(Statuses(orders), e) == Statuses(orders[k := after])
    ensures forall id: nat ::
              FillCount(orders[k := after], id) == FillCount(orders, id) + if IsFillEvent(e, id) then 1 else 0
  {
    assert ReplayEvent(Statuses(orders), e) == Statuses(orders)[k := after.status];
    assert Statuses(orders[k := after]) == Statuses(orders)[k := after.status];
  }

  lemma {:induction false} PassIsLogged(
    events: seq<ReconciliationEvent>, orders: seq<PaperOrder>, k: nat, policies: seq<FeePolicy>, fillBase: nat,
    now: Time)
    requires k <= |orders| && OrdersOk(orders) && LogOk(events, orders)
    ensures var p := VisitUpTo(orders, k, policies, fillBase, |events|, now);
            && |p.orders| == k && |p.fills| == |p.events|
            && LogOk(events + p.events, Halfway(orders, p.orders, k))
  {
    hide Visit, LogOk, OrderOk, VisitFill, Progress;
    if k == 0 {
      assert events + [] == events && Halfway(orders, [], 0) == orders;
    } else {
      var done := VisitUpTo(orders, k - 1, policies, fillBase, |events|, now);
      PassIsLogged(events, orders, k - 1, policies, fillBase, now);
      VisitIsLogged(events + done.events, Halfway(orders, done.orders, k - 1), k - 1, policies,
                    fillBase + |done.fills| + 1, now);
      var v := Visit(orders[k - 1], policies, fillBase + |done.fills| + 1, |events| + |done.events| + 1, now);
      VisitSize(orders[k - 1], policies, fillBase + |done.fills| + 1, |events| + |done.events| + 1, now);
      assert Halfway(orders, done.orders, k - 1)[k - 1 := v.orders[0]] == Halfway(orders, done.orders + v.orders, k);
      assert events + done.events + v.events == events + (done.events + v.events);
    }
  }

  lemma VisitIsLogged(
    events: seq<ReconciliationEvent>, orders: seq<PaperOrder>, k: nat, policies: seq<FeePolicy>, fillId: nat, now: Time)
    requires k < |orders| && OrderOk(orders[k]) && orders[k].orderId == k + 1 && LogOk(events, orders)
    ensures var v := Visit(orders[k], policies, fillId, |events| + 1, now);
            |v.orders| == 1 && LogOk(events + v.events, orders[k := v.orders[0]])
  {
    hide Visit, LogOk, OrderOk;
    var v := Visit(orders[k], policies, fillId, |events| + 1, now);
    if orders[k].IsOpen() {
      VisitOpen(orders[k], policies, fillId, |events| + 1, now);
      FillEventReplays(orders, k, v.orders[0], v.events[0]);
      LogStep(events, orders, v.events[0], orders[k := v.orders[0]]);
      assert v.events == [v.events[0]];
    } else {
      VisitClosed(orders[k], policies, fillId, |events| + 1, now);
      assert orders[k := orders[k]] == orders && events + [] == events;
    }
  }

  lemma ProcessIsLogged(s: ExchangeState, now: Time)
    requires OrdersOk(s.orders) && LogOk(s.events, s.orders)
    ensures LogOk(Process(s, now).events, Process(s, now).orders)
  {
    hide OrdersOk, LogOk, VisitUpTo, ApplyFills;
    PassIsLogged(s.events, s.orders, |s.orders|, s.account.feePolicies, TotalFills(s.orders), now);
    var p := PassOf(s, now);
    assert Halfway(s.orders, p.orders, |s.orders|) == p.orders;
  }

  // ---------------------------------------------------------------- other operations

  lemma SubmitIsLogged(s: ExchangeState, intent: PaperOrderIntent, now: Time)
    requires LogOk(s.events, s.orders)
    ensures LogOk(Submit(s, intent, now).events, Submit(s, intent, now).orders)
  {
    hide LogOk, Vetoes;
    var after := Submit(s, intent, now);
    var e := after.events[|s.events|];
    assert after.events == s.events + [e];
    assert ReplayEvent(Statuses(s.orders), e) == Statuses(after.orders);
    LogStep(s.events, s.orders, e, after.orders);
  }

  lemma CloseIsLogged(s: ExchangeState, orderId: nat, status: OrderStatus, now: Time, e: ReconciliationEvent)
    requires OrdersOk(s.orders) && LogOk(s.events, s.orders) && e.eventId == |s.events| + 1
    requires e.subject == ForOrder(orderId) && 1 <= orderId <= |s.orders|
    requires (status == Canceled && e.status == CancelRecorded)
             || (status == Expired && e.status == ExpiryRecorded && s.orders[orderId - 1].IsOpen())
    ensures LogOk(s.events + [e], CloseNamed(s.orders, orderId, status, now))
  {
    hide LogOk, OrderOk;
    var after := CloseNamed(s.orders, orderId, status, now);
    assert ReplayEvent(Statuses(s.orders), e) == Statuses(after);
    LogStep(s.events, s.orders, e, after);
  }

  lemma PanicCancelIsLogged(s: ExchangeState, now: Time)
    requires LogOk(s.events, s.orders)
    ensures LogOk(PanicCancel(s, now).events, PanicCancel(s, now).orders)
  {
    hide LogOk;
    var after := PanicCancel(s, now);
    var e := after.events[|s.events|];
    assert ReplayEvent(Statuses(s.orders), e) == Statuses(after.orders);
    LogStep(s.events, s.orders, e, after.orders);
  }

  lemma FlattenIsLogged(s: ExchangeState, now: Time, loggedAt: Time)
    requires LogOk(s.events, s.orders)
    ensures LogOk(PanicFlatten(s, now, loggedAt).events, PanicFlatten(s, now, loggedAt).orders)
  {
    hide LogOk, DefaultAccountState;
    var e := PanicFlatten(s, now, loggedAt).events[|s.events|];
    LogStep(s.events, s.orders, e, s.orders);
  }

  lemma EmptyLog()
    ensures LogOk([], [])
  {
  }

  lemma StepIsLogged(s: ExchangeState, op: Operation)
    requires OrdersOk(s.orders) && LogOk(s.events, s.orders)
    ensures LogOk(Step(s, op).events, Step(s, op).orders)
  {
    hide LogOk, OrderOk, Submit, Process, CloseNamed, PanicCancel, PanicFlatten, DefaultAccountState;
    match op
    case SubmitOp(intent, now) => SubmitIsLogged(s, intent, now);
    case ProcessOp(now) => ProcessIsLogged(s, now);
    case CancelOp(orderId, now, loggedAt) =>
      if Known(s, orderId) {
        CloseIsLogged(s, orderId, Canceled, now,
          ReconciliationEvent(|s.events| + 1, ForOrder(orderId), CancelRecorded, [CancelRequested], loggedAt));
      }
    case ExpireOp(orderId, now) =>
      if exists i :: 0 <= i < |s.orders| && s.orders[i].orderId == orderId && s.orders[i].IsOpen() {
        CloseIsLogged(s, orderId, Expired, now,
          ReconciliationEvent(|s.events| + 1, ForOrder(orderId), ExpiryRecorded, [LifecycleExpired], now));
      }
    case PanicCancelOp(now) => PanicCancelIsLogged(s, now);
    case PanicFlattenOp(now, loggedAt) => FlattenIsLogged(s, now, loggedAt);
    case PanicHaltOp =>
    case ResetOp(_) => EmptyLog();
  }

  /** Event-log replay: in every reachable state, folding the log rebuilds the status of every
      order, the fill events naming an order number exactly its fills, and events are numbered
      by their place. */
  lemma {:induction false} LogTellsTheStory(account: AccountState, takerGateEnabled: bool, ops: seq<Operation>)
    ensures var s := Run(Initial(account, takerGateEnabled), ops);
            OrdersOk(s.orders) && LogOk(s.events, s.orders)
  {
    hide OrdersOk, LogOk, Step;
    if ops == [] {
      NoOrdersAreOk();
      EmptyLog();
    } else {
      var n := |ops| - 1;
      LogTellsTheStory(account, takerGateEnabled, ops[..n]);
      StepKeepsOrders(Run(Initial(account, takerGateEnabled), ops[..n]), ops[n]);
      StepIsLogged(Run(Initial(account, takerGateEnabled), ops[..n]), ops[n]);
    }
  }
}
