/** What operations never undo: closed orders stay as they are, open orders finish within two
    passes, and a halted exchange never takes another order. */
module ProgressLaws {
  import opened Schemas
  import opened Accounting
  import opened Pricing
  import opened Risk
  import opened ExchangeModel
  import opened OrderState
  import opened Lifecycle

  // ---------------------------------------------------------------- two passes complete every order

  predicate NoneOpen(orders: seq<PaperOrder>) {
    forall i :: 0 <= i < |orders| ==> !orders[i].IsOpen()
  }

  /** Two passes leave no open order, whatever the state before; a third changes nothing at all. */
  lemma TwoPassesComplete(s: ExchangeState, t1: Time, t2: Time, t3: Time)
    requires OrdersOk(s.orders)
    ensures var done := Process(Process(s, t1), t2);
            NoneOpen(done.orders) && Process(done, t3) == done
  {
    hide OrderOk, VisitUpTo, ApplyFills;
    var once := Process(s, t1);
    var twice := Process(once, t2);
    PassProgress(s.orders, s.account.feePolicies, TotalFills(s.orders), |s.events|, t1);
    ProcessKeepsOrders(s, t1);
    PassProgress(once.orders, once.account.feePolicies, TotalFills(once.orders), |once.events|, t2);
    forall i | 0 <= i < |twice.orders| ensures !twice.orders[i].IsOpen() {
      QuotedOrder(s.orders[i], t1);
      QuotedOrder(once.orders[i], t2);
    }
    IdlePass(twice, t3);
  }

  lemma QuotedOrder(o: PaperOrder, now: Time)
    requires OrderOk(o)
    ensures QuoteFor(o.intent.symbol, now).Some?
  {
  }

  lemma IdlePass(s: ExchangeState, now: Time)
    requires NoneOpen(s.orders)
    ensures Process(s, now) == s
  {
    ClosedPassIsIdle(s.orders, |s.orders|, s.account.feePolicies, TotalFills(s.orders), |s.events|, now);
    assert s.orders[..|s.orders|] == s.orders;
    assert s.events + [] == s.events;
  }

  /** The first pass completes exactly the new orders priced better than the touch and the
      orders already half filled; every other open order is left half filled. */
  lemma FirstPass(s: ExchangeState, now: Time, i: nat)
    requires OrdersOk(s.orders) && i < |s.orders| && s.orders[i].IsOpen()
    ensures i < |Process(s, now).orders|
    ensures var o := s.orders[i];
            var after := Process(s, now).orders[i];
            && QuoteFor(o.intent.symbol, now).Some?
            && (after.status == Filled <==>
                o.status == PartiallyFilled
                || PlacementOf(o.intent, QuoteFor(o.intent.symbol, now).value) == BetterThanTouch)
            && (after.status != Filled ==>
                 after.status == PartiallyFilled && after.filledQuantity == o.intent.quantity / 2.0)
  {
    hide VisitUpTo, ApplyFills;
    PassProgress(s.orders, s.account.feePolicies, TotalFills(s.orders), |s.events|, now);
    FilledQuantityByStatus(Process(s, now).orders[i]);
  }

  // ---------------------------------------------------------------- closed orders are frozen

  /** The later order continues the earlier one; a closed order is the same order. */
  predicate Continues(o: PaperOrder, later: PaperOrder) {
    && later.orderId == o.orderId && later.intent == o.intent && later.createdAt == o.createdAt
    && o.fills <= later.fills
    && (!o.IsOpen() ==> later == o)
  }

  ghost predicate AllContinue(orders: seq<PaperOrder>, later: seq<PaperOrder>) {
    |orders| <= |later| && forall i :: 0 <= i < |orders| ==> Continues(orders[i], later[i])
  }

  lemma ContinuesIsTransitive(a: seq<PaperOrder>, b: seq<PaperOrder>, c: seq<PaperOrder>)
    requires AllContinue(a, b) && AllContinue(b, c)
    ensures AllContinue(a, c)
  {
    forall i | 0 <= i < |a| ensures Continues(a[i], c[i]) {
      assert Continues(a[i], b[i]) && Continues(b[i], c[i]);
    }
  }

  lemma ProcessContinues(s: ExchangeState, now: Time)
    requires OrdersOk(s.orders)
    ensures AllContinue(s.orders, Process(s, now).orders)
  {
    hide OrderOk, VisitUpTo, ApplyFills, NextStatus;
    PassProgress(s.orders, s.account.feePolicies, TotalFills(s.orders), |s.events|, now);
    var after := Process(s, now).orders;
    forall i | 0 <= i < |s.orders| ensures Continues(s.orders[i], after[i]) {
      assert Progress(s.orders[i], after[i], now);
    }
  }

  lemma SubmitContinues(s: ExchangeState, intent: PaperOrderIntent, now: Time)
    ensures AllContinue(s.orders, Submit(s, intent, now).orders)
  {
    hide Vetoes;
  }

  lemma StepContinues(s: ExchangeState, op: Operation)
    requires OrdersOk(s.orders) && !op.ResetOp?
    ensures AllContinue(s.orders, Step(s, op).orders)
  {
    hide OrdersOk, Submit, Process;
    match op
    case SubmitOp(intent, now) => SubmitContinues(s, intent, now);
    case ProcessOp(now) => ProcessContinues(s, now);
    case CancelOp(_, _, _) =>
    case ExpireOp(_, _) =>
    case PanicCancelOp(_) =>
    case PanicFlattenOp(_, _) =>
    case PanicHaltOp =>
  }

  /** Until the next reset the order list only grows, an order keeps its id, terms and past
      fills, and a filled, canceled or expired order never changes again. */
  lemma {:induction false} ClosedOrdersAreFrozen(s: ExchangeState, ops: seq<Operation>)
    requires OrdersOk(s.orders) && forall op :: op in ops ==> !op.ResetOp?
    ensures AllContinue(s.orders, Run(s, ops).orders)
  {
    hide OrdersOk, Step, AllContinue;
    if ops == [] {
      ContinueSelf(s.orders);
    } else {
      var n := |ops| - 1;
      assert ops[n] in ops;
      ClosedOrdersAreFrozen(s, ops[..n]);
      RunKeepsOrders(s, ops[..n]);
      StepContinues(Run(s, ops[..n]), ops[n]);
      ContinuesIsTransitive(s.orders, Run(s, ops[..n]).orders, Run(s, ops).orders);
    }
  }

  lemma ContinueSelf(orders: seq<PaperOrder>)
    ensures AllContinue(orders, orders)
  {
  }

  // ---------------------------------------------------------------- halt permanence

  predicate PanicActive(s: ExchangeState) {
    s.riskState.panicHaltActive
  }

  /** The risk state alone vetoes every submit, even after a reset has lifted the halt flag. */
  lemma PanicVetoes(s: ExchangeState, intent: PaperOrderIntent, now: Time)
    requires PanicActive(s)
    ensures !Admits(s, intent, now)
    ensures Submit(s, intent, now).orders == s.orders
  {
    hide Preview, AccountErrors, MarketReasons, ExposureReasons, MissingBooks;
    var preview := PreviewOrder(s, intent, now);
    PreviewReasons(s, intent, now);
    assert StateReasons(DEFAULT_LIMITS, s.riskState)[0] == PanicHaltActive;
  }

  lemma PreviewReasons(s: ExchangeState, intent: PaperOrderIntent, now: Time)
    ensures PreviewOrder(s, intent, now).accepted <==> PreviewOrder(s, intent, now).reasons == []
  {
    hide InstrumentReasons, FeeReasons, QuoteReasons, MakerFirstReasons, CalculateExpectedEdge;
  }

  lemma PassKeepsCount(s: ExchangeState, now: Time)
    ensures |Process(s, now).orders| == |s.orders|
  {
    hide VisitUpTo, ApplyFills;
    PassLength(s.orders, |s.orders|, s.account.feePolicies, TotalFills(s.orders), |s.events|, now);
  }

  lemma HaltedStep(s: ExchangeState, op: Operation)
    requires PanicActive(s)
    ensures PanicActive(Step(s, op)) && |Step(s, op).orders| <= |s.orders|
  {
    hide Vetoes, Process, DefaultAccountState;
    match op
    case SubmitOp(intent, now) => PanicVetoes(s, intent, now);
    case ProcessOp(now) => PassKeepsCount(s, now); KeepsRiskState(s, now);
    case CancelOp(_, _, _) =>
    case ExpireOp(_, _) =>
    case PanicCancelOp(_) =>
    case PanicFlattenOp(_, _) =>
    case PanicHaltOp =>
    case ResetOp(_) =>
  }

  lemma KeepsRiskState(s: ExchangeState, now: Time)
    ensures Process(s, now).riskState == s.riskState
  {
    hide VisitUpTo, ApplyFills;
  }

  /** Halt permanence: once `panic_halt` has run, no sequence of operations, resets included,
      ever adds an order to the book. */
  lemma {:induction false} HaltIsPermanent(s: ExchangeState, ops: seq<Operation>)
    ensures PanicActive(PanicHalt(s))
    ensures PanicActive(Run(PanicHalt(s), ops))
    ensures |Run(PanicHalt(s), ops).orders| <= |s.orders|
    ensures forall intent, now :: !Admits(Run(PanicHalt(s), ops), intent, now)
  {
    hide Step, Vetoes, Admits;
    if ops != [] {
      var n := |ops| - 1;
      HaltIsPermanent(s, ops[..n]);
      HaltedStep(Run(PanicHalt(s), ops[..n]), ops[n]);
    }
    var last := Run(PanicHalt(s), ops);
    forall intent, now ensures !Admits(last, intent, now) {
      PanicVetoes(last, intent, now);
    }
  }

  /** The halt stops new orders only: an order already open still fills. */
  lemma HaltedOrdersStillFill(s: ExchangeState, now: Time, i: nat)
    requires OrdersOk(s.orders) && i < |s.orders| && s.orders[i].IsOpen()
    ensures i < |Process(PanicHalt(s), now).orders|
    ensures |Process(PanicHalt(s), now).orders[i].fills| > |s.orders[i].fills|
  {
    hide VisitUpTo, ApplyFills;
    var halted := PanicHalt(s);
    FirstPass(halted, now, i);
    ProcessKeepsOrders(halted, now);
    var after := Process(halted, now).orders[i];
    ProcessContinues(halted, now);
    assert Continues(s.orders[i], after);
    FilledQuantityByStatus(after);
    FilledQuantityByStatus(s.orders[i]);
  }
}
