/** Exposure over whole runs with any number of open orders at any prices: what a measure comes to
    if every open order fills, against its limit, what the gate did not count when it last admitted
    an order, and the drift of the fills since. */
module CrowdedExposure {
  import opened Schemas
  import opened Accounting
  import opened BookLaws
  import opened Sums
  import opened Exposure
  import opened Risk
  import opened ExchangeModel
  import opened OrderState
  import opened Lifecycle
  import opened ExposureSafety

  // ---------------------------------------------------------------- pending notionals

  function PendingFor(m: Measure, o: PaperOrder): real {
    if o.IsOpen() && Concerns(m, o.intent.symbol) then Pending(o) else 0.0
  }

  function Pendings(m: Measure, orders: seq<PaperOrder>): seq<real> {
    seq(|orders|, i requires 0 <= i < |orders| => PendingFor(m, orders[i]))
  }

  /** What open orders may still add to a measure. */
  function PendingOf(m: Measure, orders: seq<PaperOrder>): real {
    Sum(Pendings(m, orders))
  }

  lemma PendingNonNegative(m: Measure, o: PaperOrder)
    requires OrderOk(o)
    ensures PendingFor(m, o) >= 0.0
  {
    FilledQuantityByStatus(o);
    ProductNonNegative(o.Remaining(), o.intent.limitPrice);
  }

  lemma PendingOfNonNegative(m: Measure, orders: seq<PaperOrder>)
    requires OrdersOk(orders)
    ensures PendingOf(m, orders) >= 0.0
  {
    hide PendingFor, OrderOk;
    forall i | 0 <= i < |orders| ensures Pendings(m, orders)[i] >= 0.0 {
      PendingNonNegative(m, orders[i]);
    }
    SumNonNegative(Pendings(m, orders));
  }

  lemma PendingOfReplaced(m: Measure, orders: seq<PaperOrder>, k: nat, o: PaperOrder)
    requires k < |orders|
    ensures PendingOf(m, orders[k := o]) == PendingOf(m, orders) + PendingFor(m, o) - PendingFor(m, orders[k])
  {
    hide PendingFor;
    assert Pendings(m, orders[k := o]) == Pendings(m, orders)[k := PendingFor(m, o)];
    SumReplaced(Pendings(m, orders), k, PendingFor(m, o));
  }

  lemma PendingOfAppended(m: Measure, orders: seq<PaperOrder>, o: PaperOrder)
    ensures PendingOf(m, orders + [o]) == PendingOf(m, orders) + PendingFor(m, o)
  {
    hide PendingFor;
    assert Pendings(m, orders + [o])[..|orders|] == Pendings(m, orders);
  }

  /** Closing orders only takes pending notional away. */
  lemma ClosingTakesPending(m: Measure, orders: seq<PaperOrder>, after: seq<PaperOrder>)
    requires OrdersOk(orders) && |after| == |orders|
    requires forall i :: 0 <= i < |orders| && after[i].IsOpen() ==> after[i] == orders[i]
    ensures PendingOf(m, after) <= PendingOf(m, orders)
  {
    hide OrderOk;
    forall i | 0 <= i < |orders| ensures Pendings(m, after)[i] <= Pendings(m, orders)[i] {
      PendingNonNegative(m, orders[i]);
    }
    SumAtMost(Pendings(m, after), Pendings(m, orders));
  }

  // ---------------------------------------------------------------- drift along fills

  function FillDrift(m: Measure, a: AccountState, f: PaperFill): real {
    if Concerns(m, f.symbol) then Drift(a.positionBooks, f.symbol, f.bookSide, f.price) else 0.0
  }

  /** The drift of each fill as it is booked. */
  function DriftAlong(m: Measure, a: AccountState, fills: seq<PaperFill>): real {
    if fills == [] then 0.0
    else
      var before := fills[..|fills| - 1];
      DriftAlong(m, a, before) + FillDrift(m, ApplyFills(a, before), fills[|fills| - 1])
  }

  ghost predicate WellKept(a: AccountState) {
    BooksOk(a.positionBooks) && UniqueKeys(a.positionBooks)
  }

  /** What the measure comes to if every open order fills, drift aside. */
  function Exposed(m: Measure, a: AccountState, orders: seq<PaperOrder>): real {
    Size(m, a.positionBooks) + PendingOf(m, orders)
  }

  /** A fill turns pending notional into size, and adds its drift. */
  lemma FillTurnsPending(a: AccountState, o: PaperOrder, f: PaperFill, m: Measure)
    requires WellKept(a) && OrderOk(o) && o.IsOpen() && FillsOrder(f, o) && f.quantity <= o.Remaining() && Limited(m)
    ensures WellKept(ApplyPaperFill(a, f))
    ensures Size(m, ApplyPaperFill(a, f).positionBooks) + PendingFor(m, AfterFill(o, f))
            <= Size(m, a.positionBooks) + PendingFor(m, o) + FillDrift(m, a, f)
    ensures PendingFor(m, AfterFill(o, f)) <= PendingFor(m, o)
  {
    hide OrderOk, Size, Pending, Drift, UpdatedBooks, NotionalOk;
    PendingAfterFill(o, f);
    UpdateMovesAll(a.positionBooks, f);
    FillClearsDrift(a.positionBooks, f, UpdatedBooks(a.positionBooks, f));
    UniqueFillGrowth(m, a.positionBooks, f, f.quantity * f.price);
  }

  // ---------------------------------------------------------------- one pass

  /** Exposure halfway through a pass, against what it was before. */
  ghost predicate PassBounded(m: Measure, a: AccountState, orders: seq<PaperOrder>, k: nat, p: Pass)
    requires k <= |orders|
  {
    && |p.orders| == k && WellKept(ApplyFills(a, p.fills))
    && Exposed(m, ApplyFills(a, p.fills), p.orders + orders[k..]) <= Exposed(m, a, orders) + DriftAlong(m, a, p.fills)
    && PendingOf(m, p.orders + orders[k..]) <= PendingOf(m, orders)
  }

  lemma PassBoundedStep(m: Measure, a: AccountState, orders: seq<PaperOrder>, k: nat, done: Pass, v: Pass)
    requires k < |orders| && OrderOk(orders[k]) && orders[k].IsOpen() && Limited(m)
    requires PassBounded(m, a, orders, k, done)
    requires |v.orders| == |v.fills| == 1 && FilledBy(orders[k], v.fills[0], v.orders[0])
    ensures PassBounded(m, a, orders, k + 1, Pass(done.orders + v.orders, done.fills + v.fills, done.events + v.events))
  {
    hide OrderOk, FillsOrder, WellKept, PendingFor, PendingOf, FillDrift, Size, AfterFill, ApplyPaperFill;
    var f, after := v.fills[0], v.orders[0];
    var halfway := done.orders + orders[k..];
    FillTurnsPending(ApplyFills(a, done.fills), orders[k], f, m);
    PendingOfReplaced(m, halfway, k, after);
    assert halfway[k := after] == done.orders + v.orders + orders[k + 1..];
    assert v.fills == [f];
    ApplyFillsStep(a, done.fills, f);
    DriftAlongStep(m, a, done.fills, f);
  }

  lemma DriftAlongStep(m: Measure, a: AccountState, fills: seq<PaperFill>, f: PaperFill)
    ensures DriftAlong(m, a, fills + [f]) == DriftAlong(m, a, fills) + FillDrift(m, ApplyFills(a, fills), f)
  {
    assert (fills + [f])[..|fills|] == fills;
  }

  lemma {:induction false} PassIsBounded(
    m: Measure, a: AccountState, orders: seq<PaperOrder>, k: nat, policies: seq<FeePolicy>,
    fillBase: nat, eventBase: nat, now: Time)
    requires k <= |orders| && OrdersOk(orders) && WellKept(a) && Limited(m)
    ensures PassBounded(m, a, orders, k, VisitUpTo(orders, k, policies, fillBase, eventBase, now))
  {
    hide Visit, OrderOk, PassBounded, FilledBy;
    if k == 0 {
      NothingVisited(m, a, orders);
    } else {
      var done := VisitUpTo(orders, k - 1, policies, fillBase, eventBase, now);
      var fillId, eventId := fillBase + |done.fills| + 1, eventBase + |done.events| + 1;
      PassIsBounded(m, a, orders, k - 1, policies, fillBase, eventBase, now);
      if orders[k - 1].IsOpen() {
        VisitOpenFill(orders[k - 1], policies, fillId, eventId, now);
        PassBoundedStep(m, a, orders, k - 1, done, Visit(orders[k - 1], policies, fillId, eventId, now));
      } else {
        VisitClosed(orders[k - 1], policies, fillId, eventId, now);
        SkippedOne(m, a, orders, k - 1, done);
      }
    }
  }

  lemma NothingVisited(m: Measure, a: AccountState, orders: seq<PaperOrder>)
    requires WellKept(a)
    ensures PassBounded(m, a, orders, 0, Pass([], [], []))
  {
    assert [] + orders[0..] == orders;
  }

  lemma SkippedOne(m: Measure, a: AccountState, orders: seq<PaperOrder>, k: nat, done: Pass)
    requires k < |orders| && PassBounded(m, a, orders, k, done)
    ensures PassBounded(m, a, orders, k + 1, Pass(done.orders + [orders[k]], done.fills + [], done.events + []))
  {
    hide WellKept, PendingOf, Size;
    assert done.orders + [orders[k]] + orders[k + 1..] == done.orders + orders[k..];
    assert done.fills + [] == done.fills;
  }

  // ---------------------------------------------------------------- what the gate did not count

  /** `crowd`: pending notional of the other open orders when an order concerning the measure was last
      admitted.  `drift`: drift of the fills since then.  A flatten clears the drift, a reset both. */
  datatype Allowance = Allowance(crowd: real, drift: real)

  function NextAllowance(m: Measure, s: ExchangeState, op: Operation, x: Allowance): Allowance {
    match op
    case SubmitOp(intent, now) =>
      if Admits(s, intent, now) && Concerns(m, intent.symbol) then Allowance(PendingOf(m, s.orders), 0.0) else x
    case ProcessOp(now) => x.(drift := x.drift + DriftAlong(m, s.account, PassOf(s, now).fills))
    case PanicFlattenOp(_, _) => x.(drift := 0.0)
    case ResetOp(_) => Allowance(0.0, 0.0)
    case CancelOp(_, _, _) => x
    case ExpireOp(_, _) => x
    case PanicCancelOp(_) => x
    case PanicHaltOp => x
  }

  function AllowanceOf(m: Measure, account: AccountState, takerGateEnabled: bool, ops: seq<Operation>): Allowance {
    if ops == [] then Allowance(0.0, 0.0)
    else
      var n := |ops| - 1;
      NextAllowance(m, Run(Initial(account, takerGateEnabled), ops[..n]), ops[n],
                    AllowanceOf(m, account, takerGateEnabled, ops[..n]))
  }

  /** Exposure and pending notional within what is allowed. */
  ghost predicate Bounded(m: Measure, s: ExchangeState, x: Allowance) {
    && WellKept(s.account)
    && Exposed(m, s.account, s.orders) <= DefaultLimit(m) + x.crowd + x.drift
    && PendingOf(m, s.orders) <= DefaultLimit(m) + x.crowd
  }

  lemma SubmitStaysBounded(m: Measure, s: ExchangeState, x: Allowance, intent: PaperOrderIntent, now: Time)
    requires Bounded(m, s, x) && Limited(m)
    ensures Bounded(m, Submit(s, intent, now), NextAllowance(m, s, SubmitOp(intent, now), x))
  {
    hide Vetoes, Size, PendingFor, PendingOf, BooksOk, UniqueKeys, DefaultLimit, Admits;
    if Admits(s, intent, now) {
      var o := NewOrder(|s.orders| + 1, intent, now);
      AdmissionRoom(s, intent, now);
      PendingOfAppended(m, s.orders, o);
      NewOrderPendingFor(m, |s.orders| + 1, intent, now);
      SizeNonNegative(m, s.account.positionBooks);
    }
  }

  lemma NewOrderPendingFor(m: Measure, orderId: nat, intent: PaperOrderIntent, now: Time)
    requires intent.quantity > 0.0
    ensures PendingFor(m, NewOrder(orderId, intent, now))
            == if Concerns(m, intent.symbol) then intent.Notional() else 0.0
  {
    NewOrderPending(orderId, intent, now);
  }

  lemma ProcessStaysBounded(m: Measure, s: ExchangeState, x: Allowance, now: Time)
    requires OrdersOk(s.orders) && Bounded(m, s, x) && Limited(m)
    ensures Bounded(m, Process(s, now), NextAllowance(m, s, ProcessOp(now), x))
  {
    hide OrdersOk, WellKept, Size, PendingOf, VisitUpTo, ApplyFills, DefaultLimit, DriftAlong;
    PassIsBounded(m, s.account, s.orders, |s.orders|, s.account.feePolicies, TotalFills(s.orders), |s.events|, now);
    var p := PassOf(s, now);
    assert p.orders + s.orders[|s.orders|..] == p.orders;
  }

  lemma ClosingStaysBounded(m: Measure, s: ExchangeState, x: Allowance, after: ExchangeState)
    requires OrdersOk(s.orders) && Bounded(m, s, x) && after.account == s.account && |after.orders| == |s.orders|
    requires forall i :: 0 <= i < |s.orders| && after.orders[i].IsOpen() ==> after.orders[i] == s.orders[i]
    ensures Bounded(m, after, x)
  {
    hide OrdersOk, WellKept, Size, PendingOf, DefaultLimit;
    ClosingTakesPending(m, s.orders, after.orders);
  }

  lemma RenewalStaysBounded(m: Measure, s: ExchangeState, x: Allowance, now: Time, orders: seq<PaperOrder>)
    requires PendingOf(m, orders) <= DefaultLimit(m) + x.crowd
    ensures Bounded(m, s.(account := DefaultAccountState(now), orders := orders), x.(drift := 0.0))
  {
    hide Size, PendingOf, BooksOk, UniqueKeys, DefaultLimit;
    DefaultBooksCarryNothing(m, BTCUSDC, Long, 0.0);
  }

  lemma LimitsArePositive(m: Measure)
    ensures DefaultLimit(m) > 0.0
  {
  }

  lemma StepStaysBounded(m: Measure, s: ExchangeState, x: Allowance, op: Operation)
    requires OrdersOk(s.orders) && Bounded(m, s, x) && Limited(m)
    ensures Bounded(m, Step(s, op), NextAllowance(m, s, op, x))
  {
    hide OrderOk, Submit, Process, Admits, WellKept, Exposed, DefaultAccountState, DefaultLimit;
    match op
    case SubmitOp(intent, now) => SubmitStaysBounded(m, s, x, intent, now);
    case ProcessOp(now) => ProcessStaysBounded(m, s, x, now);
    case CancelOp(_, _, _) => ClosingStaysBounded(m, s, x, Step(s, op));
    case ExpireOp(_, _) => ClosingStaysBounded(m, s, x, Step(s, op));
    case PanicCancelOp(_) => ClosingStaysBounded(m, s, x, Step(s, op));
    case PanicFlattenOp(now, _) => RenewalStaysBounded(m, Step(s, op), x, now, s.orders);
    case PanicHaltOp => ClosingStaysBounded(m, s, x, Step(s, op));
    case ResetOp(now) =>
      LimitsArePositive(m);
      RenewalStaysBounded(m, Step(s, op), Allowance(0.0, 0.0), now, []);
  }

  // ---------------------------------------------------------------- whole runs

  /** In every run, whatever the prices and however many orders rest, every limited measure plus all that
      open orders may still add to it stays within its limit, plus what was pending when an order
      concerning it was last admitted, plus the drift of the fills since. */
  lemma {:induction false} ExposureCountsPending(
    m: Measure, account: AccountState, takerGateEnabled: bool, ops: seq<Operation>)
    requires WellKept(account) && Limited(m) && Size(m, account.positionBooks) <= DefaultLimit(m)
    ensures var s := Run(Initial(account, takerGateEnabled), ops);
            OrdersOk(s.orders) && Bounded(m, s, AllowanceOf(m, account, takerGateEnabled, ops))
  {
    hide OrdersOk, WellKept, Size, DefaultLimit, Step, NextAllowance;
    if ops == [] {
      NoOrdersAreOk();
      LimitsArePositive(m);
    } else {
      hide Bounded;
      var n := |ops| - 1;
      var s := Run(Initial(account, takerGateEnabled), ops[..n]);
      ExposureCountsPending(m, account, takerGateEnabled, ops[..n]);
      StepKeepsOrders(s, ops[n]);
      StepStaysBounded(m, s, AllowanceOf(m, account, takerGateEnabled, ops[..n]), ops[n]);
    }
  }

  // ---------------------------------------------------------------- one price per symbol: no drift

  lemma {:induction false} NoDriftAlong(m: Measure, a: AccountState, fills: seq<PaperFill>, price: Symbol -> real)
    requires BooksAtPrices(a.positionBooks, price)
    requires forall f :: f in fills ==> f.price == price(f.symbol) && f.quantity > 0.0
    ensures DriftAlong(m, a, fills) == 0.0
  {
    hide BooksAtPrices, Drift;
    if fills != [] {
      var n := |fills| - 1;
      assert fills[n] in fills;
      NoDriftAlong(m, a, fills[..n], price);
      FillsKeepPrices(a, fills[..n], price);
      NoDriftAtPrices(ApplyFills(a, fills[..n]).positionBooks, fills[n].symbol, fills[n].bookSide, price);
    }
  }

  lemma StepAddsNoDrift(m: Measure, s: ExchangeState, op: Operation, x: Allowance, price: Symbol -> real)
    requires OrdersOk(s.orders) && AtPrices(s, price) && x.drift == 0.0
    ensures NextAllowance(m, s, op, x).drift == 0.0
  {
    hide OrderOk, BooksAtPrices, VisitUpTo, DriftAlong, Admits, PendingOf;
    if op.ProcessOp? {
      PassKeepsPrices(s.orders, |s.orders|, s.account.feePolicies, TotalFills(s.orders), |s.events|, op.now, price);
      NoDriftAlong(m, s.account, PassOf(s, op.now).fills, price);
    }
  }

  lemma {:induction false} NoDriftIsAllowed(
    m: Measure, account: AccountState, takerGateEnabled: bool, ops: seq<Operation>, price: Symbol -> real)
    requires AtPrices(Initial(account, takerGateEnabled), price) && forall op :: op in ops ==> SubmitsAt(op, price)
    ensures AllowanceOf(m, account, takerGateEnabled, ops).drift == 0.0
  {
    hide AtPrices, Step, NextAllowance, SubmitsAt, OrdersOk;
    if ops != [] {
      var n := |ops| - 1;
      var s := Run(Initial(account, takerGateEnabled), ops[..n]);
      NoDriftIsAllowed(m, account, takerGateEnabled, ops[..n], price);
      NoDriftIsNoted(account, takerGateEnabled, ops[..n], price);
      NoOrdersAreOk();
      RunKeepsOrders(Initial(account, takerGateEnabled), ops[..n]);
      StepAddsNoDrift(m, s, ops[n], AllowanceOf(m, account, takerGateEnabled, ops[..n]), price);
    }
  }

  /** With a single price per symbol, from the default account: however many orders rest, exposure with all
      of them filled exceeds a limit by no more than what was pending at the last admission. */
  lemma CrowdIsAllThatExceeds(
    m: Measure, start: Time, takerGateEnabled: bool, ops: seq<Operation>, price: Symbol -> real)
    requires Limited(m) && forall op :: op in ops ==> SubmitsAt(op, price)
    ensures var account := DefaultAccountState(start);
            var s := Run(Initial(account, takerGateEnabled), ops);
            Size(m, s.account.positionBooks) + PendingOf(m, s.orders)
            <= DefaultLimit(m) + AllowanceOf(m, account, takerGateEnabled, ops).crowd
  {
    hide Run, AllowanceOf, SubmitsAt, OrdersOk, AtPrices, Size, PendingOf, DefaultLimit, DefaultAccountState, BooksOk,
         UniqueKeys;
    var account := DefaultAccountState(start);
    DefaultBooksCarryNothing(m, BTCUSDC, Long, 0.0);
    DefaultBooksOf(start);
    LimitsArePositive(m);
    ExposureCountsPending(m, account, takerGateEnabled, ops);
    DefaultAtPrices(start, takerGateEnabled, price);
    NoDriftIsAllowed(m, account, takerGateEnabled, ops, price);
  }

  lemma DefaultBooksOf(start: Time)
    ensures DefaultAccountState(start).positionBooks == DefaultPositionBooks()
  {
  }

  // ---------------------------------------------------------------- a check that counts pending orders

  /** What a caller can check before a submit: the measure, every open order and the new one fit together. */
  predicate RoomFor(m: Measure, s: ExchangeState, intent: PaperOrderIntent) {
    Exposed(m, s.account, s.orders) + intent.Notional() <= DefaultLimit(m)
  }

  /** Every order admitted in the run that concerns the measure had room beside the pending ones. */
  ghost predicate Checked(m: Measure, account: AccountState, takerGateEnabled: bool, ops: seq<Operation>) {
    ops != [] ==>
      var n := |ops| - 1;
      var s := Run(Initial(account, takerGateEnabled), ops[..n]);
      && Checked(m, account, takerGateEnabled, ops[..n])
      && (ops[n].SubmitOp? && Admits(s, ops[n].intent, ops[n].now) && Concerns(m, ops[n].intent.symbol) ==>
           RoomFor(m, s, ops[n].intent))
  }

  lemma CheckedSubmitStaysBounded(
    m: Measure, s: ExchangeState, drift: real, intent: PaperOrderIntent, now: Time)
    requires OrdersOk(s.orders) && Bounded(m, s, Allowance(0.0, drift)) && Limited(m)
    requires Admits(s, intent, now) && Concerns(m, intent.symbol) && RoomFor(m, s, intent)
    ensures Bounded(m, Submit(s, intent, now), Allowance(0.0, 0.0))
  {
    hide Vetoes, Size, PendingFor, PendingOf, BooksOk, UniqueKeys, DefaultLimit, Admits, OrdersOk;
    AdmissionRoom(s, intent, now);
    PendingOfAppended(m, s.orders, NewOrder(|s.orders| + 1, intent, now));
    NewOrderPendingFor(m, |s.orders| + 1, intent, now);
    SizeNonNegative(m, s.account.positionBooks);
  }

  lemma CheckedStepStaysBounded(m: Measure, s: ExchangeState, x: Allowance, op: Operation)
    requires OrdersOk(s.orders) && Bounded(m, s, Allowance(0.0, x.drift)) && Limited(m)
    requires op.SubmitOp? && Admits(s, op.intent, op.now) && Concerns(m, op.intent.symbol) ==> RoomFor(m, s, op.intent)
    ensures Bounded(m, Step(s, op), Allowance(0.0, NextAllowance(m, s, op, x).drift))
  {
    hide OrdersOk, Bounded, Admits, Process, Submit, PendingOf, DriftAlong, PassOf, RoomFor;
    if op.SubmitOp? && Admits(s, op.intent, op.now) && Concerns(m, op.intent.symbol) {
      CheckedSubmitStaysBounded(m, s, x.drift, op.intent, op.now);
    } else {
      StepStaysBounded(m, s, Allowance(0.0, x.drift), op);
    }
  }

  /** The safe runs: if every admitted order had room beside the pending ones when it was submitted, then in
      every reachable state the measure with everything pending stays within its limit, plus only the
      drift of the fills since, however many orders rest. */
  lemma {:induction false} CheckedExposureCountsPending(
    m: Measure, account: AccountState, takerGateEnabled: bool, ops: seq<Operation>)
    requires WellKept(account) && Limited(m) && Size(m, account.positionBooks) <= DefaultLimit(m)
    requires Checked(m, account, takerGateEnabled, ops)
    ensures var s := Run(Initial(account, takerGateEnabled), ops);
            && OrdersOk(s.orders)
            && Bounded(m, s, Allowance(0.0, AllowanceOf(m, account, takerGateEnabled, ops).drift))
  {
    hide OrdersOk, WellKept, Size, DefaultLimit, Step, NextAllowance, RoomFor, Admits;
    if ops == [] {
      NoOrdersAreOk();
      LimitsArePositive(m);
    } else {
      hide Bounded;
      var n := |ops| - 1;
      var s := Run(Initial(account, takerGateEnabled), ops[..n]);
      CheckedExposureCountsPending(m, account, takerGateEnabled, ops[..n]);
      StepKeepsOrders(s, ops[n]);
      CheckedStepStaysBounded(m, s, AllowanceOf(m, account, takerGateEnabled, ops[..n]), ops[n]);
    }
  }

  /** With a single price per symbol, from the default account: checked orders keep the measure within its
      limit in every reachable state, and would if every open order filled. */
  lemma CheckedRunsStayWithinLimits(
    m: Measure, start: Time, takerGateEnabled: bool, ops: seq<Operation>, price: Symbol -> real)
    requires Limited(m) && (forall op :: op in ops ==> SubmitsAt(op, price))
    requires Checked(m, DefaultAccountState(start), takerGateEnabled, ops)
    ensures var s := Run(Initial(DefaultAccountState(start), takerGateEnabled), ops);
            && Exposed(m, s.account, s.orders) <= DefaultLimit(m)
            && Size(m, s.account.positionBooks) <= DefaultLimit(m)
  {
    hide Run, AllowanceOf, SubmitsAt, OrdersOk, AtPrices, Size, PendingOf, DefaultLimit, DefaultAccountState, BooksOk,
         UniqueKeys, Checked;
    var account := DefaultAccountState(start);
    DefaultBooksCarryNothing(m, BTCUSDC, Long, 0.0);
    DefaultBooksOf(start);
    LimitsArePositive(m);
    CheckedExposureCountsPending(m, account, takerGateEnabled, ops);
    DefaultAtPrices(start, takerGateEnabled, price);
    NoDriftIsAllowed(m, account, takerGateEnabled, ops, price);
    PendingOfNonNegative(m, Run(Initial(account, takerGateEnabled), ops).orders);
  }

  /** So the whole report stays within limits when the check is made for every measure. */
  lemma CheckedRunsReportWithinLimits(start: Time, takerGateEnabled: bool, ops: seq<Operation>, price: Symbol -> real)
    requires forall op :: op in ops ==> SubmitsAt(op, price)
    requires forall m :: Limited(m) ==> Checked(m, DefaultAccountState(start), takerGateEnabled, ops)
    ensures ReportWithinLimits(Run(Initial(DefaultAccountState(start), takerGateEnabled), ops).account)
  {
    hide Run, SubmitsAt, Size, DefaultLimit, DefaultAccountState, Checked, Exposed, ReportWithinLimits;
    var s := Run(Initial(DefaultAccountState(start), takerGateEnabled), ops);
    forall m | Limited(m) ensures Size(m, s.account.positionBooks) <= DefaultLimit(m) {
      CheckedRunsStayWithinLimits(m, start, takerGateEnabled, ops, price);
    }
    SizesWithinReport(s.account);
  }

  lemma NothingPending(m: Measure, orders: seq<PaperOrder>)
    requires forall i :: 0 <= i < |orders| ==> !orders[i].IsOpen()
    ensures PendingOf(m, orders) == 0.0
  {
    SumOfZeros(Pendings(m, orders));
  }

  lemma AloneHasRoom(m: Measure, s: ExchangeState, intent: PaperOrderIntent, now: Time)
    requires Admits(s, intent, now) && Concerns(m, intent.symbol) && AtMostOneOpen(Submit(s, intent, now).orders)
    ensures RoomFor(m, s, intent)
  {
    hide Vetoes, Size, PendingOf, DefaultLimit, Admits;
    var after := Submit(s, intent, now).orders;
    assert after[|s.orders|].IsOpen();
    forall i | 0 <= i < |s.orders| ensures !s.orders[i].IsOpen() {
      assert after[i] == s.orders[i];
    }
    NothingPending(m, s.orders);
    AdmissionRoom(s, intent, now);
  }

  /** Runs with at most one open order at a time are checked without checking: the gate itself leaves room
      for a lone order. */
  lemma {:induction false} OneAtATimeIsChecked(
    m: Measure, account: AccountState, takerGateEnabled: bool, ops: seq<Operation>)
    requires OneAtATime(account, takerGateEnabled, ops)
    ensures Checked(m, account, takerGateEnabled, ops)
  {
    hide RoomFor, Admits, AtMostOneOpen, Submit;
    if ops != [] {
      var n := |ops| - 1;
      var s := Run(Initial(account, takerGateEnabled), ops[..n]);
      OneAtATimeIsChecked(m, account, takerGateEnabled, ops[..n]);
      if ops[n].SubmitOp? && Admits(s, ops[n].intent, ops[n].now) && Concerns(m, ops[n].intent.symbol) {
        AloneHasRoom(m, s, ops[n].intent, ops[n].now);
      }
    }
  }
}
