/** Exposure over whole runs: with one open order at a time, every figure the risk gate looks at
    stays within its limit plus the drift noted when the last order was accepted. */
module ExposureSafety {
  import opened Schemas
  import opened Accounting
  import opened BookLaws
  import opened Sums
  import opened Exposure
  import opened Pricing
  import opened Risk
  import opened ExchangeModel
  import opened OrderState
  import opened Lifecycle

  // ---------------------------------------------------------------- drift noted on acceptance

  /** The drift an order brings, noted when it is accepted: for the account as a whole the last
      accepted order's, for a symbol the last accepted on that symbol.  A renewal clears it. */
  datatype DriftNote = DriftNote(last: real, bySymbol: map<Symbol, real>)

  const NO_DRIFT := DriftNote(0.0, map[])

  function Noted(m: Measure, d: DriftNote): real {
    if !m.InSymbol? then d.last else if m.symbol in d.bySymbol then d.bySymbol[m.symbol] else 0.0
  }

  function OrderDrift(a: AccountState, intent: PaperOrderIntent): real {
    Drift(a.positionBooks, intent.symbol, intent.bookSide, intent.limitPrice)
  }

  function NoteOrder(d: DriftNote, symbol: Symbol, drift: real): DriftNote {
    DriftNote(drift, d.bySymbol[symbol := drift])
  }

  function AdvanceNote(s: ExchangeState, d: DriftNote, op: Operation): DriftNote {
    match op
    case SubmitOp(intent, now) =>
      if Admits(s, intent, now) then NoteOrder(d, intent.symbol, OrderDrift(s.account, intent)) else d
    case PanicFlattenOp(_, _) => NO_DRIFT
    case ResetOp(_) => NO_DRIFT
    case ProcessOp(_) => d
    case CancelOp(_, _, _) => d
    case ExpireOp(_, _) => d
    case PanicCancelOp(_) => d
    case PanicHaltOp => d
  }

  function NoteOf(account: AccountState, takerGateEnabled: bool, ops: seq<Operation>): DriftNote {
    if ops == [] then NO_DRIFT
    else
      var n := |ops| - 1;
      AdvanceNote(Run(Initial(account, takerGateEnabled), ops[..n]), NoteOf(account, takerGateEnabled, ops[..n]),
                  ops[n])
  }

  // ---------------------------------------------------------------- the invariant

  ghost predicate AtMostOneOpen(orders: seq<PaperOrder>) {
    forall i, j :: 0 <= i < |orders| && 0 <= j < |orders| && orders[i].IsOpen() && orders[j].IsOpen() ==> i == j
  }

  /** At no point of the run are two orders open. */
  ghost predicate OneAtATime(account: AccountState, takerGateEnabled: bool, ops: seq<Operation>) {
    && AtMostOneOpen(Run(Initial(account, takerGateEnabled), ops).orders)
    && (ops != [] ==> OneAtATime(account, takerGateEnabled, ops[..|ops| - 1]))
  }

  function DefaultLimit(m: Measure): real {
    LimitOf(m, DEFAULT_LIMITS)
  }

  /** The notional an order may still fill. */
  function Pending(o: PaperOrder): real {
    o.Remaining() * o.intent.limitPrice
  }

  /** The order's remaining fills fit, drift included. */
  ghost predicate Fits(a: AccountState, o: PaperOrder, d: DriftNote) {
    forall m :: Concerns(m, o.intent.symbol) ==>
      && Size(m, a.positionBooks) + Pending(o) + OrderDrift(a, o.intent) <= DefaultLimit(m) + Noted(m, d)
      && Pending(o) <= DefaultLimit(m)
  }

  ghost predicate NoteOk(d: DriftNote) {
    forall m :: Noted(m, d) >= 0.0
  }

  ghost predicate AccountGuarded(a: AccountState, d: DriftNote) {
    && BooksOk(a.positionBooks) && UniqueKeys(a.positionBooks) && NoteOk(d)
    && forall m :: Limited(m) ==> Size(m, a.positionBooks) <= DefaultLimit(m) + Noted(m, d)
  }

  ghost predicate OrdersFit(a: AccountState, orders: seq<PaperOrder>, d: DriftNote) {
    forall i :: 0 <= i < |orders| && orders[i].IsOpen() ==> Fits(a, orders[i], d)
  }

  ghost predicate Guarded(s: ExchangeState, d: DriftNote) {
    AccountGuarded(s.account, d) && OrdersFit(s.account, s.orders, d)
  }

  // ---------------------------------------------------------------- one fill

  lemma PendingAfterFill(o: PaperOrder, f: PaperFill)
    requires OrderOk(o) && FillsOrder(f, o) && f.quantity <= o.Remaining()
    ensures Pending(AfterFill(o, f)) == Pending(o) - f.quantity * f.price
    ensures 0.0 <= Pending(AfterFill(o, f)) <= Pending(o)
    ensures f.price > 0.0
  {
    FilledQuantityByStatus(o);
    var after := AfterFill(o, f);
    assert after.Remaining() == o.Remaining() - f.quantity;
    PendingSplits(o.Remaining(), f.quantity, after.Remaining(), f.price);
  }

  lemma PendingSplits(r: real, x: real, r': real, p: real)
    requires r' == r - x && 0.0 < x <= r && p > 0.0
    ensures r' * p == r * p - x * p && 0.0 <= r' * p <= r * p
  {
    ProductNonNegative(x, p);
    ProductNonNegative(r', p);
  }

  lemma FillKeepsAccount(a: AccountState, o: PaperOrder, d: DriftNote, f: PaperFill)
    requires AccountGuarded(a, d) && OrderOk(o) && Fits(a, o, d) && FillsOrder(f, o) && f.quantity <= o.Remaining()
    ensures AccountGuarded(ApplyPaperFill(a, f), d)
    ensures Fits(ApplyPaperFill(a, f), AfterFill(o, f), d)
  {
    hide OrderOk, Size, Pending, Drift, DefaultLimit, Noted, UpdatedBooks, NotionalOk;
    var books, after := a.positionBooks, UpdatedBooks(a.positionBooks, f);
    PendingAfterFill(o, f);
    UpdateMovesAll(books, f);
    FillClearsDrift(books, f, after);
    forall m: Measure
      ensures Concerns(m, o.intent.symbol) ==>
                Size(m, after) + Pending(AfterFill(o, f)) <= Size(m, books) + Pending(o) + OrderDrift(a, o.intent)
      ensures Limited(m) && !Concerns(m, o.intent.symbol) ==> Size(m, after) == Size(m, books)
    {
      UniqueFillGrowth(m, books, f, f.quantity * f.price);
    }
  }

  // ---------------------------------------------------------------- one pass over one open order

  /** `f` is the fill a pass gives the open order `o`, leaving it as `after`. */
  predicate FilledBy(o: PaperOrder, f: PaperFill, after: PaperOrder) {
    FillsOrder(f, o) && f.quantity <= o.Remaining() && after == AfterFill(o, f)
  }

  /** After `k` visits: only the open order has changed, and only it has been filled. */
  ghost predicate OneFilled(orders: seq<PaperOrder>, i: nat, k: nat, p: Pass)
    requires i < |orders| && k <= |orders|
  {
    && |p.orders| == k
    && (forall j :: 0 <= j < k && j != i ==> p.orders[j] == orders[j])
    && (k <= i ==> p.fills == [])
    && (i < k ==> |p.fills| == 1 && FilledBy(orders[i], p.fills[0], p.orders[i]))
  }

  lemma OneFilledStep(orders: seq<PaperOrder>, i: nat, k: nat, done: Pass, v: Pass)
    requires i < |orders| && k < |orders| && OneFilled(orders, i, k, done) && |v.orders| == 1
    requires if k == i then |v.fills| == 1 && FilledBy(orders[i], v.fills[0], v.orders[0])
             else v.orders[0] == orders[k] && v.fills == []
    ensures OneFilled(orders, i, k + 1, Pass(done.orders + v.orders, done.fills + v.fills, done.events + v.events))
  {
    hide FilledBy;
  }

  /** With one open order the pass makes one fill: that order's. */
  lemma {:induction false} PassOfOne(
    orders: seq<PaperOrder>, i: nat, k: nat, policies: seq<FeePolicy>, fillBase: nat, eventBase: nat, now: Time)
    requires i < |orders| && k <= |orders| && OrderOk(orders[i]) && orders[i].IsOpen()
    requires forall j :: 0 <= j < |orders| && j != i ==> !orders[j].IsOpen()
    ensures OneFilled(orders, i, k, VisitUpTo(orders, k, policies, fillBase, eventBase, now))
  {
    hide Visit, OrderOk, FilledBy, OneFilled;
    if k == 0 {
      NothingFilled(orders, i);
    } else {
      var done := VisitUpTo(orders, k - 1, policies, fillBase, eventBase, now);
      var fillId, eventId := fillBase + |done.fills| + 1, eventBase + |done.events| + 1;
      PassOfOne(orders, i, k - 1, policies, fillBase, eventBase, now);
      if k - 1 == i {
        VisitOpenFill(orders[i], policies, fillId, eventId, now);
      } else {
        VisitClosed(orders[k - 1], policies, fillId, eventId, now);
      }
      OneFilledStep(orders, i, k - 1, done, Visit(orders[k - 1], policies, fillId, eventId, now));
    }
  }

  lemma NothingFilled(orders: seq<PaperOrder>, i: nat)
    requires i < |orders|
    ensures OneFilled(orders, i, 0, Pass([], [], []))
  {
  }

  lemma VisitOpenFill(o: PaperOrder, policies: seq<FeePolicy>, fillId: nat, eventId: nat, now: Time)
    requires OrderOk(o) && o.IsOpen()
    ensures var v := Visit(o, policies, fillId, eventId, now);
            |v.orders| == |v.fills| == 1 && FilledBy(o, v.fills[0], v.orders[0])
  {
    hide Visit, OrderOk, AfterFill;
    VisitOpen(o, policies, fillId, eventId, now);
    FillOpen(o, Visit(o, policies, fillId, eventId, now).fills[0], now);
  }

  lemma ProcessKeepsGuard(s: ExchangeState, d: DriftNote, now: Time)
    requires OrdersOk(s.orders) && Guarded(s, d) && AtMostOneOpen(s.orders)
    ensures Guarded(Process(s, now), d)
  {
    hide OrderOk, AccountGuarded, Fits, VisitUpTo, AfterFill, FillsOrder;
    var p := PassOf(s, now);
    if i :| 0 <= i < |s.orders| && s.orders[i].IsOpen() {
      PassOfOne(s.orders, i, |s.orders|, s.account.feePolicies, TotalFills(s.orders), |s.events|, now);
      var f := p.fills[0];
      FillKeepsAccount(s.account, s.orders[i], d, f);
      OneFill(s.account, p.fills);
    } else {
      ClosedPassIsIdle(s.orders, |s.orders|, s.account.feePolicies, TotalFills(s.orders), |s.events|, now);
      assert s.orders[..|s.orders|] == s.orders;
    }
  }

  // ---------------------------------------------------------------- other operations

  lemma SubmitKeepsGuard(s: ExchangeState, d: DriftNote, intent: PaperOrderIntent, now: Time)
    requires Guarded(s, d) && AtMostOneOpen(Submit(s, intent, now).orders)
    ensures Guarded(Submit(s, intent, now), AdvanceNote(s, d, SubmitOp(intent, now)))
  {
    hide Vetoes, Fits, AccountGuarded;
    if Admits(s, intent, now) {
      var d' := AdvanceNote(s, d, SubmitOp(intent, now));
      var o := NewOrder(|s.orders| + 1, intent, now);
      var after := Submit(s, intent, now);
      AdmissionFits(s, d, intent, now, o);
      assert after.orders[|s.orders|] == o && o.IsOpen();
    }
  }

  lemma AdmissionFits(s: ExchangeState, d: DriftNote, intent: PaperOrderIntent, now: Time, o: PaperOrder)
    requires Admits(s, intent, now) && AccountGuarded(s.account, d) && o == NewOrder(|s.orders| + 1, intent, now)
    ensures AccountGuarded(s.account, NoteOrder(d, intent.symbol, OrderDrift(s.account, intent)))
    ensures Fits(s.account, o, NoteOrder(d, intent.symbol, OrderDrift(s.account, intent)))
  {
    hide Vetoes, BooksOk, UniqueKeys, Size, Drift, LimitOf, EvaluatePaperOrderRisk, PreviewOrder, PreviewQuote;
    var books, x := s.account.positionBooks, OrderDrift(s.account, intent);
    var d' := AdvanceNote(s, d, SubmitOp(intent, now));
    AdmissionRoom(s, intent, now);
    DriftNonNegative(books, intent.symbol, intent.bookSide, intent.limitPrice);
    NewOrderPending(|s.orders| + 1, intent, now);
    forall m: Measure
      ensures Concerns(m, intent.symbol) ==> Noted(m, d') == x && Size(m, books) >= 0.0
      ensures Limited(m) && !Concerns(m, intent.symbol) ==> Noted(m, d') == Noted(m, d)
    {
      if Limited(m) { SizeNonNegative(m, books); }
    }
  }

  /** Admission means that every measure concerned has room for the whole order. */
  lemma AdmissionRoom(s: ExchangeState, intent: PaperOrderIntent, now: Time)
    requires Admits(s, intent, now)
    ensures intent.quantity > 0.0 && intent.limitPrice > 0.0 && intent.Notional() >= 0.0
    ensures forall m: Measure :: Concerns(m, intent.symbol) ==>
              Size(m, s.account.positionBooks) + intent.Notional() <= DefaultLimit(m)
  {
    hide Vetoes, Size, LimitOf, EvaluatePaperOrderRisk, PreviewOrder, PreviewQuote, AccountErrors, HasBook;
    AdmittedIntent(s, intent, now);
    RiskAccepts(s.account, intent, PreviewOrder(s, intent, now), PreviewQuote(intent.symbol, now),
                DEFAULT_LIMITS, s.riskState, now);
    ProductNonNegative(intent.quantity, intent.limitPrice);
    forall m: Measure
      ensures Concerns(m, intent.symbol) ==> Size(m, s.account.positionBooks) + intent.Notional() <= DefaultLimit(m)
    {
      if Concerns(m, intent.symbol) {
        AdmittedWithinLimit(s.account, intent.Notional(), intent.symbol, DEFAULT_LIMITS, m);
      }
    }
  }

  lemma SizeNonNegative(m: Measure, books: seq<PositionBook>)
    requires BooksOk(books) && Limited(m)
    ensures Size(m, books) >= 0.0
  {
    hide Total;
    BooksOkNotionals(books);
    NothingExceedsGross(m, books);
  }

  lemma NewOrderPending(orderId: nat, intent: PaperOrderIntent, now: Time)
    requires intent.quantity > 0.0
    ensures Pending(NewOrder(orderId, intent, now)) == intent.Notional()
  {
  }

  /** Operations that leave the account alone and open nothing keep the guard. */
  lemma ClosingKeepsGuard(s: ExchangeState, d: DriftNote, after: ExchangeState)
    requires Guarded(s, d) && after.account == s.account && |after.orders| == |s.orders|
    requires forall i :: 0 <= i < |s.orders| && after.orders[i].IsOpen() ==> after.orders[i] == s.orders[i]
    ensures Guarded(after, d)
  {
    hide Fits, AccountGuarded;
  }

  ghost predicate Flat(books: seq<PositionBook>) {
    forall b :: b in books ==> b.quantity == 0.0 && b.notional == 0.0
  }

  lemma FlatBooksCarryNothing(books: seq<PositionBook>, m: Measure, symbol: Symbol, side: BookSide, price: real)
    requires Flat(books)
    ensures Size(m, books) == 0.0 && Drift(books, symbol, side, price) == 0.0
  {
    forall i | 0 <= i < |books| ensures Figures(m, books)[i] == 0.0 {
      assert books[i] in books;
    }
    SumOfZeros(Figures(m, books));
    forall i | 0 <= i < |books| ensures Drifts(books, symbol, side, price)[i] == 0.0 {
      assert books[i] in books;
    }
    SumOfZeros(Drifts(books, symbol, side, price));
  }

  lemma DefaultBooksAreFlat()
    ensures Flat(DefaultPositionBooks()) && UniqueKeys(DefaultPositionBooks()) && BooksOk(DefaultPositionBooks())
  {
  }

  lemma DefaultBooksCarryNothing(m: Measure, symbol: Symbol, side: BookSide, price: real)
    ensures var books := DefaultPositionBooks();
            && Size(m, books) == 0.0 && Drift(books, symbol, side, price) == 0.0
            && BooksOk(books) && UniqueKeys(books)
  {
    hide Size, Drift, BooksOk, UniqueKeys, Flat;
    DefaultBooksAreFlat();
    FlatBooksCarryNothing(DefaultPositionBooks(), m, symbol, side, price);
  }

  lemma FlatAccountIsGuarded(now: Time)
    ensures AccountGuarded(DefaultAccountState(now), NO_DRIFT)
  {
    hide BooksOk, UniqueKeys, Size, Drift;
    DefaultBooksCarryNothing(Gross, BTCUSDC, Long, 0.0);
    forall m: Measure ensures Size(m, DefaultPositionBooks()) == 0.0 {
      DefaultBooksCarryNothing(m, BTCUSDC, Long, 0.0);
    }
  }

  lemma FlatteningFits(a: AccountState, o: PaperOrder, d: DriftNote, now: Time)
    requires Fits(a, o, d)
    ensures Fits(DefaultAccountState(now), o, NO_DRIFT)
  {
    hide Size, Drift, Pending, DefaultLimit;
    forall m: Measure
      ensures Size(m, DefaultPositionBooks()) == 0.0 && OrderDrift(DefaultAccountState(now), o.intent) == 0.0
    {
      DefaultBooksCarryNothing(m, o.intent.symbol, o.intent.bookSide, o.intent.limitPrice);
    }
  }

  lemma FlattenKeepsGuard(s: ExchangeState, d: DriftNote, now: Time, loggedAt: Time)
    requires Guarded(s, d)
    ensures Guarded(PanicFlatten(s, now, loggedAt), NO_DRIFT)
  {
    hide AccountGuarded, Fits, DefaultAccountState;
    FlatAccountIsGuarded(now);
    forall i | 0 <= i < |s.orders| && s.orders[i].IsOpen()
      ensures Fits(DefaultAccountState(now), s.orders[i], NO_DRIFT)
    {
      FlatteningFits(s.account, s.orders[i], d, now);
    }
  }

  lemma ResetIsGuarded(s: ExchangeState, now: Time)
    ensures Guarded(Reset(s, now), NO_DRIFT)
  {
    hide AccountGuarded, Fits, DefaultAccountState;
    FlatAccountIsGuarded(now);
  }

  lemma StepKeepsGuard(s: ExchangeState, d: DriftNote, op: Operation)
    requires OrdersOk(s.orders) && Guarded(s, d) && AtMostOneOpen(s.orders) && AtMostOneOpen(Step(s, op).orders)
    ensures Guarded(Step(s, op), AdvanceNote(s, d, op))
  {
    hide OrderOk, Guarded, Submit, Process, PanicFlatten, Reset, AtMostOneOpen, Admits, OrderDrift;
    match op
    case SubmitOp(intent, now) => SubmitKeepsGuard(s, d, intent, now);
    case ProcessOp(now) => ProcessKeepsGuard(s, d, now);
    case CancelOp(_, _, _) => ClosingKeepsGuard(s, d, Step(s, op));
    case ExpireOp(_, _) => ClosingKeepsGuard(s, d, Step(s, op));
    case PanicCancelOp(_) => ClosingKeepsGuard(s, d, Step(s, op));
    case PanicFlattenOp(now, loggedAt) => FlattenKeepsGuard(s, d, now, loggedAt);
    case PanicHaltOp => ClosingKeepsGuard(s, d, Step(s, op));
    case ResetOp(now) => ResetIsGuarded(s, now);
  }

  // ---------------------------------------------------------------- whole runs

  lemma StartIsGuarded(account: AccountState, takerGateEnabled: bool)
    requires AccountGuarded(account, NO_DRIFT)
    ensures Guarded(Initial(account, takerGateEnabled), NO_DRIFT)
  {
    hide AccountGuarded;
  }

  /** Run-level exposure safety: start from an account within limits and never have two orders
      open at once, and every reachable state keeps every measure within its default limit plus
      the drift noted for it, through partial fills, cancels, expiries and flattening alike. */
  lemma {:induction false} ExposureStaysWithinDrift(account: AccountState, takerGateEnabled: bool, ops: seq<Operation>)
    requires AccountGuarded(account, NO_DRIFT) && OneAtATime(account, takerGateEnabled, ops)
    ensures var s := Run(Initial(account, takerGateEnabled), ops);
            OrdersOk(s.orders) && Guarded(s, NoteOf(account, takerGateEnabled, ops))
  {
    hide OrdersOk, Guarded, AccountGuarded, Step, AdvanceNote, AtMostOneOpen;
    if ops == [] {
      NoOrdersAreOk();
      StartIsGuarded(account, takerGateEnabled);
    } else {
      var n := |ops| - 1;
      ExposureStaysWithinDrift(account, takerGateEnabled, ops[..n]);
      var s := Run(Initial(account, takerGateEnabled), ops[..n]);
      StepKeepsOrders(s, ops[n]);
      OneOpenBefore(account, takerGateEnabled, ops);
      StepKeepsGuard(s, NoteOf(account, takerGateEnabled, ops[..n]), ops[n]);
    }
  }

  lemma OneOpenBefore(account: AccountState, takerGateEnabled: bool, ops: seq<Operation>)
    requires ops != [] && OneAtATime(account, takerGateEnabled, ops)
    ensures AtMostOneOpen(Run(Initial(account, takerGateEnabled), ops[..|ops| - 1]).orders)
  {
    hide Run, AtMostOneOpen;
  }

  // ---------------------------------------------------------------- one price per symbol

  ghost predicate BooksAtPrices(books: seq<PositionBook>, price: Symbol -> real) {
    forall b :: b in books ==> b.quantity >= 0.0 && b.notional == b.quantity * price(b.symbol)
  }

  /** Every position is worth what it is at its symbol's price, and every order stands at it. */
  ghost predicate AtPrices(s: ExchangeState, price: Symbol -> real) {
    && BooksAtPrices(s.account.positionBooks, price)
    && (forall o :: o in s.orders ==> o.intent.limitPrice == price(o.intent.symbol))
  }

  ghost predicate SubmitsAt(op: Operation, price: Symbol -> real) {
    op.SubmitOp? ==> op.intent.limitPrice == price(op.intent.symbol)
  }

  lemma NoDriftAtPrices(books: seq<PositionBook>, symbol: Symbol, side: BookSide, price: Symbol -> real)
    requires BooksAtPrices(books, price)
    ensures Drift(books, symbol, side, price(symbol)) == 0.0
  {
    var ds := Drifts(books, symbol, side, price(symbol));
    forall i | 0 <= i < |ds| ensures ds[i] == 0.0 {
      assert books[i] in books;
    }
    SumOfZeros(ds);
  }

  lemma FillKeepsPrices(a: AccountState, f: PaperFill, price: Symbol -> real)
    requires BooksAtPrices(a.positionBooks, price) && f.price == price(f.symbol) && f.quantity > 0.0
    ensures BooksAtPrices(ApplyPaperFill(a, f).positionBooks, price)
  {
    hide UpdatedBook;
    forall b | b in ApplyPaperFill(a, f).positionBooks
      ensures b.quantity >= 0.0 && b.notional == b.quantity * price(b.symbol)
    {
      var i :| 0 <= i < |a.positionBooks| && UpdatedBooks(a.positionBooks, f)[i] == b;
      assert a.positionBooks[i] in a.positionBooks;
      UpdatedWorth(a.positionBooks[i], f);
    }
  }

  lemma UpdatedWorth(b: PositionBook, f: PaperFill)
    requires b.quantity >= 0.0 && f.quantity > 0.0
    ensures var c := UpdatedBook(b, f);
            c == b || (c.symbol == f.symbol && c.quantity >= 0.0 && c.notional == c.quantity * f.price)
  {
  }

  lemma {:induction false} FillsKeepPrices(a: AccountState, fills: seq<PaperFill>, price: Symbol -> real)
    requires BooksAtPrices(a.positionBooks, price)
    requires forall f :: f in fills ==> f.price == price(f.symbol) && f.quantity > 0.0
    ensures BooksAtPrices(ApplyFills(a, fills).positionBooks, price)
  {
    hide ApplyPaperFill, BooksAtPrices;
    if fills != [] {
      var n := |fills| - 1;
      assert fills[n] in fills;
      FillsKeepPrices(a, fills[..n], price);
      FillKeepsPrices(ApplyFills(a, fills[..n]), fills[n], price);
    }
  }

  lemma {:induction false} PassKeepsPrices(
    orders: seq<PaperOrder>, k: nat, policies: seq<FeePolicy>, fillBase: nat, eventBase: nat, now: Time,
    price: Symbol -> real)
    requires k <= |orders| && forall o :: o in orders ==> OrderOk(o) && o.intent.limitPrice == price(o.intent.symbol)
    ensures var p := VisitUpTo(orders, k, policies, fillBase, eventBase, now);
            && (forall o :: o in p.orders ==> o.intent.limitPrice == price(o.intent.symbol))
            && (forall f :: f in p.fills ==> f.price == price(f.symbol) && f.quantity > 0.0)
  {
    hide Visit, OrderOk;
    if k != 0 {
      var done := VisitUpTo(orders, k - 1, policies, fillBase, eventBase, now);
      var fillId, eventId := fillBase + |done.fills| + 1, eventBase + |done.events| + 1;
      PassKeepsPrices(orders, k - 1, policies, fillBase, eventBase, now, price);
      assert orders[k - 1] in orders;
      VisitKeepsTerms(orders[k - 1], policies, fillId, eventId, now);
    }
  }

  lemma VisitKeepsTerms(o: PaperOrder, policies: seq<FeePolicy>, fillId: nat, eventId: nat, now: Time)
    requires OrderOk(o)
    ensures var v := Visit(o, policies, fillId, eventId, now);
            && (forall after :: after in v.orders ==> after.intent == o.intent)
            && (forall f :: f in v.fills ==>
                  f.price == o.intent.limitPrice && f.symbol == o.intent.symbol && f.quantity > 0.0)
  {
    hide Visit, OrderOk;
    if o.IsOpen() {
      VisitOpen(o, policies, fillId, eventId, now);
    } else {
      VisitClosed(o, policies, fillId, eventId, now);
    }
  }

  lemma ProcessKeepsPrices(s: ExchangeState, now: Time, price: Symbol -> real)
    requires OrdersOk(s.orders) && AtPrices(s, price)
    ensures AtPrices(Process(s, now), price)
  {
    hide OrderOk, VisitUpTo, ApplyFills;
    PassKeepsPrices(s.orders, |s.orders|, s.account.feePolicies, TotalFills(s.orders), |s.events|, now, price);
    FillsKeepPrices(s.account, PassOf(s, now).fills, price);
  }

  lemma StepKeepsPrices(s: ExchangeState, op: Operation, price: Symbol -> real)
    requires OrdersOk(s.orders) && AtPrices(s, price) && SubmitsAt(op, price)
    ensures AtPrices(Step(s, op), price)
  {
    hide OrdersOk, Process, Vetoes;
    if op.ProcessOp? { ProcessKeepsPrices(s, op.now, price); }
  }

  lemma NoteStaysZero(s: ExchangeState, op: Operation, price: Symbol -> real, d: DriftNote)
    requires AtPrices(s, price) && SubmitsAt(op, price) && forall m :: Noted(m, d) == 0.0
    ensures forall m :: Noted(m, AdvanceNote(s, d, op)) == 0.0
  {
    hide Drift, Vetoes;
    if op.SubmitOp? {
      NoDriftAtPrices(s.account.positionBooks, op.intent.symbol, op.intent.bookSide, price);
      assert OrderDrift(s.account, op.intent) == 0.0;
    }
    forall m: Measure ensures Noted(m, AdvanceNote(s, d, op)) == 0.0 {
      assert Noted(m, d) == 0.0 && Noted(Gross, d) == 0.0;
    }
  }

  lemma {:induction false} NoDriftIsNoted(
    account: AccountState, takerGateEnabled: bool, ops: seq<Operation>, price: Symbol -> real)
    requires AtPrices(Initial(account, takerGateEnabled), price) && forall op :: op in ops ==> SubmitsAt(op, price)
    ensures AtPrices(Run(Initial(account, takerGateEnabled), ops), price)
    ensures forall m :: Noted(m, NoteOf(account, takerGateEnabled, ops)) == 0.0
  {
    hide AtPrices, Step, AdvanceNote, SubmitsAt;
    if ops != [] {
      var n := |ops| - 1;
      var s := Run(Initial(account, takerGateEnabled), ops[..n]);
      assert ops[n] in ops;
      NoDriftIsNoted(account, takerGateEnabled, ops[..n], price);
      NoOrdersAreOk();
      RunKeepsOrders(Initial(account, takerGateEnabled), ops[..n]);
      StepKeepsPrices(s, ops[n], price);
      NoteStaysZero(s, ops[n], price, NoteOf(account, takerGateEnabled, ops[..n]));
    }
  }

  /** The figures of the exposure report, within the default limits. */
  predicate ReportWithinLimits(a: AccountState) {
    var e := CalculatePortfolioExposure(a);
    && e.grossExposure <= 100000.0
    && e.sectorExposure <= 75000.0
    && e.correlatedExposure <= 60000.0
    && -60000.0 <= e.betaExposure <= 60000.0
    && e.legImbalance <= 25000.0
    && Total(InSymbol(BTCUSDC), a.positionBooks) <= 50000.0
    && Total(InSymbol(ETHUSDC), a.positionBooks) <= 50000.0
  }

  /** With a single price per symbol there is no drift: from the default account, every
      reachable state reports every exposure within the default limits. */
  lemma ExposureStaysWithinLimits(start: Time, takerGateEnabled: bool, ops: seq<Operation>, price: Symbol -> real)
    requires OneAtATime(DefaultAccountState(start), takerGateEnabled, ops)
    requires forall op :: op in ops ==> SubmitsAt(op, price)
    ensures ReportWithinLimits(Run(Initial(DefaultAccountState(start), takerGateEnabled), ops).account)
  {
    hide Run, OneAtATime, NoteOf, SubmitsAt, OrdersOk, Guarded, AccountGuarded, AtPrices, Noted, Size,
         ReportWithinLimits, DefaultAccountState, Limited;
    var account := DefaultAccountState(start);
    FlatAccountIsGuarded(start);
    DefaultAtPrices(start, takerGateEnabled, price);
    ExposureStaysWithinDrift(account, takerGateEnabled, ops);
    NoDriftIsNoted(account, takerGateEnabled, ops, price);
    GuardedWithoutNote(Run(Initial(account, takerGateEnabled), ops), NoteOf(account, takerGateEnabled, ops));
    SizesWithinReport(Run(Initial(account, takerGateEnabled), ops).account);
  }

  lemma DefaultAtPrices(start: Time, takerGateEnabled: bool, price: Symbol -> real)
    ensures AtPrices(Initial(DefaultAccountState(start), takerGateEnabled), price)
  {
  }

  lemma GuardedWithoutNote(s: ExchangeState, d: DriftNote)
    requires Guarded(s, d) && forall m :: Noted(m, d) == 0.0
    ensures forall m :: Limited(m) ==> Size(m, s.account.positionBooks) <= DefaultLimit(m)
  {
    hide Size, BooksOk, UniqueKeys, OrdersFit, NoteOk, DefaultLimit;
  }

  lemma SizesWithinReport(a: AccountState)
    requires forall m :: Limited(m) ==> Size(m, a.positionBooks) <= DefaultLimit(m)
    ensures ReportWithinLimits(a)
  {
    hide Total, CalculatePortfolioExposure;
    ReportShowsSizes(a);
    assert Size(Gross, a.positionBooks) <= DefaultLimit(Gross) && Size(Sector, a.positionBooks) <= DefaultLimit(Sector);
    assert Size(Beta, a.positionBooks) <= DefaultLimit(Beta) && Size(Net, a.positionBooks) <= DefaultLimit(Net);
    assert Size(InSymbol(BTCUSDC), a.positionBooks) <= DefaultLimit(InSymbol(BTCUSDC));
    assert Size(InSymbol(ETHUSDC), a.positionBooks) <= DefaultLimit(InSymbol(ETHUSDC));
  }
}
