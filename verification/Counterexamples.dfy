/** Concrete runs that show which hypotheses the exposure and fee theorems need. */
module Counterexamples {
  import opened Schemas
  import opened Accounting
  import opened BookLaws
  import opened Sums
  import opened Exposure
  import opened Pricing
  import opened Risk
  import opened ExchangeModel
  import opened OrderState
  import opened Lifecycle
  import opened ProgressLaws
  import opened RunLaws
  import opened ExposureSafety
  import opened Admission

  // ---------------------------------------------------------------- an order left alone for two passes

  /** The fill a pass gives an open order, and the order it leaves. */
  predicate FilledAs(o: PaperOrder, f: PaperFill, after: PaperOrder, rate: real, now: Time) {
    && FillsOrder(f, o) && f.quantity == Amount(o, now) && f.fee == f.quantity * f.price * rate
    && after == AfterFill(o, f) && after.status == NextStatus(o, now)
  }

  lemma PassFillsAs(s: ExchangeState, i: nat, now: Time, f: PaperFill)
    requires OrdersOk(s.orders) && i < |s.orders| && s.orders[i].IsOpen()
    requires i < |Process(s, now).orders| && FilledBy(s.orders[i], f, Process(s, now).orders[i])
    ensures FilledAs(s.orders[i], f, Process(s, now).orders[i],
                     MakerRate(s.account.feePolicies, s.orders[i].intent.symbol), now)
  {
    hide Visit, VisitUpTo, ApplyFills, MakerRate, Amount, OrderOk, TotalFills, NextStatus;
    var o, policies, base := s.orders[i], s.account.feePolicies, TotalFills(s.orders);
    var fillId := FillIdAt(s.orders, i, policies, base, |s.events|, now);
    var eventId := EventIdAt(s.orders, i, policies, base, |s.events|, now);
    assert OrderOk(o);
    PassIsAMap(s.orders, |s.orders|, policies, base, |s.events|, now, i);
    VisitOpen(o, policies, fillId, eventId, now);
    var v := Visit(o, policies, fillId, eventId, now);
    assert [Process(s, now).orders[i]] == v.orders;
    assert AfterFill(o, f).fills[|o.fills|] == f && AfterFill(o, v.fills[0]).fills[|o.fills|] == v.fills[0];
  }

  ghost predicate OnlyOpen(s: ExchangeState, i: nat) {
    && OrdersOk(s.orders) && i < |s.orders| && s.orders[i].IsOpen()
    && forall j :: 0 <= j < |s.orders| && j != i ==> !s.orders[j].IsOpen()
  }

  /** The only open order gets the pass's only fill, and nothing else changes but the log. */
  lemma PassOfOpen(s: ExchangeState, i: nat, now: Time) returns (f: PaperFill)
    requires OnlyOpen(s, i)
    ensures var after := Process(s, now);
            && i < |after.orders| && OrdersOk(after.orders)
            && FilledAs(s.orders[i], f, after.orders[i],
                        MakerRate(s.account.feePolicies, s.orders[i].intent.symbol), now)
            && after == s.(orders := after.orders, account := ApplyPaperFill(s.account, f), events := after.events)
            && if after.orders[i].IsOpen() then OnlyOpen(after, i) else NoneOpen(after.orders)
  {
    hide OrderOk, FilledBy, VisitUpTo, ApplyFills, ApplyPaperFill, TotalFills, FilledAs, MakerRate;
    assert OrderOk(s.orders[i]);
    PassOfOne(s.orders, i, |s.orders|, s.account.feePolicies, TotalFills(s.orders), |s.events|, now);
    f := PassOf(s, now).fills[0];
    OneFill(s.account, PassOf(s, now).fills);
    ProcessKeepsOrders(s, now);
    PassFillsAs(s, i, now, f);
  }

  lemma SubmitOpens(s: ExchangeState, intent: PaperOrderIntent, now: Time)
    requires OrdersOk(s.orders) && NoneOpen(s.orders) && Admits(s, intent, now)
    ensures var one := Submit(s, intent, now);
            && OnlyOpen(one, |s.orders|) && |one.orders| == |s.orders| + 1
            && one.orders[|s.orders|] == NewOrder(|s.orders| + 1, intent, now)
            && one == s.(orders := one.orders, events := one.events)
  {
    hide OrderOk, Vetoes, Admits;
    SubmitKeepsOrders(s, intent, now);
  }

  /** The fill executes the whole intent, at this rate. */
  predicate Fulfils(f: PaperFill, intent: PaperOrderIntent, rate: real) {
    && f.symbol == intent.symbol && f.side == intent.side && f.bookSide == intent.bookSide
    && f.price == intent.limitPrice && f.quantity == intent.quantity
    && f.fee == intent.quantity * intent.limitPrice * rate
  }

  ghost predicate QuantitiesOk(a: AccountState) {
    forall b :: b in a.positionBooks ==> b.quantity >= 0.0
  }

  lemma JoinHalves(a: AccountState, o: PaperOrder, f: PaperFill, g: PaperFill, rate: real, now: Time)
    returns (whole: PaperFill)
    requires QuantitiesOk(a) && o.status == New && NextStatus(o, now) == PartiallyFilled && o.intent.quantity > 0.0
    requires FilledAs(o, f, AfterFill(o, f), rate, now)
    requires FilledAs(AfterFill(o, f), g, AfterFill(AfterFill(o, f), g), rate, now)
    ensures Fulfils(whole, o.intent, rate)
    ensures ApplyPaperFill(ApplyPaperFill(a, f), g) == ApplyPaperFill(a, whole)
  {
    hide ApplyPaperFill;
    whole := f.(quantity := f.quantity + g.quantity, fee := f.fee + g.fee);
    HalvesMakeWhole(o.intent.quantity, o.intent.limitPrice, rate);
    FillSplits(a, f, g, whole);
  }

  ghost predicate DoneWith(s: ExchangeState, done: ExchangeState, f: PaperFill) {
    && OrdersOk(done.orders) && NoneOpen(done.orders)
    && done == s.(orders := done.orders, account := ApplyPaperFill(s.account, f), events := done.events)
  }

  lemma OnlyOpenIsOk(s: ExchangeState, i: nat)
    requires OnlyOpen(s, i)
    ensures i < |s.orders| && OrderOk(s.orders[i]) && s.orders[i].intent.quantity > 0.0
  {
  }

  lemma OnlyOneIsAtMostOne(s: ExchangeState, i: nat)
    requires OnlyOpen(s, i)
    ensures AtMostOneOpen(s.orders)
  {
  }

  lemma NoneIsAtMostOne(orders: seq<PaperOrder>)
    requires NoneOpen(orders)
    ensures AtMostOneOpen(orders)
  {
  }

  /** A new order, the only one open, is filled by two passes as by one whole fill. */
  lemma TwoPassesFillWhole(one: ExchangeState, i: nat, now: Time) returns (f: PaperFill)
    requires OnlyOpen(one, i) && one.orders[i].status == New && QuantitiesOk(one.account)
    ensures Fulfils(f, one.orders[i].intent, MakerRate(one.account.feePolicies, one.orders[i].intent.symbol))
    ensures DoneWith(one, Process(Process(one, now), now), f)
    ensures AtMostOneOpen(Process(one, now).orders)
  {
    hide OrdersOk, OrderOk, OnlyOpen, NoneOpen, Process, UpdatedBooks, MakerRate, QuantitiesOk, PlacementOf;
    OnlyOpenIsOk(one, i);
    QuotedOrder(one.orders[i], now);
    var o, two := one.orders[i], Process(one, now);
    var first := PassOfOpen(one, i, now);
    if two.orders[i].IsOpen() {
      var second := PassOfOpen(two, i, now);
      f := JoinHalves(one.account, o, first, second, MakerRate(one.account.feePolicies, o.intent.symbol), now);
      OnlyOneIsAtMostOne(two, i);
    } else {
      f := first;
      IdlePass(two, now);
      NoneIsAtMostOne(two.orders);
    }
  }

  /** Admitted onto a book with nothing open, an order is filled by two passes as by one whole fill. */
  lemma OrderFillsWhole(s: ExchangeState, intent: PaperOrderIntent, now: Time) returns (f: PaperFill)
    requires OrdersOk(s.orders) && NoneOpen(s.orders) && Admits(s, intent, now) && QuantitiesOk(s.account)
    ensures Fulfils(f, intent, MakerRate(s.account.feePolicies, intent.symbol))
    ensures DoneWith(s, Process(Process(Submit(s, intent, now), now), now), f)
    ensures AtMostOneOpen(Submit(s, intent, now).orders)
    ensures AtMostOneOpen(Process(Submit(s, intent, now), now).orders)
  {
    hide OrdersOk, OnlyOpen, NoneOpen, Process, Submit, ApplyPaperFill, MakerRate, Fulfils, Admits;
    AdmittedIntent(s, intent, now);
    SubmitOpens(s, intent, now);
    OnlyOneIsAtMostOne(Submit(s, intent, now), |s.orders|);
    f := TwoPassesFillWhole(Submit(s, intent, now), |s.orders|, now);
  }

  // ---------------------------------------------------------------- runs of whole orders

  /** Submit an order, then let two passes fill it. */
  function Round(intent: PaperOrderIntent): seq<Operation> {
    [SubmitOp(intent, 0), ProcessOp(0), ProcessOp(0)]
  }

  lemma RunOneMore(account: AccountState, ops: seq<Operation>, op: Operation)
    ensures Run(Initial(account, false), ops + [op]) == Step(Run(Initial(account, false), ops), op)
    ensures OneAtATime(account, false, ops) && AtMostOneOpen(Run(Initial(account, false), ops + [op]).orders) ==>
              OneAtATime(account, false, ops + [op])
  {
    hide Step, AtMostOneOpen;
    assert (ops + [op])[..|ops|] == ops;
  }

  /** A round is its three operations, one after the other. */
  lemma RunThree(account: AccountState, ops: seq<Operation>, intent: PaperOrderIntent)
    requires OneAtATime(account, false, ops)
    ensures var s := Run(Initial(account, false), ops);
            var one := Submit(s, intent, 0);
            && Run(Initial(account, false), ops + Round(intent)) == Process(Process(one, 0), 0)
            && ((AtMostOneOpen(one.orders) && AtMostOneOpen(Process(one, 0).orders)
                 && AtMostOneOpen(Process(Process(one, 0), 0).orders)) ==>
                 OneAtATime(account, false, ops + Round(intent)))
  {
    hide Run, Process, Submit, OneAtATime, AtMostOneOpen;
    var one := ops + [SubmitOp(intent, 0)];
    var two := one + [ProcessOp(0)];
    RunOneMore(account, ops, SubmitOp(intent, 0));
    RunOneMore(account, one, ProcessOp(0));
    RunOneMore(account, two, ProcessOp(0));
    assert two + [ProcessOp(0)] == ops + Round(intent);
  }

  lemma RunOneRound(account: AccountState, ops: seq<Operation>, intent: PaperOrderIntent) returns (f: PaperFill)
    requires OneAtATime(account, false, ops)
    requires var s := Run(Initial(account, false), ops);
             OrdersOk(s.orders) && NoneOpen(s.orders) && Admits(s, intent, 0) && QuantitiesOk(s.account)
    ensures OneAtATime(account, false, ops + Round(intent))
    ensures var s := Run(Initial(account, false), ops);
            && DoneWith(s, Run(Initial(account, false), ops + Round(intent)), f)
            && Fulfils(f, intent, MakerRate(s.account.feePolicies, intent.symbol))
  {
    hide Run, OrdersOk, Process, Submit, MakerRate, Fulfils, OneAtATime, ApplyPaperFill, Round, AtMostOneOpen, Admits,
         QuantitiesOk, NoneOpen;
    f := OrderFillsWhole(Run(Initial(account, false), ops), intent, 0);
    RunThree(account, ops, intent);
    NoneIsAtMostOne(Run(Initial(account, false), ops + Round(intent)).orders);
  }

  // ---------------------------------------------------------------- one price is needed

  /** An account that has only ever bought BTCUSDC long: `q` of it, marked at `mark`. */
  ghost predicate LongBtc(a: AccountState, q: real, mark: real) {
    && Standard(a, 0) && a.feePolicies == DefaultFeePolicies(0) && |a.positionBooks| == 4
    && a.positionBooks[0].symbol == BTCUSDC && a.positionBooks[0].side == Long
    && a.positionBooks[0].quantity == q && a.positionBooks[0].notional == q * mark
    && forall i :: 1 <= i < 4 ==> a.positionBooks[i] == DefaultPositionBooks()[i]
  }

  lemma LongBtcSizes(a: AccountState, q: real, mark: real, worth: real, m: Measure)
    requires LongBtc(a, q, mark) && worth == q * mark >= 0.0 && Concerns(m, BTCUSDC)
    ensures Size(m, a.positionBooks) == worth
  {
    SumOfOne(Figures(m, a.positionBooks), 0);
  }

  lemma LongBtcDrift(a: AccountState, q: real, mark: real, price: real)
    requires LongBtc(a, q, mark) && q >= 0.0
    ensures Drift(a.positionBooks, BTCUSDC, Long, price) == Abs(q * price - q * mark)
  {
    var ds := Drifts(a.positionBooks, BTCUSDC, Long, price);
    forall i | 1 <= i < 4 ensures ds[i] == 0.0 {
      assert a.positionBooks[i] == DefaultPositionBooks()[i];
    }
    SumOfOne(ds, 0);
  }

  lemma LongBtcIsHedged(a: AccountState, q: real, mark: real)
    requires LongBtc(a, q, mark) && q >= 0.0
    ensures Hedged(a.positionBooks) && QuantitiesOk(a)
  {
    var books := a.positionBooks;
    assert books[0] in books && books[1] in books && books[2] in books && books[3] in books;
  }

  /** A standard account with that position has room for an order up to 25000 in all. */
  lemma LongBtcAdmits(s: ExchangeState, q: real, mark: real, worth: real, intent: PaperOrderIntent)
    requires LongBtc(s.account, q, mark) && worth == q * mark && q >= 0.0 && worth >= 0.0
    requires Collateral(s.account) >= 90000.0 && !s.halted && s.riskState == CALM && !s.takerGateEnabled
    requires intent.symbol == BTCUSDC && Previewable(intent, false, 0)
    requires intent.Notional() >= 0.0 && worth + intent.Notional() <= 25000.0
    ensures Admits(s, intent, 0) && QuantitiesOk(s.account)
  {
    hide LongBtc, Previewable, Size, PreviewOrder, Vetoes, FeesStayClean, Hedged, Fresh, Admits, QuantitiesOk;
    var a := s.account;
    LongBtcIsHedged(a, q, mark);
    LongBtcRecords(a, q, mark);
    StandardPreview(s, 0, intent, 0);
    StandardAdmission(s, 0, intent, 0);
    forall m: Measure ensures Concerns(m, BTCUSDC) ==> Size(m, a.positionBooks) == worth {
      if Concerns(m, BTCUSDC) { LongBtcSizes(a, q, mark, worth, m); }
    }
    LeverageIsLow(worth + intent.Notional(), Collateral(a));
  }

  lemma LongBtcRecords(a: AccountState, q: real, mark: real)
    requires LongBtc(a, q, mark)
    ensures Standard(a, 0) && a.feePolicies == DefaultFeePolicies(0) && FeesStayClean(a.feePolicies, 0, 0)
            && Fresh(0, 0)
  {
    DefaultIsStandard(0, 0);
  }

  lemma LeverageIsLow(x: real, c: real)
    requires 0.0 <= x <= 25000.0 && c >= 90000.0
    ensures x / c <= 3.0
  {
    DivMul(x, c);
  }

  lemma LongBtcGrows(a: AccountState, q: real, mark: real, intent: PaperOrderIntent, f: PaperFill, rate: real)
    requires LongBtc(a, q, mark) && Fulfils(f, intent, rate)
    requires intent.symbol == BTCUSDC && intent.side == Buy && intent.bookSide == Long
    ensures LongBtc(ApplyPaperFill(a, f), q + intent.quantity, intent.limitPrice)
    ensures |a.collateralAssets| > 0 ==> Collateral(ApplyPaperFill(a, f)) == Collateral(a) - f.fee
  {
  }

  function BuyBtc(quantity: real, price: real): PaperOrderIntent {
    PaperOrderIntent(BTCUSDC, Buy, Long, quantity, price, GTX, Limit, true, false, false, 8.0, 0.5, 1.0, "")
  }

  lemma BuysPreview()
    ensures Fresh(0, 0)
    ensures Previewable(BuyBtc(0.37, 50000.0), false, 0) && BuyBtc(0.37, 50000.0).Notional() == 18500.0
    ensures Previewable(BuyBtc(0.1, 65000.0), false, 0) && BuyBtc(0.1, 65000.0).Notional() == 6500.0
    ensures Previewable(BuyBtc(0.4, 62500.0), false, 0) && BuyBtc(0.4, 62500.0).Notional() == 25000.0
  {
    assert 0.37 / 0.001 == 370.0 && 50000.0 / 0.1 == 500000.0;
    assert 0.1 / 0.001 == 100.0 && 65000.0 / 0.1 == 650000.0;
    assert 0.4 / 0.001 == 400.0 && 62500.0 / 0.1 == 625000.0;
  }

  /** One round from a long position: the position grows and the book is quiet again. */
  lemma RoundBuys(ops: seq<Operation>, q: real, mark: real, worth: real, x: real, price: real)
    requires var s := Run(Initial(DefaultAccountState(0), false), ops);
             && OneAtATime(DefaultAccountState(0), false, ops) && OrdersOk(s.orders) && NoneOpen(s.orders)
             && LongBtc(s.account, q, mark) && Collateral(s.account) >= 90000.0
             && !s.halted && s.riskState == CALM && !s.takerGateEnabled
    requires worth == q * mark && q >= 0.0 && worth >= 0.0 && x > 0.0 && price > 0.0
    requires Previewable(BuyBtc(x, price), false, 0) && worth + BuyBtc(x, price).Notional() <= 25000.0
    ensures var s := Run(Initial(DefaultAccountState(0), false), ops);
            var t := Run(Initial(DefaultAccountState(0), false), ops + Round(BuyBtc(x, price)));
            && Admits(s, BuyBtc(x, price), 0)
            && OneAtATime(DefaultAccountState(0), false, ops + Round(BuyBtc(x, price)))
            && OrdersOk(t.orders) && NoneOpen(t.orders) && LongBtc(t.account, q + x, price)
            && Collateral(t.account) == Collateral(s.account) - x * price * DEFAULT_MAKER_RATE
            && !t.halted && t.riskState == CALM && !t.takerGateEnabled
  {
    hide Run, OrdersOk, NoneOpen, LongBtc, Previewable, OneAtATime, Admits, QuantitiesOk, DefaultAccountState,
         ApplyPaperFill, Round, Fulfils;
    var s, intent := Run(Initial(DefaultAccountState(0), false), ops), BuyBtc(x, price);
    ProductNonNegative(x, price);
    LongBtcAdmits(s, q, mark, worth, intent);
    var f := RunOneRound(DefaultAccountState(0), ops, intent);
    var rate := MakerRate(s.account.feePolicies, BTCUSDC);
    LongBtcGrows(s.account, q, mark, intent, f, rate);
    LongBtcRate(s.account, q, mark);
    FulfilledFee(f, intent, rate);
  }

  lemma FulfilledFee(f: PaperFill, intent: PaperOrderIntent, rate: real)
    requires Fulfils(f, intent, rate)
    ensures f.fee == intent.quantity * intent.limitPrice * rate
  {
  }

  lemma LongBtcRate(a: AccountState, q: real, mark: real)
    requires LongBtc(a, q, mark)
    ensures MakerRate(a.feePolicies, BTCUSDC) == DEFAULT_MAKER_RATE
  {
    DefaultRates(0, BTCUSDC);
  }

  /** Why run-level exposure safety asks for a single price: buy 0.37 BTC at 50000 from the flat account, let
      it fill, then buy 0.1 at 65000.  Both orders are admitted, never two open at once, and the account
      ends at a leg imbalance of exactly the limit plus the drift of the second order, 5550. */
  lemma DriftIsReached()
    ensures var account := DefaultAccountState(0);
            var first, second := BuyBtc(0.37, 50000.0), BuyBtc(0.1, 65000.0);
            var before := Run(Initial(account, false), Round(first));
            var ops := Round(first) + Round(second);
            && OneAtATime(account, false, ops)
            && Admits(Initial(account, false), first, 0) && Admits(before, second, 0)
            && OrderDrift(before.account, second) == 5550.0
            && Size(Net, Run(Initial(account, false), ops).account.positionBooks)
               == LimitOf(Net, DEFAULT_LIMITS) + 5550.0 == 30550.0
  {
    hide Run, Step, LongBtc, Previewable, OneAtATime, Admits, DefaultAccountState, Round, OrdersOk, NoneOpen, Size,
         Drift;
    BuysPreview();
    StartOfRuns();
    var first := Round(BuyBtc(0.37, 50000.0));
    RoundBuys([], 0.0, 0.0, 0.0, 0.37, 50000.0);
    assert [] + first == first;
    var before := Run(Initial(DefaultAccountState(0), false), first);
    RoundBuys(first, 0.37, 50000.0, 18500.0, 0.1, 65000.0);
    LongBtcDrift(before.account, 0.37, 50000.0, 65000.0);
    LongBtcSizes(Run(Initial(DefaultAccountState(0), false), first + Round(BuyBtc(0.1, 65000.0))).account,
                 0.47, 65000.0, 30550.0, Net);
  }

  lemma StartOfRuns()
    ensures var s := Run(Initial(DefaultAccountState(0), false), []);
            && s == Initial(DefaultAccountState(0), false) && OneAtATime(DefaultAccountState(0), false, [])
            && OrdersOk(s.orders) && NoneOpen(s.orders) && LongBtc(s.account, 0.0, 0.0)
            && Collateral(s.account) == 100000.0
  {
  }

  // ---------------------------------------------------------------- unique keys are needed

  /** The default account with a second BTCUSDC long book. */
  function DoubledAccount(): AccountState {
    DefaultAccountState(0).(positionBooks := DefaultPositionBooks() + [FlatBook(BTCUSDC, Long)])
  }

  lemma DoubledBooks()
    ensures var a := DoubledAccount();
            && Standard(a, 0) && a.feePolicies == DefaultFeePolicies(0) && FeesStayClean(a.feePolicies, 0, 0)
            && Hedged(a.positionBooks) && Flat(a.positionBooks) && QuantitiesOk(a) && Collateral(a) == 100000.0
  {
    hide FeePolicy.ValidationErrors, Fresh, HasBook;
    DefaultIsStandard(0, 0);
    MoreBooks(DefaultPositionBooks(), [FlatBook(BTCUSDC, Long)]);
  }

  lemma MoreBooks(books: seq<PositionBook>, more: seq<PositionBook>)
    requires Hedged(books)
    ensures Hedged(books + more)
  {
    forall b | b in books ensures b in books + more {}
  }

  lemma FlatRoom(a: AccountState, notional: real)
    requires Flat(a.positionBooks) && Collateral(a) == 100000.0 && 0.0 <= notional <= 25000.0
    ensures ExposureAdmits(a, notional, BTCUSDC, DEFAULT_LIMITS)
  {
    hide Size, Flat;
    forall m: Measure ensures Size(m, a.positionBooks) == 0.0 {
      FlatBooksCarryNothing(a.positionBooks, m, BTCUSDC, Long, 62500.0);
    }
    LeverageIsLow(notional, Collateral(a));
  }

  lemma DoubledAccountAdmits()
    ensures Admits(Initial(DoubledAccount(), false), BuyBtc(0.4, 62500.0), 0)
  {
    hide Previewable, PreviewOrder, Vetoes, FeesStayClean, Fresh, Admits, DoubledAccount, Standard, Hedged, Flat,
         ExposureAdmits, QuantitiesOk;
    var s := Initial(DoubledAccount(), false);
    DoubledBooks();
    BuysPreview();
    StandardPreview(s, 0, BuyBtc(0.4, 62500.0), 0);
    StandardAdmission(s, 0, BuyBtc(0.4, 62500.0), 0);
    FlatRoom(s.account, 25000.0);
  }

  lemma BothOpen(f: PaperFill, rate: real)
    requires Fulfils(f, BuyBtc(0.4, 62500.0), rate)
    ensures Size(Net, ApplyPaperFill(DoubledAccount(), f).positionBooks) == 50000.0
  {
    var start := DoubledAccount().positionBooks;
    var after := ApplyPaperFill(DoubledAccount(), f).positionBooks;
    forall i | 0 <= i < 5 ensures Figures(Net, after)[i] == if i == 0 || i == 4 then 25000.0 else 0.0 {
    }
    assert Figures(Net, after)[..4][..1] == Figures(Net, after)[..1];
    SumOfOne(Figures(Net, after)[..4], 0);
  }

  /** Why the drift bound counts the books under a key: an account may hold two, one admitted order then
      fills both, and the leg imbalance ends at twice its limit although no drift was there. */
  lemma SharedKeysDoubleTheFill()
    ensures var s, order := Initial(DoubledAccount(), false), BuyBtc(0.4, 62500.0);
            && Admits(s, order, 0)
            && Drift(s.account.positionBooks, BTCUSDC, Long, 62500.0) == 0.0
            && Size(Net, Process(Process(Submit(s, order, 0), 0), 0).account.positionBooks)
               == 50000.0 == 2.0 * LimitOf(Net, DEFAULT_LIMITS)
  {
    hide Size, Drift, Submit, Process, Admits, DoubledAccount, QuantitiesOk, Flat, Hedged, Standard, FeesStayClean,
         ApplyPaperFill, Fulfils, OrdersOk, MakerRate;
    var s, order := Initial(DoubledAccount(), false), BuyBtc(0.4, 62500.0);
    DoubledBooks();
    DoubledAccountAdmits();
    FlatBooksCarryNothing(s.account.positionBooks, Net, BTCUSDC, Long, 62500.0);
    NoOrdersAreOk();
    var f := OrderFillsWhole(s, order, 0);
    BothOpen(f, MakerRate(s.account.feePolicies, BTCUSDC));
  }

  // ---------------------------------------------------------------- a flatten between two halves

  /** The default account at twice the default maker rate. */
  function DearAccount(): AccountState {
    DefaultAccountState(0).(feePolicies := [FeePolicy(BTCUSDC, 0.0002, 0.0004, FreshAt(0), None)])
  }

  lemma DearRecords()
    ensures var a := DearAccount();
            && Standard(a, 0) && FeesStayClean(a.feePolicies, 0, 0) && Hedged(a.positionBooks) && Flat(a.positionBooks)
            && FeeFor(a.feePolicies, BTCUSDC) == Some(FeePolicy(BTCUSDC, 0.0002, 0.0004, FreshAt(0), None))
            && FeePolicy(BTCUSDC, 0.0002, 0.0004, FreshAt(0), None).ValidationErrors(0) == []
            && Collateral(a) == 100000.0
  {
    hide HasBook;
    DefaultIsStandard(0, 0);
  }

  lemma DearPreview()
    ensures PreviewOrder(Initial(DearAccount(), false), BuyBtc(0.1, 65000.0), 0).accepted
  {
    hide IsMultiple, SymbolMetadata.ValidationErrors, FeePolicy.ValidationErrors, DearAccount, FeeFor, FreshAt,
         Standard;
    var s, order := Initial(DearAccount(), false), BuyBtc(0.1, 65000.0);
    DearRecords();
    BuysPreview();
    PreviewAccepts(s.account, false, false, order, 0);
    DearMetadata();
  }

  lemma DearMetadata()
    ensures MetadataFor(DearAccount().symbolMetadata, BTCUSDC) == Some(ExecutableMetadata(BTCUSDC, 0))
    ensures ExecutableMetadata(BTCUSDC, 0).ValidationErrors(0) == []
  {
    DefaultRecords(0, BTCUSDC);
    DefaultMetadataIsClean(0, 0);
    assert ExecutableMetadata(BTCUSDC, 0) in DefaultSymbolMetadata(0);
  }

  lemma DearAdmits()
    ensures Admits(Initial(DearAccount(), false), BuyBtc(0.1, 65000.0), 0)
  {
    hide PreviewOrder, Vetoes, FeesStayClean, Fresh, Admits, DearAccount, Standard, Hedged, Flat, ExposureAdmits,
         FreshAt, FeeFor, FeePolicy.ValidationErrors, Previewable;
    DearRecords();
    DearPreview();
    BuysPreview();
    StandardAdmission(Initial(DearAccount(), false), 0, BuyBtc(0.1, 65000.0), 0);
    FlatRoom(DearAccount(), 6500.0);
  }

  function FlattenedHalfway(): seq<Operation> {
    [SubmitOp(BuyBtc(0.1, 65000.0), 0), ProcessOp(0), PanicFlattenOp(0, 0), ProcessOp(0)]
  }

  lemma RunOfFour(account: AccountState, a: Operation, b: Operation, c: Operation, d: Operation)
    ensures Run(Initial(account, false), [a, b, c, d]) == Step(Step(Step(Step(Initial(account, false), a), b), c), d)
  {
    hide Step;
    RunOneMore(account, [], a);
    RunOneMore(account, [a], b);
    RunOneMore(account, [a, b], c);
    RunOneMore(account, [a, b, c], d);
    assert [] + [a] == [a] && [a] + [b] == [a, b] && [a, b] + [c] == [a, b, c] && [a, b, c] + [d] == [a, b, c, d];
  }

  lemma DearRate()
    ensures MakerRate(DearAccount().feePolicies, BTCUSDC) == 0.0002
  {
    hide DearAccount;
    DearRecords();
  }

  lemma DearStart()
    ensures var one := Submit(Initial(DearAccount(), false), BuyBtc(0.1, 65000.0), 0);
            && OrdersOk(one.orders) && one.account == DearAccount() && |one.orders| == 1
            && one.orders[0] == NewOrder(1, BuyBtc(0.1, 65000.0), 0)
  {
    hide Submit, Admits, DearAccount, OrderOk;
    DearAdmits();
    NoOrdersAreOk();
    SubmitOpens(Initial(DearAccount(), false), BuyBtc(0.1, 65000.0), 0);
  }

  /** Passes and flattens keep the number of orders. */
  lemma HalvesKeepCount(one: ExchangeState)
    ensures |Process(PanicFlatten(Process(one, 0), 0, 0), 0).orders| == |one.orders|
  {
    hide Process, DefaultAccountState;
    PassKeepsCount(one, 0);
    PassKeepsCount(PanicFlatten(Process(one, 0), 0, 0), 0);
  }

  /** A reachable state in which splitting an order changed what it paid: one half at 0.0002, the other,
      after a flatten, at 0.0001. */
  lemma FlattenSplitsTheFee()
    ensures var s := Run(Initial(DearAccount(), false), FlattenedHalfway());
            && MakerRate(DearAccount().feePolicies, BTCUSDC) == 0.0002
            && |s.orders| == 1 && s.orders[0].status == Filled
            && TotalFees(s.orders[0].fills) == 0.975
            && BuyBtc(0.1, 65000.0).Notional() * 0.0002 == 1.3
  {
    hide Run, Submit, Process, PanicFlatten, DearAccount, OrdersOk, TotalFees, MakerRate;
    var one := Submit(Initial(DearAccount(), false), BuyBtc(0.1, 65000.0), 0);
    DearStart();
    DearRate();
    BuysPreview();
    assert one.orders[0].intent.quantity / 2.0 * one.orders[0].intent.limitPrice == 3250.0;
    FlattenMidOrder(one, 0, 0, 0, 0);
    HalvesKeepCount(one);
    RunOfFour(DearAccount(), SubmitOp(BuyBtc(0.1, 65000.0), 0), ProcessOp(0), PanicFlattenOp(0, 0), ProcessOp(0));
  }
}
