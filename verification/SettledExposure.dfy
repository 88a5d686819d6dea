/** Where exposure ends once two passes have filled every open order: exactly what the open orders were to
    add, so that a crowd of resting orders keeps a limit if and only if it fits together. */
module SettledExposure {
  import opened Schemas
  import opened Accounting
  import opened Sums
  import opened Exposure
  import opened Risk
  import opened ExchangeModel
  import opened OrderState
  import opened Lifecycle
  import opened ProgressLaws
  import opened ExposureSafety
  import opened CrowdedExposure

  // ---------------------------------------------------------------- what an open order is to add

  predicate Opens(intent: PaperOrderIntent) {
    (intent.side == Buy && intent.bookSide == Long) || (intent.side == Sell && intent.bookSide == Short)
  }

  /** The notional an order is to add to the books under its key: negative for a closing order. */
  function SignedPending(o: PaperOrder): real {
    if !o.IsOpen() then 0.0 else if Opens(o.intent) then Pending(o) else -Pending(o)
  }

  function Additions(m: Measure, books: seq<PositionBook>, o: PaperOrder): seq<real> {
    seq(|books|, i requires 0 <= i < |books| =>
      if IsTarget(books[i], o.intent.symbol, o.intent.bookSide)
      then Figure(m, books[i].(notional := SignedPending(o))) else 0.0)
  }

  /** What it is to add to a measure: the figures of the books under its key, at that notional. */
  function Adds(m: Measure, books: seq<PositionBook>, o: PaperOrder): real {
    Sum(Additions(m, books, o))
  }

  function EachAdds(m: Measure, books: seq<PositionBook>, orders: seq<PaperOrder>): seq<real> {
    seq(|orders|, i requires 0 <= i < |orders| => Adds(m, books, orders[i]))
  }

  function AllAdd(m: Measure, books: seq<PositionBook>, orders: seq<PaperOrder>): real {
    Sum(EachAdds(m, books, orders))
  }

  ghost predicate SameKeys(books: seq<PositionBook>, after: seq<PositionBook>) {
    |books| == |after|
    && forall i :: 0 <= i < |books| ==> after[i].symbol == books[i].symbol && after[i].side == books[i].side
  }

  lemma FigureOfKey(m: Measure, b: PositionBook, c: PositionBook, notional: real)
    requires b.symbol == c.symbol && b.side == c.side
    ensures Figure(m, b.(notional := notional)) == Figure(m, c.(notional := notional))
  {
  }

  lemma AddsByKey(m: Measure, books: seq<PositionBook>, after: seq<PositionBook>, o: PaperOrder)
    requires SameKeys(books, after)
    ensures Adds(m, books, o) == Adds(m, after, o)
  {
    hide Figure, SignedPending;
    forall i | 0 <= i < |books| ensures Additions(m, books, o)[i] == Additions(m, after, o)[i] {
      FigureOfKey(m, books[i], after[i], SignedPending(o));
    }
    assert Additions(m, books, o) == Additions(m, after, o);
  }

  lemma ClosedAddsNothing(m: Measure, books: seq<PositionBook>, o: PaperOrder)
    requires !o.IsOpen()
    ensures Adds(m, books, o) == 0.0
  {
    SumOfZeros(Additions(m, books, o));
  }

  lemma NothingOpenAddsNothing(m: Measure, books: seq<PositionBook>, orders: seq<PaperOrder>)
    requires NoneOpen(orders)
    ensures AllAdd(m, books, orders) == 0.0
  {
    hide Adds;
    forall i | 0 <= i < |orders| ensures EachAdds(m, books, orders)[i] == 0.0 {
      ClosedAddsNothing(m, books, orders[i]);
    }
    SumOfZeros(EachAdds(m, books, orders));
  }

  // ---------------------------------------------------------------- closes that do not clamp

  function Demand(o: PaperOrder, symbol: Symbol, side: BookSide): real {
    if o.IsOpen() && !Opens(o.intent) && o.intent.symbol == symbol && o.intent.bookSide == side then o.Remaining()
    else 0.0
  }

  function Demands(orders: seq<PaperOrder>, symbol: Symbol, side: BookSide): seq<real> {
    seq(|orders|, i requires 0 <= i < |orders| => Demand(orders[i], symbol, side))
  }

  /** What open orders are to close of a book. */
  function DemandOn(orders: seq<PaperOrder>, symbol: Symbol, side: BookSide): real {
    Sum(Demands(orders, symbol, side))
  }

  /** Every book holds what open orders are to close of it; so any book not negative, if they only open. */
  ghost predicate Covered(books: seq<PositionBook>, orders: seq<PaperOrder>) {
    forall b :: b in books ==> b.quantity >= DemandOn(orders, b.symbol, b.side)
  }

  lemma DemandReplaced(orders: seq<PaperOrder>, k: nat, o: PaperOrder, symbol: Symbol, side: BookSide)
    requires k < |orders|
    ensures DemandOn(orders[k := o], symbol, side)
            == DemandOn(orders, symbol, side) + Demand(o, symbol, side) - Demand(orders[k], symbol, side)
  {
    hide Demand;
    assert Demands(orders[k := o], symbol, side) == Demands(orders, symbol, side)[k := Demand(o, symbol, side)];
    SumReplaced(Demands(orders, symbol, side), k, Demand(o, symbol, side));
  }

  lemma DemandAtMost(orders: seq<PaperOrder>, k: nat, symbol: Symbol, side: BookSide)
    requires k < |orders|
    ensures 0.0 <= Demand(orders[k], symbol, side) <= DemandOn(orders, symbol, side)
  {
    EntryAtMostSum(Demands(orders, symbol, side), k);
  }

  // ---------------------------------------------------------------- one fill

  ghost predicate OpenAtPrices(orders: seq<PaperOrder>, price: Symbol -> real) {
    forall i :: 0 <= i < |orders| && orders[i].IsOpen() ==>
      orders[i].intent.limitPrice == price(orders[i].intent.symbol)
  }

  /** A book at its price and a fill at that price that does not clamp it: the notional gains the fill's. */
  lemma GainAtPrice(b: PositionBook, f: PaperFill, x: real)
    requires b.notional == b.quantity * f.price && x == f.quantity * f.price
    requires IsIncrease(f) || f.quantity <= b.quantity
    ensures Gained(b, f).notional == if IsIncrease(f) then x else -x
  {
    assert (b.quantity + f.quantity) * f.price == b.quantity * f.price + x;
    assert (b.quantity - f.quantity) * f.price == b.quantity * f.price - x;
  }

  /** The fill takes from what the order is to add exactly its own. */
  lemma SignedPendingSteps(o: PaperOrder, f: PaperFill, x: real)
    requires OrderOk(o) && o.IsOpen() && FillsOrder(f, o) && f.quantity <= o.Remaining() && x == f.quantity * f.price
    ensures SignedPending(o) - SignedPending(AfterFill(o, f)) == if IsIncrease(f) then x else -x
  {
    PendingAfterFill(o, f);
    FilledQuantityByStatus(o);
  }

  lemma FillAddsItsOwn(m: Measure, b: PositionBook, o: PaperOrder, f: PaperFill)
    requires OrderOk(o) && o.IsOpen() && FillsOrder(f, o) && f.quantity <= o.Remaining()
    requires b.notional == b.quantity * f.price && (IsIncrease(f) || f.quantity <= b.quantity)
    ensures Figure(m, b.(notional := SignedPending(o)))
            == Figure(m, b.(notional := SignedPending(AfterFill(o, f)))) + Figure(m, Gained(b, f))
  {
    hide OrderOk, SignedPending, Figure, AfterFill;
    GainAtPrice(b, f, f.quantity * f.price);
    SignedPendingSteps(o, f, f.quantity * f.price);
    FigureIsLinear(m, b.(notional := SignedPending(AfterFill(o, f))), b.(notional := SignedPending(o)), Gained(b, f));
  }

  /** A fill moves a measure by exactly what its order is to add less. */
  lemma FillSettles(m: Measure, books: seq<PositionBook>, o: PaperOrder, f: PaperFill, price: Symbol -> real)
    requires BooksAtPrices(books, price) && f.price == price(f.symbol)
    requires OrderOk(o) && o.IsOpen() && FillsOrder(f, o) && f.quantity <= o.Remaining()
    requires forall b :: b in books && Touches(b, f) ==> IsIncrease(f) || f.quantity <= b.quantity
    ensures Total(m, UpdatedBooks(books, f)) + Adds(m, books, AfterFill(o, f)) == Total(m, books) + Adds(m, books, o)
  {
    hide OrderOk, SignedPending, Figure, AfterFill, Gained, UpdatedBooks, Total;
    var after := AfterFill(o, f);
    assert after.intent == o.intent by { SameIntent(o, f); }
    forall i | 0 <= i < |books|
      ensures Additions(m, books, o)[i] == Additions(m, books, after)[i] + Gains(m, books, f)[i]
    {
      assert books[i] in books;
      if Touches(books[i], f) { FillAddsItsOwn(m, books[i], o, f); }
    }
    SumAdds(Additions(m, books, after), Gains(m, books, f), Additions(m, books, o));
    UpdateMovesAll(books, f);
    FillMovesExactly(m, books, f, UpdatedBooks(books, f));
  }

  lemma SameIntent(o: PaperOrder, f: PaperFill)
    ensures AfterFill(o, f).intent == o.intent && AfterFill(o, f).orderId == o.orderId
  {
  }

  /** A book holds enough for the order's fill, and then still for what other orders are to close. */
  lemma FillKeepsCover(books: seq<PositionBook>, orders: seq<PaperOrder>, k: nat, f: PaperFill)
    requires k < |orders| && OrderOk(orders[k]) && orders[k].IsOpen() && FillsOrder(f, orders[k])
    requires f.quantity <= orders[k].Remaining() && Covered(books, orders)
    ensures forall b :: b in books && Touches(b, f) ==> IsIncrease(f) || f.quantity <= b.quantity
    ensures Covered(UpdatedBooks(books, f), orders[k := AfterFill(orders[k], f)])
  {
    hide OrderOk, Covered, DemandOn;
    forall b | b in books && Touches(b, f) ensures IsIncrease(f) || f.quantity <= b.quantity {
      CoverOf(books, orders, b);
      DemandAtMost(orders, k, b.symbol, b.side);
    }
    var after := orders[k := AfterFill(orders[k], f)];
    forall c | c in UpdatedBooks(books, f) ensures c.quantity >= DemandOn(after, c.symbol, c.side) {
      var i :| 0 <= i < |books| && UpdatedBooks(books, f)[i] == c;
      assert books[i] in books;
      CoverOf(books, orders, books[i]);
      DemandReplaced(orders, k, AfterFill(orders[k], f), c.symbol, c.side);
      BookKeepsCover(books[i], orders[k], f);
    }
    AllCovered(UpdatedBooks(books, f), after);
  }

  lemma CoverOf(books: seq<PositionBook>, orders: seq<PaperOrder>, b: PositionBook)
    requires Covered(books, orders) && b in books
    ensures b.quantity >= DemandOn(orders, b.symbol, b.side)
  {
  }

  lemma AllCovered(books: seq<PositionBook>, orders: seq<PaperOrder>)
    requires forall b :: b in books ==> b.quantity >= DemandOn(orders, b.symbol, b.side)
    ensures Covered(books, orders)
  {
  }

  /** The book loses no more than the order's demand on it does. */
  lemma BookKeepsCover(b: PositionBook, o: PaperOrder, f: PaperFill)
    requires OrderOk(o) && o.IsOpen() && FillsOrder(f, o) && f.quantity <= o.Remaining()
    ensures var c := UpdatedBook(b, f);
            && c.symbol == b.symbol && c.side == b.side
            && c.quantity - b.quantity >= Demand(AfterFill(o, f), b.symbol, b.side) - Demand(o, b.symbol, b.side)
  {
    FilledQuantityByStatus(o);
  }

  // ---------------------------------------------------------------- one pass

  /** Midway through a pass the measure and what is still to be added come to what they came to before it. */
  ghost predicate Settling(
    m: Measure, start: seq<PositionBook>, sum: real, books: seq<PositionBook>, orders: seq<PaperOrder>,
    price: Symbol -> real)
  {
    && BooksAtPrices(books, price) && SameKeys(start, books) && Covered(books, orders)
    && Total(m, books) + AllAdd(m, start, orders) == sum
  }

  lemma FillKeepsSettling(
    m: Measure, start: seq<PositionBook>, sum: real, a: AccountState, orders: seq<PaperOrder>, k: nat, f: PaperFill,
    price: Symbol -> real)
    requires Settling(m, start, sum, a.positionBooks, orders, price)
    requires k < |orders| && OrderOk(orders[k]) && orders[k].IsOpen() && FillsOrder(f, orders[k])
    requires f.quantity <= orders[k].Remaining() && f.price == price(f.symbol)
    ensures Settling(m, start, sum, ApplyPaperFill(a, f).positionBooks, orders[k := AfterFill(orders[k], f)], price)
  {
    hide OrderOk, Covered, BooksAtPrices, UpdatedBooks, Adds, Total, AfterFill;
    var books, o, after := a.positionBooks, orders[k], AfterFill(orders[k], f);
    PositiveFill(f, o);
    FillKeepsCover(books, orders, k, f);
    FillKeepsPrices(a, f, price);
    KeysStay(books, f);
    FillSettles(m, books, o, f, price);
    AddsByKey(m, start, books, o);
    AddsByKey(m, start, books, after);
    assert EachAdds(m, start, orders[k := after]) == EachAdds(m, start, orders)[k := Adds(m, start, after)];
    SumReplaced(EachAdds(m, start, orders), k, Adds(m, start, after));
  }

  lemma PositiveFill(f: PaperFill, o: PaperOrder)
    requires FillsOrder(f, o)
    ensures f.quantity > 0.0
  {
  }

  lemma KeysStay(books: seq<PositionBook>, f: PaperFill)
    ensures SameKeys(books, UpdatedBooks(books, f))
  {
  }

  /** The state of a pass after `k` visits. */
  ghost predicate PassSettling(
    m: Measure, start: seq<PositionBook>, sum: real, a: AccountState, orders: seq<PaperOrder>, k: nat, p: Pass,
    price: Symbol -> real)
    requires k <= |orders|
  {
    && |p.orders| == k
    && Settling(m, start, sum, ApplyFills(a, p.fills).positionBooks, p.orders + orders[k..], price)
  }

  lemma VisitSettles(
    m: Measure, start: seq<PositionBook>, sum: real, a: AccountState, orders: seq<PaperOrder>, k: nat, done: Pass,
    v: Pass, price: Symbol -> real)
    requires k < |orders| && OrderOk(orders[k]) && orders[k].IsOpen()
    requires orders[k].intent.limitPrice == price(orders[k].intent.symbol)
    requires PassSettling(m, start, sum, a, orders, k, done, price)
    requires |v.orders| == |v.fills| == 1 && FilledBy(orders[k], v.fills[0], v.orders[0])
    ensures PassSettling(
              m, start, sum, a, orders, k + 1,
              Pass(done.orders + v.orders, done.fills + v.fills, done.events + v.events), price)
  {
    hide OrderOk, Settling, ApplyPaperFill, FillsOrder, AfterFill, ApplyFills;
    var halfway, f := done.orders + orders[k..], v.fills[0];
    FillPrice(f, orders[k], price);
    FillKeepsSettling(m, start, sum, ApplyFills(a, done.fills), halfway, k, f, price);
    assert halfway[k := v.orders[0]] == done.orders + v.orders + orders[k + 1..];
    assert v.fills == [f];
    ApplyFillsStep(a, done.fills, f);
  }

  lemma SkipSettles(
    m: Measure, start: seq<PositionBook>, sum: real, a: AccountState, orders: seq<PaperOrder>, k: nat, done: Pass,
    price: Symbol -> real)
    requires k < |orders| && PassSettling(m, start, sum, a, orders, k, done, price)
    ensures PassSettling(
              m, start, sum, a, orders, k + 1,
              Pass(done.orders + [orders[k]], done.fills + [], done.events + []), price)
  {
    hide Settling;
    assert done.orders + [orders[k]] + orders[k + 1..] == done.orders + orders[k..];
    assert done.fills + [] == done.fills;
  }

  lemma NothingSettled(
    m: Measure, start: seq<PositionBook>, sum: real, a: AccountState, orders: seq<PaperOrder>, price: Symbol -> real)
    requires Settling(m, start, sum, a.positionBooks, orders, price)
    ensures PassSettling(m, start, sum, a, orders, 0, Pass([], [], []), price)
  {
    hide Settling;
    assert [] + orders[0..] == orders;
  }

  lemma {:induction false} PassSettles(
    m: Measure, start: seq<PositionBook>, sum: real, a: AccountState, orders: seq<PaperOrder>, k: nat,
    policies: seq<FeePolicy>, fillBase: nat, eventBase: nat, now: Time, price: Symbol -> real)
    requires k <= |orders| && OrdersOk(orders) && OpenAtPrices(orders, price)
    requires Settling(m, start, sum, a.positionBooks, orders, price)
    ensures PassSettling(m, start, sum, a, orders, k, VisitUpTo(orders, k, policies, fillBase, eventBase, now), price)
  {
    hide Visit, OrderOk, Settling, PassSettling, FilledBy;
    if k == 0 {
      NothingSettled(m, start, sum, a, orders, price);
    } else {
      var done := VisitUpTo(orders, k - 1, policies, fillBase, eventBase, now);
      var fillId, eventId := fillBase + |done.fills| + 1, eventBase + |done.events| + 1;
      PassSettles(m, start, sum, a, orders, k - 1, policies, fillBase, eventBase, now, price);
      if orders[k - 1].IsOpen() {
        VisitOpenFill(orders[k - 1], policies, fillId, eventId, now);
        var v := Visit(orders[k - 1], policies, fillId, eventId, now);
        VisitSettles(m, start, sum, a, orders, k - 1, done, v, price);
      } else {
        VisitClosed(orders[k - 1], policies, fillId, eventId, now);
        SkipSettles(m, start, sum, a, orders, k - 1, done, price);
      }
    }
  }

  lemma FillPrice(f: PaperFill, o: PaperOrder, price: Symbol -> real)
    requires FillsOrder(f, o) && o.intent.limitPrice == price(o.intent.symbol)
    ensures f.price == price(f.symbol)
  {
  }

  lemma ProcessSettlesOrders(
    m: Measure, start: seq<PositionBook>, sum: real, s: ExchangeState, now: Time, price: Symbol -> real)
    requires OrdersOk(s.orders) && OpenAtPrices(s.orders, price)
    requires Settling(m, start, sum, s.account.positionBooks, s.orders, price)
    ensures var after := Process(s, now);
            && OrdersOk(after.orders) && OpenAtPrices(after.orders, price)
            && Settling(m, start, sum, after.account.positionBooks, after.orders, price)
  {
    hide OrderOk, Settling, VisitUpTo, ApplyFills;
    var p := PassOf(s, now);
    PassSettles(m, start, sum, s.account, s.orders, |s.orders|, s.account.feePolicies, TotalFills(s.orders), |s.events|,
                now, price);
    assert p.orders + s.orders[|s.orders|..] == p.orders;
    ProcessKeepsOrders(s, now);
    ProcessContinues(s, now);
    forall i | 0 <= i < |p.orders| && p.orders[i].IsOpen()
      ensures p.orders[i].intent.limitPrice == price(p.orders[i].intent.symbol)
    {
      assert Continues(s.orders[i], p.orders[i]);
    }
  }

  // ---------------------------------------------------------------- two passes

  /** Where resting orders end: with everything at one price per symbol and no close that would clamp, two passes
      move every measure by exactly the sum of what the open orders were to add. */
  lemma TwoPassesAddExactly(m: Measure, s: ExchangeState, t1: Time, t2: Time, price: Symbol -> real)
    requires OrdersOk(s.orders) && OpenAtPrices(s.orders, price)
    requires BooksAtPrices(s.account.positionBooks, price) && Covered(s.account.positionBooks, s.orders)
    ensures Total(m, Process(Process(s, t1), t2).account.positionBooks)
            == Total(m, s.account.positionBooks) + AllAdd(m, s.account.positionBooks, s.orders)
  {
    hide OrdersOk, OpenAtPrices, Process, Covered, BooksAtPrices, AllAdd, Total;
    var start := s.account.positionBooks;
    var sum := Total(m, start) + AllAdd(m, start, s.orders);
    ProcessSettlesOrders(m, start, sum, s, t1, price);
    ProcessSettlesOrders(m, start, sum, Process(s, t1), t2, price);
    TwoPassesComplete(s, t1, t2, t2);
    NothingOpenAddsNothing(m, start, Process(Process(s, t1), t2).orders);
  }

  /** The exact condition for a crowd of resting orders, any measure and limit, opening and closing orders alike:
      filled by two passes they keep the limit if and only if the sum with all they are to add keeps it. */
  lemma CrowdFitsIff(m: Measure, s: ExchangeState, t1: Time, t2: Time, price: Symbol -> real, limit: real)
    requires OrdersOk(s.orders) && OpenAtPrices(s.orders, price)
    requires BooksAtPrices(s.account.positionBooks, price) && Covered(s.account.positionBooks, s.orders)
    ensures Size(m, Process(Process(s, t1), t2).account.positionBooks) <= limit
            <==> SizeOf(m, Total(m, s.account.positionBooks) + AllAdd(m, s.account.positionBooks, s.orders)) <= limit
  {
    hide OrdersOk, OpenAtPrices, Process, Covered, BooksAtPrices, AllAdd, Total;
    TwoPassesAddExactly(m, s, t1, t2, price);
  }

  // ---------------------------------------------------------------- opening orders

  /** Every open order opens, and one book stands under its key. */
  ghost predicate OnlyOpening(books: seq<PositionBook>, orders: seq<PaperOrder>) {
    && UniqueKeys(books)
    && forall i :: 0 <= i < |orders| && orders[i].IsOpen() ==>
        Opens(orders[i].intent) && HasBook(books, orders[i].intent.symbol, orders[i].intent.bookSide)
  }

  /** These measures count the notional of every order that concerns them as it is. */
  predicate CountsOrders(m: Measure) {
    m.Gross? || m.Sector? || m.InSymbol?
  }

  lemma OpeningAddsPending(m: Measure, books: seq<PositionBook>, o: PaperOrder)
    requires CountsOrders(m) && OrderOk(o) && UniqueKeys(books)
    requires o.IsOpen() ==> Opens(o.intent) && HasBook(books, o.intent.symbol, o.intent.bookSide)
    ensures Adds(m, books, o) == PendingFor(m, o)
  {
    hide Pending, FillShape;
    if !o.IsOpen() {
      ClosedAddsNothing(m, books, o);
    } else {
      var b :| b in books && b.symbol == o.intent.symbol && b.side == o.intent.bookSide;
      var k :| 0 <= k < |books| && books[k] == b;
      forall i | 0 <= i < |books| && i != k ensures !IsTarget(books[i], o.intent.symbol, o.intent.bookSide) {
        if i < k {} else {}
      }
      SumOfOne(Additions(m, books, o), k);
    }
  }

  lemma OpeningOrdersAddPending(m: Measure, books: seq<PositionBook>, orders: seq<PaperOrder>)
    requires CountsOrders(m) && OrdersOk(orders) && OnlyOpening(books, orders)
    ensures AllAdd(m, books, orders) == PendingOf(m, orders)
  {
    hide Adds, PendingFor, OrderOk, UniqueKeys, HasBook;
    forall i | 0 <= i < |orders| ensures EachAdds(m, books, orders)[i] == Pendings(m, orders)[i] {
      OpeningAddsPending(m, books, orders[i]);
    }
    assert EachAdds(m, books, orders) == Pendings(m, orders);
  }

  lemma OpeningOrdersAreCovered(books: seq<PositionBook>, orders: seq<PaperOrder>, price: Symbol -> real)
    requires BooksAtPrices(books, price) && OnlyOpening(books, orders)
    ensures Covered(books, orders)
  {
    forall b | b in books ensures b.quantity >= DemandOn(orders, b.symbol, b.side) {
      SumOfZeros(Demands(orders, b.symbol, b.side));
    }
  }

  /** For opening orders: gross, sector and symbol exposure keep a limit once all are filled if and only if their
      size plus everything pending keeps it. */
  lemma OpeningCrowdFitsIff(m: Measure, s: ExchangeState, t1: Time, t2: Time, price: Symbol -> real, limit: real)
    requires OrdersOk(s.orders) && OpenAtPrices(s.orders, price) && CountsOrders(m)
    requires BooksAtPrices(s.account.positionBooks, price) && OnlyOpening(s.account.positionBooks, s.orders)
    ensures Size(m, Process(Process(s, t1), t2).account.positionBooks) <= limit
            <==> Exposed(m, s.account, s.orders) <= limit
  {
    hide OrdersOk, OpenAtPrices, Process, Covered, BooksAtPrices, OnlyOpening, AllAdd, PendingOf, Total;
    OpeningOrdersAreCovered(s.account.positionBooks, s.orders, price);
    CrowdFitsIff(m, s, t1, t2, price, limit);
    OpeningOrdersAddPending(m, s.account.positionBooks, s.orders);
  }

  // ---------------------------------------------------------------- reachable states

  lemma FillsKeepKeys(a: AccountState, fills: seq<PaperFill>)
    ensures SameKeys(a.positionBooks, ApplyFills(a, fills).positionBooks)
  {
    hide ApplyFills;
    FillsKeepTheRest(a, fills);
    forall i | 0 <= i < |a.positionBooks|
      ensures ApplyFills(a, fills).positionBooks[i].symbol == a.positionBooks[i].symbol
      ensures ApplyFills(a, fills).positionBooks[i].side == a.positionBooks[i].side
    {
      BooksAreIndependent(a, fills, i);
    }
  }

  lemma StepKeepsKeys(s: ExchangeState, op: Operation)
    requires SameKeys(DefaultPositionBooks(), s.account.positionBooks)
    ensures SameKeys(DefaultPositionBooks(), Step(s, op).account.positionBooks)
  {
    hide VisitUpTo, Vetoes, ApplyFills;
    if op.ProcessOp? { FillsKeepKeys(s.account, PassOf(s, op.now).fills); }
  }

  lemma {:induction false} RunKeepsKeys(start: Time, takerGateEnabled: bool, ops: seq<Operation>)
    ensures SameKeys(DefaultPositionBooks(),
                     Run(Initial(DefaultAccountState(start), takerGateEnabled), ops).account.positionBooks)
  {
    hide Step, SameKeys, DefaultAccountState;
    if ops == [] {
      DefaultKeys(start);
    } else {
      var n := |ops| - 1;
      RunKeepsKeys(start, takerGateEnabled, ops[..n]);
      StepKeepsKeys(Run(Initial(DefaultAccountState(start), takerGateEnabled), ops[..n]), ops[n]);
    }
  }

  lemma DefaultKeys(start: Time)
    ensures SameKeys(DefaultPositionBooks(), DefaultAccountState(start).positionBooks)
  {
  }

  lemma DefaultKeysHaveBooks(books: seq<PositionBook>, symbol: Symbol, side: BookSide)
    requires SameKeys(DefaultPositionBooks(), books) && (symbol == BTCUSDC || symbol == ETHUSDC)
    ensures HasBook(books, symbol, side)
  {
    assert books[0] in books && books[1] in books && books[2] in books && books[3] in books;
  }

  lemma DefaultKeysAreUnique(books: seq<PositionBook>)
    requires SameKeys(DefaultPositionBooks(), books)
    ensures UniqueKeys(books)
  {
  }

  /** What holds of every state a one-price run from the default account reaches. */
  lemma ReachedAtPrices(start: Time, takerGateEnabled: bool, ops: seq<Operation>, price: Symbol -> real)
    requires forall op :: op in ops ==> SubmitsAt(op, price)
    ensures var s := Run(Initial(DefaultAccountState(start), takerGateEnabled), ops);
            && OrdersOk(s.orders) && OpenAtPrices(s.orders, price) && BooksAtPrices(s.account.positionBooks, price)
            && SameKeys(DefaultPositionBooks(), s.account.positionBooks)
  {
    hide Run, OrdersOk, SameKeys, SubmitsAt, BooksAtPrices, DefaultAccountState;
    var account := DefaultAccountState(start);
    DefaultAtPrices(start, takerGateEnabled, price);
    NoDriftIsNoted(account, takerGateEnabled, ops, price);
    NoOrdersAreOk();
    RunKeepsOrders(Initial(account, takerGateEnabled), ops);
    RunKeepsKeys(start, takerGateEnabled, ops);
  }

  /** In every state a one-price run from the default account reaches, with any measure and limit: unless a close would
      clamp, the resting orders keep the limit once filled if and only if the sum with all they are to add does. */
  lemma RestingCrowdFitsIff(
    m: Measure, start: Time, takerGateEnabled: bool, ops: seq<Operation>, price: Symbol -> real, t1: Time, t2: Time,
    limit: real)
    requires forall op :: op in ops ==> SubmitsAt(op, price)
    requires var s := Run(Initial(DefaultAccountState(start), takerGateEnabled), ops);
             Covered(s.account.positionBooks, s.orders)
    ensures var s := Run(Initial(DefaultAccountState(start), takerGateEnabled), ops);
            Size(m, Process(Process(s, t1), t2).account.positionBooks) <= limit
            <==> SizeOf(m, Total(m, s.account.positionBooks) + AllAdd(m, s.account.positionBooks, s.orders)) <= limit
  {
    hide Run, OrdersOk, SubmitsAt, OpenAtPrices, BooksAtPrices, Process, Covered, AllAdd, Total, SameKeys;
    ReachedAtPrices(start, takerGateEnabled, ops, price);
    CrowdFitsIff(m, Run(Initial(DefaultAccountState(start), takerGateEnabled), ops), t1, t2, price, limit);
  }

  /** When they all open, gross, sector and symbol exposure keep a limit once filled if and only if size plus everything
      pending does: the check a caller makes before a submit is exact. */
  lemma RestingOrdersFitIff(
    m: Measure, start: Time, takerGateEnabled: bool, ops: seq<Operation>, price: Symbol -> real, t1: Time, t2: Time,
    limit: real)
    requires CountsOrders(m) && forall op :: op in ops ==> SubmitsAt(op, price)
    requires var s := Run(Initial(DefaultAccountState(start), takerGateEnabled), ops);
             forall i :: 0 <= i < |s.orders| && s.orders[i].IsOpen() ==> Opens(s.orders[i].intent)
    ensures var s := Run(Initial(DefaultAccountState(start), takerGateEnabled), ops);
            Size(m, Process(Process(s, t1), t2).account.positionBooks) <= limit
            <==> Exposed(m, s.account, s.orders) <= limit
  {
    hide Run, OrderOk, SubmitsAt, OpenAtPrices, BooksAtPrices, Process, Exposed, Size, SameKeys, UniqueKeys, Opens,
         HasBook;
    ReachedAtPrices(start, takerGateEnabled, ops, price);
    var s := Run(Initial(DefaultAccountState(start), takerGateEnabled), ops);
    DefaultKeysAreUnique(s.account.positionBooks);
    forall i | 0 <= i < |s.orders| && s.orders[i].IsOpen()
      ensures HasBook(s.account.positionBooks, s.orders[i].intent.symbol, s.orders[i].intent.bookSide)
    {
      QuotedSymbol(s.orders[i]);
      DefaultKeysHaveBooks(s.account.positionBooks, s.orders[i].intent.symbol, s.orders[i].intent.bookSide);
    }
    OpeningCrowdFitsIff(m, s, t1, t2, price, limit);
  }

  lemma QuotedSymbol(o: PaperOrder)
    requires OrderOk(o)
    ensures o.intent.symbol == BTCUSDC || o.intent.symbol == ETHUSDC
  {
  }
}
