/** End to end: exactly which orders a flat default account lets in, for how long, and what the
    gate does not see. */
module Admission {
  import opened Schemas
  import opened Accounting
  import opened BookLaws
  import opened Sums
  import opened Exposure
  import opened Pricing
  import opened Risk
  import opened ExchangeModel
  import opened OrderState
  import opened Lifecycle
  import opened ExposureSafety
  import opened CrowdedExposure
  import Rejections
  import Settlement

  // ---------------------------------------------------------------- the default account's records

  lemma {:induction false} MetadataIsClean(metadata: seq<SymbolMetadata>, now: Time)
    ensures MetadataErrors(metadata, now) == [] <==> forall m :: m in metadata ==> m.ValidationErrors(now) == []
  {
    hide SymbolMetadata.ValidationErrors;
    if metadata != [] {
      var n := |metadata| - 1;
      MetadataIsClean(metadata[..n], now);
      assert metadata == metadata[..n] + [metadata[n]];
    }
  }

  lemma {:induction false} FeesAreClean(policies: seq<FeePolicy>, now: Time)
    ensures FeeErrors(policies, now) == [] <==> forall p :: p in policies ==> p.ValidationErrors(now) == []
  {
    hide FeePolicy.ValidationErrors;
    if policies != [] {
      var n := |policies| - 1;
      FeesAreClean(policies[..n], now);
      assert policies == policies[..n] + [policies[n]];
    }
  }

  ghost predicate BothBooks(books: seq<PositionBook>, symbol: Symbol) {
    HasBook(books, symbol, Long) && HasBook(books, symbol, Short)
  }

  lemma NoneMissing(books: seq<PositionBook>, symbol: Symbol)
    ensures MissingBooks(books, symbol) == [] <==> BothBooks(books, symbol)
  {
  }

  lemma {:induction false} AllThere(symbols: seq<Symbol>, books: seq<PositionBook>)
    ensures AllMissingBooks(symbols, books) == [] <==> forall symbol :: symbol in symbols ==> BothBooks(books, symbol)
  {
    hide MissingBooks, BothBooks;
    if symbols != [] {
      var n := |symbols| - 1;
      AllThere(symbols[..n], books);
      NoneMissing(books, symbols[n]);
      assert symbols == symbols[..n] + [symbols[n]];
    }
  }

  /** The hedge check passes exactly when every executable instrument has both its books. */
  lemma HedgeIsClean(metadata: seq<SymbolMetadata>, books: seq<PositionBook>)
    ensures HedgeErrors(metadata, books) == []
            <==> forall m :: m in metadata && m.IsExecutable() ==> BothBooks(books, m.symbol)
  {
    hide ExecutableSymbols, BothBooks, AllMissingBooks;
    AllThere(ExecutableSymbols(metadata), books);
    forall symbol ensures symbol in ExecutableSymbols(metadata)
      <==> exists m :: m in metadata && m.IsExecutable() && m.symbol == symbol
    {
      Rejections.ExecutableSymbolsAre(metadata, symbol);
    }
  }

  predicate Fresh(start: Time, now: Time) {
    now - start <= 300_000_000
  }

  lemma FreshnessIs(start: Time, now: Time, about: Label)
    ensures FreshAt(start).ValidationErrors(now, about) == [] <==> Fresh(start, now)
  {
  }

  lemma DefaultMetadataIsClean(start: Time, now: Time)
    ensures forall m :: m in DefaultSymbolMetadata(start) ==> (m.ValidationErrors(now) == [] <==> Fresh(start, now))
  {
    hide Freshness.ValidationErrors, Fresh, FreshAt;
    forall m | m in DefaultSymbolMetadata(start) ensures m.ValidationErrors(now) == [] <==> Fresh(start, now) {
      FreshnessIs(start, now, SymbolLabel(m.symbol));
      if m.IsExecutable() { FiltersAreClean(m.symbol); }
    }
  }

  lemma FiltersAreClean(symbol: Symbol)
    requires symbol == BTCUSDC || symbol == ETHUSDC
    ensures FiltersFor(symbol).ValidationErrors() == []
  {
    assert "LIMIT" in ["LIMIT"] && GTX in [GTC, GTX];
  }

  lemma DefaultFeesAreClean(start: Time, now: Time)
    ensures forall p :: p in DefaultFeePolicies(start) ==> (p.ValidationErrors(now) == [] <==> Fresh(start, now))
  {
    hide Freshness.ValidationErrors, Fresh, FreshAt;
    forall p | p in DefaultFeePolicies(start) ensures p.ValidationErrors(now) == [] <==> Fresh(start, now) {
      FreshnessIs(start, now, FeeLabel(p.symbol));
    }
  }

  lemma DefaultBooksAreThere(symbol: Symbol, side: BookSide)
    ensures HasBook(DefaultPositionBooks(), symbol, side) <==> symbol == BTCUSDC || symbol == ETHUSDC
  {
    if symbol == BTCUSDC || symbol == ETHUSDC {
      assert FlatBook(symbol, side) in DefaultPositionBooks();
    }
  }

  /** A default account but for what trading and its operator change: books, collateral and fee rates. */
  predicate Standard(a: AccountState, start: Time) {
    a == DefaultAccountState(start).(positionBooks := a.positionBooks, collateralAssets := a.collateralAssets,
                                     feePolicies := a.feePolicies)
  }

  ghost predicate FeesStayClean(policies: seq<FeePolicy>, start: Time, now: Time) {
    forall p :: p in policies && Fresh(start, now) ==> p.ValidationErrors(now) == []
  }

  ghost predicate Hedged(books: seq<PositionBook>) {
    BothBooks(books, BTCUSDC) && BothBooks(books, ETHUSDC)
  }

  /** A default account, whatever its hedge books hold, is in order exactly for the first 300
      seconds after it was made; nothing refreshes it but a reset or a flatten. */
  lemma AccountGoesStale(a: AccountState, start: Time, now: Time)
    requires Standard(a, start) && Hedged(a.positionBooks) && FeesStayClean(a.feePolicies, start, now)
    ensures AccountErrors(a, now) == [] <==> Fresh(start, now)
  {
    hide MetadataErrors, FeeErrors, HedgeErrors, Freshness.ValidationErrors, SymbolMetadata.ValidationErrors,
         FeePolicy.ValidationErrors, FreshAt, Fresh, BothBooks;
    MetadataIsClean(a.symbolMetadata, now);
    FeesAreClean(a.feePolicies, now);
    HedgeIsClean(a.symbolMetadata, a.positionBooks);
    DefaultMetadataIsClean(start, now);
    FreshnessIs(start, now, AccountLabel);
  }

  // ---------------------------------------------------------------- admission is preview and gate

  lemma AdmitsIs(s: ExchangeState, intent: PaperOrderIntent, now: Time)
    ensures Admits(s, intent, now) <==>
      && PreviewOrder(s, intent, now).accepted
      && EvaluatePaperOrderRisk(s.account, intent, PreviewOrder(s, intent, now), PreviewQuote(intent.symbol, now),
                                DEFAULT_LIMITS, s.riskState, now).accepted
  {
    hide InstrumentReasons, FeeReasons, QuoteReasons, MakerFirstReasons, CalculateExpectedEdge;
    hide AccountErrors, StateReasons, MarketReasons, ExposureReasons, MissingBooks;
  }

  /** In every run, an order is admitted only while the account's last renewal is recent enough:
      fills do not refresh the account. */
  lemma AdmissionNeedsARecentRenewal(
    account: AccountState, takerGateEnabled: bool, ops: seq<Operation>, intent: PaperOrderIntent, now: Time)
    requires Admits(Run(Initial(account, takerGateEnabled), ops), intent, now)
    ensures !Settlement.HistoryOf(account, takerGateEnabled, ops).base.freshness.IsStale(now)
  {
    hide Run, Settlement.HistoryOf, Settlement.FillsOk, OrdersOk, Vetoes;
    Settlement.AccountIsReplayable(account, takerGateEnabled, ops);
    var s := Run(Initial(account, takerGateEnabled), ops);
    var h := Settlement.HistoryOf(account, takerGateEnabled, ops);
    FillsKeepTheRest(h.base, h.fills[h.mark..]);
    AdmitsIs(s, intent, now);
    StaleAccountIsRefused(s.account, intent, PreviewOrder(s, intent, now), PreviewQuote(intent.symbol, now),
                          s.riskState, now);
  }

  lemma StaleAccountIsRefused(
    a: AccountState, intent: PaperOrderIntent, preview: PaperOrderPreview, quote: PaperMarketQuote,
    state: PaperRiskState, now: Time)
    requires EvaluatePaperOrderRisk(a, intent, preview, quote, DEFAULT_LIMITS, state, now).accepted
    ensures !a.freshness.IsStale(now)
  {
    hide StateReasons, MarketReasons, ExposureReasons, MissingBooks, MetadataErrors, FeeErrors, HedgeErrors;
    assert AccountErrors(a, now) == [];
  }

  // ---------------------------------------------------------------- the flat default account

  function TickOf(symbol: Symbol): real { if symbol == BTCUSDC then 0.1 else 0.01 }
  function MinNotionalOf(symbol: Symbol): real { if symbol == BTCUSDC then 50.0 else 20.0 }

  /** What a preview asks of an order on an account with the default records. */
  predicate Previewable(intent: PaperOrderIntent, takerGateEnabled: bool, now: Time) {
    && (intent.symbol == BTCUSDC || intent.symbol == ETHUSDC)
    && intent.quantity > 0.0 && intent.limitPrice > 0.0
    && IsMultiple(intent.quantity, 0.001) && IsMultiple(intent.limitPrice, TickOf(intent.symbol))
    && MinNotionalOf(intent.symbol) <= intent.Notional()
    && intent.timeInForce == GTX && intent.postOnly && (intent.allowTaker ==> takerGateEnabled)
    && (if intent.symbol == BTCUSDC
        then if intent.side == Buy then intent.limitPrice < 65000.5 else intent.limitPrice > 65000.0
        else if intent.side == Buy then intent.limitPrice < 3200.05 else intent.limitPrice > 3200.0)
    && intent.expectedAlphaBps >
         (if intent.allowTaker then 5.0 else 1.0) + intent.slippageBps
         + (if intent.symbol == BTCUSDC then 0.8 else 0.6) + intent.adverseSelectionBps
  }

  /** What a flat default account asks of an order; the leg-imbalance limit is the one that binds. */
  predicate Acceptable(intent: PaperOrderIntent, takerGateEnabled: bool, now: Time) {
    Previewable(intent, takerGateEnabled, now) && intent.Notional() <= 25000.0
  }

  lemma DefaultRecords(start: Time, symbol: Symbol)
    requires symbol == BTCUSDC || symbol == ETHUSDC
    ensures MetadataFor(DefaultSymbolMetadata(start), symbol) == Some(ExecutableMetadata(symbol, start))
    ensures FeeFor(DefaultFeePolicies(start), symbol) == Some(FeePolicy(symbol, 0.0001, 0.0004, FreshAt(start), None))
  {
    var metadata, policies := DefaultSymbolMetadata(start), DefaultFeePolicies(start);
    assert metadata[1..][0] == metadata[1] && policies[1..][0] == policies[1];
  }

  lemma StandardPreview(s: ExchangeState, start: Time, intent: PaperOrderIntent, now: Time)
    requires Standard(s.account, start) && s.account.feePolicies == DefaultFeePolicies(start)
    requires !s.halted && Fresh(start, now)
    ensures PreviewOrder(s, intent, now).accepted <==> Previewable(intent, s.takerGateEnabled, now)
  {
    hide IsMultiple, Fresh, SymbolMetadata.ValidationErrors, FeePolicy.ValidationErrors, Freshness.ValidationErrors;
    PreviewAccepts(s.account, s.halted, s.takerGateEnabled, intent, now);
    if intent.symbol == BTCUSDC || intent.symbol == ETHUSDC {
      DefaultRecords(start, intent.symbol);
      DefaultMetadataIsClean(start, now);
      DefaultFeesAreClean(start, now);
      assert ExecutableMetadata(intent.symbol, start) in DefaultSymbolMetadata(start);
      assert FeePolicy(intent.symbol, 0.0001, 0.0004, FreshAt(start), None) in DefaultFeePolicies(start);
    }
  }

  lemma BuiltInQuoteIsCalm(symbol: Symbol, now: Time)
    requires symbol == BTCUSDC || symbol == ETHUSDC
    ensures var quote := PreviewQuote(symbol, now);
            && quote.SpreadBps() <= 25.0 && 0.0 <= quote.fundingRateBps <= 50.0
            && quote.shortHorizonVolatilityBps <= 150.0
            && quote.freshness.ValidationErrors(now, QuoteLabel(symbol)) == []
  {
    FreshnessIs(now, now, QuoteLabel(symbol));
    var quote := PreviewQuote(symbol, now);
    DivMul(quote.Spread(), quote.MidPrice());
    if symbol == BTCUSDC {
      assert quote.MidPrice() == 65000.25 && quote.Spread() == 0.5;
    } else {
      assert quote.MidPrice() == 3200.025 && quote.Spread() == 0.05;
    }
  }

  lemma FlatExposureAdmits(start: Time, notional: real, symbol: Symbol)
    requires notional > 0.0
    ensures ExposureAdmits(DefaultAccountState(start), notional, symbol, DEFAULT_LIMITS) <==> notional <= 25000.0
  {
    hide Size;
    forall m: Measure ensures Size(m, DefaultPositionBooks()) == 0.0 {
      DefaultBooksCarryNothing(m, BTCUSDC, Long, 0.0);
    }
    assert Collateral(DefaultAccountState(start)) == 100000.0;
  }

  /** From a flat default account an order is admitted exactly when the account is fresh and the
      order is acceptable.  Open orders play no part. */
  lemma FlatAdmission(s: ExchangeState, start: Time, intent: PaperOrderIntent, now: Time)
    requires s.account == DefaultAccountState(start) && !s.halted && s.riskState == CALM
    ensures Admits(s, intent, now) <==> Fresh(start, now) && Acceptable(intent, s.takerGateEnabled, now)
  {
    hide Previewable, Fresh, ExposureAdmits, Hedged, PreviewOrder, Vetoes, FeesStayClean;
    DefaultIsStandard(start, now);
    StandardAdmission(s, start, intent, now);
    if Fresh(start, now) {
      StandardPreview(s, start, intent, now);
    }
    PreviewFacts(s, intent, now);
    if intent.Notional() > 0.0 { FlatExposureAdmits(start, intent.Notional(), intent.symbol); }
  }

  lemma DefaultIsStandard(start: Time, now: Time)
    ensures var a := DefaultAccountState(start);
            && Standard(a, start) && Hedged(a.positionBooks) && FeesStayClean(a.feePolicies, start, now)
            && a.feePolicies == DefaultFeePolicies(start)
  {
    hide FeePolicy.ValidationErrors, Fresh, HasBook;
    DefaultFeesAreClean(start, now);
    DefaultBooksAreThere(BTCUSDC, Long);
    DefaultBooksAreThere(BTCUSDC, Short);
    DefaultBooksAreThere(ETHUSDC, Long);
    DefaultBooksAreThere(ETHUSDC, Short);
  }

  /** From any standard account, trading and unhalted: an order is admitted exactly when it previews well,
      the account is fresh, and the exposures have room for it. */
  lemma StandardAdmission(s: ExchangeState, start: Time, intent: PaperOrderIntent, now: Time)
    requires Standard(s.account, start) && Hedged(s.account.positionBooks)
    requires FeesStayClean(s.account.feePolicies, start, now) && s.riskState == CALM
    ensures Admits(s, intent, now) <==>
      && PreviewOrder(s, intent, now).accepted && Fresh(start, now)
      && ExposureAdmits(s.account, intent.Notional(), intent.symbol, DEFAULT_LIMITS)
  {
    hide Fresh, ExposureAdmits, EvaluatePaperOrderRisk, PreviewOrder, AccountErrors, Vetoes, FeesStayClean, HasBook,
         PreviewQuote;
    AdmitsIs(s, intent, now);
    PreviewFacts(s, intent, now);
    if PreviewOrder(s, intent, now).accepted {
      RiskAccepts(s.account, intent, PreviewOrder(s, intent, now), PreviewQuote(intent.symbol, now), DEFAULT_LIMITS,
                  CALM, now);
      AccountGoesStale(s.account, start, now);
      BuiltInQuoteIsCalm(intent.symbol, now);
    }
  }

  /** Admission in numbers: on default records, with any positions and collateral, an order is admitted exactly when it
      previews well, the account is at most 300 seconds old, and with its notional added symbol exposure is at most
      50000, sector 75000, beta 60000 and leg imbalance 25000 in absolute value, gross 100000, and gross at most
      three times a positive wallet. */
  lemma AdmissionInNumbers(s: ExchangeState, start: Time, intent: PaperOrderIntent, now: Time)
    requires Standard(s.account, start) && Hedged(s.account.positionBooks)
    requires FeesStayClean(s.account.feePolicies, start, now) && s.riskState == CALM
    ensures Admits(s, intent, now) <==>
      && PreviewOrder(s, intent, now).accepted && now - start <= 300_000_000
      && FitsDefaultLimits(s.account, intent.quantity * intent.limitPrice, intent.symbol)
  {
    hide ExposureAdmits, FitsDefaultLimits, PreviewOrder, FeesStayClean, HasBook, Admits, Standard;
    StandardAdmission(s, start, intent, now);
    DefaultLimitsInNumbers(s.account, intent.Notional(), intent.symbol);
    assert intent.Notional() == intent.quantity * intent.limitPrice;
  }

  /** At the default fee rates the preview is in numbers too: this is the whole of admission in every run from the
      default account that is not halted. */
  lemma DefaultAdmissionInNumbers(s: ExchangeState, start: Time, intent: PaperOrderIntent, now: Time)
    requires Standard(s.account, start) && s.account.feePolicies == DefaultFeePolicies(start)
    requires Hedged(s.account.positionBooks) && !s.halted && s.riskState == CALM
    ensures Admits(s, intent, now) <==>
      && now - start <= 300_000_000 && Previewable(intent, s.takerGateEnabled, now)
      && FitsDefaultLimits(s.account, intent.quantity * intent.limitPrice, intent.symbol)
  {
    hide FitsDefaultLimits, PreviewOrder, HasBook, Admits, Standard, Previewable, FeePolicy.ValidationErrors;
    DefaultFeesAreClean(start, now);
    AdmissionInNumbers(s, start, intent, now);
    if Fresh(start, now) { StandardPreview(s, start, intent, now); }
  }

  lemma PreviewFacts(s: ExchangeState, intent: PaperOrderIntent, now: Time)
    ensures PreviewOrder(s, intent, now).accepted ==>
              && (intent.symbol == BTCUSDC || intent.symbol == ETHUSDC) && intent.Notional() > 0.0
              && PreviewOrder(s, intent, now).expectedEdge.afterCosts > 0.0
  {
    PreviewAccepts(s.account, s.halted, s.takerGateEnabled, intent, now);
    if PreviewOrder(s, intent, now).accepted {
      assert intent.quantity > 0.0 && intent.limitPrice > 0.0;
      ProductPositive(intent.quantity, intent.limitPrice);
      EdgeIsScaleFree(intent, PreviewFee(s.account, intent.symbol, now), PreviewQuote(intent.symbol, now));
    }
  }

  lemma ProductPositive(x: real, y: real)
    requires x > 0.0 && y > 0.0
    ensures x * y > 0.0
  {
  }

  // ---------------------------------------------------------------- the default account in numbers

  /** What a renewal reports: nothing held, no hedge, and the whole wallet as a buffer. */
  lemma RenewedReport(start: Time)
    ensures var a := DefaultAccountState(start);
            var e := CalculatePortfolioExposure(a);
            && e == PortfolioExposure(0.0, 0.0, 0.0, 0.0, 0.0, 100000.0, 0.0, 0.0, 0.0, 0.0, 0.0, 100000.0)
            && a.unrealizedPnl == 0.0 && a.positionMode == Hedge && !a.portfolioMarginEnabled
            && forall b :: b in a.positionBooks ==>
                 b.quantity == 0.0 && b.entryPrice == 0.0 && b.markPrice == 0.0 && b.notional == 0.0
                 && b.unrealizedPnl == 0.0
  {
    hide Total;
    forall m: Measure ensures Total(m, DefaultPositionBooks()) == 0.0 {
      FlatTotal(m);
    }
  }

  lemma FlatTotal(m: Measure)
    ensures Total(m, DefaultPositionBooks()) == 0.0
  {
    SumOfZeros(Figures(m, DefaultPositionBooks()));
  }

  /** Only BTCUSDC and ETHUSDC trade; the synthetic is derived, the reference only quoted.  Order sizes run from
      0.001 to 1000 bitcoin or 10000 ether. */
  lemma DefaultUniverse(start: Time, symbol: Symbol)
    ensures var found := MetadataFor(DefaultSymbolMetadata(start), symbol);
            match symbol
            case BTCUSDC => found.Some? && found.value.role == Executable && found.value.filters.Some?
                            && found.value.filters.value
                               == SymbolFilters(0.1, 0.001, 0.001, 1000.0, 50.0, ["LIMIT"], [GTC, GTX])
            case ETHUSDC => found.Some? && found.value.role == Executable && found.value.filters.Some?
                            && found.value.filters.value
                               == SymbolFilters(0.01, 0.001, 0.001, 10000.0, 20.0, ["LIMIT"], [GTC, GTX])
            case SYN_ETHBTC => found.Some? && found.value.role == Derived && found.value.filters.None?
            case ETHBTC => found.Some? && found.value.role == Reference && found.value.filters.None?
            case Unlisted(_) => found.None?
  {
    var metadata := DefaultSymbolMetadata(start);
    var third, fourth := metadata[2..], metadata[3..];
    assert metadata[1..][1..] == third && third[1..] == fourth && fourth[1..] == [];
    assert MetadataFor([], symbol) == None;
    assert MetadataFor(fourth, symbol) == if symbol == ETHBTC then Some(metadata[3]) else None;
    assert MetadataFor(third, symbol)
           == if symbol == SYN_ETHBTC then Some(metadata[2]) else MetadataFor(fourth, symbol);
  }

  // ---------------------------------------------------------------- what the gate does not see

  /** 0.3 BTC bought one tick above the touch: 19500.03 of notional. */
  const LARGE_ORDER := PaperOrderIntent(
    BTCUSDC, Buy, Long, 0.3, 65000.1, GTX, Limit, true, false, false, 8.0, 0.5, 1.0, "")

  lemma LargeOrderIsAcceptable()
    ensures Acceptable(LARGE_ORDER, false, 0) && Fresh(0, 0)
  {
    assert 0.3 / 0.001 == 300.0 && 65000.1 / 0.1 == 650001.0;
    assert LARGE_ORDER.Notional() == 19500.03;
  }

  predicate FillsLargeOrder(f: PaperFill) {
    f.symbol == BTCUSDC && f.side == Buy && f.bookSide == Long && f.quantity == 0.3 && f.price == 65000.1
  }

  lemma LargeBookUpdate(b: PositionBook, f: PaperFill)
    requires FillsLargeOrder(f) && b.quantity >= 0.0
    ensures var c := UpdatedBook(b, f);
            if b.symbol == BTCUSDC && b.side == Long
            then c.symbol == BTCUSDC && c.side == Long && c.quantity == b.quantity + 0.3
                 && c.notional == (b.quantity + 0.3) * 65000.1
            else c == b
  {
  }

  lemma TwoLargeFills(f: PaperFill, g: PaperFill)
    requires FillsLargeOrder(f) && FillsLargeOrder(g)
    ensures Size(Net, UpdatedBooks(UpdatedBooks(DefaultPositionBooks(), f), g)) == 39000.06
  {
    hide UpdatedBook;
    var start := DefaultPositionBooks();
    var once := UpdatedBooks(start, f);
    var twice := UpdatedBooks(once, g);
    forall i | 0 <= i < 4
      ensures if i == 0 then twice[i].notional == 39000.06 && twice[i].side == Long else twice[i] == start[i]
    {
      LargeBookUpdate(start[i], f);
      LargeBookUpdate(once[i], g);
    }
    SumOfOne(Figures(Net, twice), 0);
  }

  lemma LargeVisit(o: PaperOrder, policies: seq<FeePolicy>, fillId: nat, eventId: nat)
    requires OrderOk(o) && o.status == New && o.intent == LARGE_ORDER
    ensures var v := Visit(o, policies, fillId, eventId, 0);
            |v.orders| == |v.fills| == |v.events| == 1 && FillsLargeOrder(v.fills[0])
  {
    VisitIs(o, policies, fillId, eventId, 0);
  }

  lemma LargePass(orders: seq<PaperOrder>, policies: seq<FeePolicy>, eventBase: nat)
    requires |orders| == 2 && forall o :: o in orders ==> OrderOk(o) && o.status == New && o.intent == LARGE_ORDER
    ensures var fills := VisitUpTo(orders, 2, policies, 0, eventBase, 0).fills;
            |fills| == 2 && FillsLargeOrder(fills[0]) && FillsLargeOrder(fills[1])
  {
    hide Visit, OrderOk, FillsLargeOrder;
    assert orders[0] in orders && orders[1] in orders;
    LargeVisit(orders[0], policies, 1, eventBase + 1);
    LargeVisit(orders[1], policies, 2, eventBase + 2);
    assert VisitUpTo(orders, 0, policies, 0, eventBase, 0) == Pass([], [], []);
    var one := VisitUpTo(orders, 1, policies, 0, eventBase, 0);
    assert |one.fills| == 1 && |one.events| == 1;
  }

  lemma TwoFillsApplied(a: AccountState, fills: seq<PaperFill>)
    requires |fills| == 2
    ensures ApplyFills(a, fills).positionBooks == UpdatedBooks(UpdatedBooks(a.positionBooks, fills[0]), fills[1])
  {
    assert fills[..1] == [fills[0]] && fills[..1][..0] == [];
    assert ApplyFills(a, fills[..1][..0]) == a;
    assert ApplyFills(a, fills[..1]) == ApplyPaperFill(a, fills[0]);
  }

  /** Why runs are held to one open order at a time: two orders, each admitted from the flat
      account because the gate does not count the other, fill to a leg imbalance beyond the limit. */
  lemma RestingOrdersTogetherExceed()
    ensures var s0 := Initial(DefaultAccountState(0), false);
            var s1 := Submit(s0, LARGE_ORDER, 0);
            var s2 := Submit(s1, LARGE_ORDER, 0);
            && Admits(s0, LARGE_ORDER, 0) && Admits(s1, LARGE_ORDER, 0)
            && Size(Net, Process(s2, 0).account.positionBooks) == 39000.06 > LimitOf(Net, DEFAULT_LIMITS)
  {
    hide Vetoes, Acceptable, Fresh, OrderOk, UpdatedBook, Visit, VisitUpTo, ApplyFills, DefaultAccountState, Size,
         FillsLargeOrder;
    var s0 := Initial(DefaultAccountState(0), false);
    var s1 := Submit(s0, LARGE_ORDER, 0);
    var s2 := Submit(s1, LARGE_ORDER, 0);
    LargeOrderIsAcceptable();
    FlatAdmission(s0, 0, LARGE_ORDER, 0);
    FlatAdmission(s1, 0, LARGE_ORDER, 0);
    NoOrdersAreOk();
    SubmitKeepsOrders(s0, LARGE_ORDER, 0);
    SubmitKeepsOrders(s1, LARGE_ORDER, 0);
    NewOrderCounts(s2.orders);
    LargePass(s2.orders, s2.account.feePolicies, |s2.events|);
    var fills := PassOf(s2, 0).fills;
    TwoFillsApplied(s2.account, fills);
    DefaultBooksOf(0);
    TwoLargeFills(fills[0], fills[1]);
  }

  lemma NewOrderCounts(orders: seq<PaperOrder>)
    requires |orders| == 2 && forall o :: o in orders ==> o.fills == []
    ensures TotalFills(orders) == 0
  {
    assert orders[0] in orders && orders[1] in orders;
    assert FillsUpTo(orders, 0) == 0 && FillsUpTo(orders, 1) == 0;
  }
}
