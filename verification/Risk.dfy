/** The independent risk gate every accepted preview passes through (services/risk/paper.py). */
module Risk {
  import opened Schemas
  import opened Accounting
  import opened Exposure
  import opened Pricing
  import opened BookLaws

  datatype RiskLimits = RiskLimits(
    maxAccountLeverage: real, maxSymbolExposure: real, maxSectorExposure: real, maxCorrelatedExposure: real,
    maxBetaExposure: real, maxLegImbalance: real, maxPortfolioGrossExposure: real,
    minLiquidationDistanceRatio: real, maxDailyLoss: real, maxDrawdown: real, maxAbnormalSpreadBps: real,
    maxFundingRateBps: real, maxShortHorizonVolatilityBps: real, maxOrdersPerMinute: int)

  const DEFAULT_LIMITS := RiskLimits(
    3.0, 50000.0, 75000.0, 60000.0, 60000.0, 25000.0, 100000.0, 0.25, 1000.0, 1500.0, 25.0, 50.0, 150.0, 10)

  datatype PaperRiskState = PaperRiskState(
    dailyLoss: real, drawdown: real, openOrderCountLastMinute: int, apiErrorActive: bool, panicHaltActive: bool)

  const CALM := PaperRiskState(0.0, 0.0, 0, false, false)

  datatype PaperRiskResult = PaperRiskResult(accepted: bool, reasons: seq<Reason>, limits: RiskLimits)

  function StateReasons(limits: RiskLimits, state: PaperRiskState): seq<Reason> {
    When(state.panicHaltActive, PanicHaltActive)
    + When(state.apiErrorActive, ApiErrorActive)
    + When(state.dailyLoss >= limits.maxDailyLoss, DailyLossReached)
    + When(state.drawdown >= limits.maxDrawdown, DrawdownReached)
    + When(state.openOrderCountLastMinute >= limits.maxOrdersPerMinute, OrderSpam)
  }

  function MarketReasons(a: AccountState, preview: PaperOrderPreview, quote: PaperMarketQuote, limits: RiskLimits)
    : seq<Reason>
  {
    When(preview.expectedEdge.afterCosts <= 0.0, EdgeNotPositive)
    + When(quote.SpreadBps() > limits.maxAbnormalSpreadBps, AbnormalSpread)
    + When(Abs(quote.fundingRateBps) > limits.maxFundingRateBps, FundingSpike)
    + When(quote.shortHorizonVolatilityBps > limits.maxShortHorizonVolatilityBps, VolatilityHalt)
    + When(a.liquidationDistanceRatio < limits.minLiquidationDistanceRatio, LiquidationBelowMinimum)
  }

  function LeverageReasons(gross: real, collateral: real, maxLeverage: real): seq<Reason> {
    if collateral <= 0.0 then [CollateralUnavailable] else When(gross / collateral > maxLeverage, LeverageLimit)
  }

  /** Current exposure plus the whole order's notional, against each limit.  Open orders are
      not counted, and neither is the re-marking a fill brings. */
  function ExposureReasons(a: AccountState, notional: real, symbol: Symbol, limits: RiskLimits): seq<Reason> {
    var e := CalculatePortfolioExposure(a);
    When(Total(InSymbol(symbol), a.positionBooks) + notional > limits.maxSymbolExposure, SymbolLimit)
    + When(e.sectorExposure + notional > limits.maxSectorExposure, SectorLimit)
    + When(e.correlatedExposure + notional > limits.maxCorrelatedExposure, CorrelatedLimit)
    + When(Abs(e.betaExposure) + notional > limits.maxBetaExposure, BetaLimit)
    + When(e.legImbalance + notional > limits.maxLegImbalance, LegLimit)
    + When(e.grossExposure + notional > limits.maxPortfolioGrossExposure, GrossLimit)
    + LeverageReasons(e.grossExposure + notional, Collateral(a), limits.maxAccountLeverage)
  }

  function EvaluatePaperOrderRisk(
    a: AccountState, intent: PaperOrderIntent, preview: PaperOrderPreview, quote: PaperMarketQuote,
    limits: RiskLimits, state: PaperRiskState, now: Time): PaperRiskResult
  {
    var reasons :=
      AccountErrors(a, now)
      + quote.freshness.ValidationErrors(now, QuoteLabel(intent.symbol))
      + StateReasons(limits, state)
      + MarketReasons(a, preview, quote, limits)
      + ExposureReasons(a, intent.Notional(), intent.symbol, limits)
      + MissingBooks(a.positionBooks, intent.symbol);
    PaperRiskResult(reasons == [], reasons, limits)
  }

  /** The gate as the source runs it: the account's loops first, then condition after condition. */
  method JudgeOrder(
    a: AccountState, intent: PaperOrderIntent, preview: PaperOrderPreview, quote: PaperMarketQuote,
    limits: RiskLimits, state: PaperRiskState, now: Time) returns (result: PaperRiskResult)
    ensures result == EvaluatePaperOrderRisk(a, intent, preview, quote, limits, state, now)
  {
    hide AccountErrors, StateReasons, MarketReasons, ExposureReasons, MissingBooks, Freshness.ValidationErrors;
    var reasons := ValidateAccount(a, now);
    reasons := reasons + quote.freshness.ValidationErrors(now, QuoteLabel(intent.symbol));
    reasons := reasons + StateReasons(limits, state);
    reasons := reasons + MarketReasons(a, preview, quote, limits);
    reasons := reasons + ExposureReasons(a, intent.Notional(), intent.symbol, limits);
    reasons := reasons + MissingBooks(a.positionBooks, intent.symbol);
    result := PaperRiskResult(reasons == [], reasons, limits);
  }

  // ---------------------------------------------------------------- what acceptance guarantees

  /** Long and short exposure are only reported; the other measures have limits. */
  predicate Limited(m: Measure) {
    !m.LongSide? && !m.ShortSide?
  }

  /** The gate looks at this measure when it judges an order on `symbol`. */
  predicate Concerns(m: Measure, symbol: Symbol) {
    Limited(m) && (m.InSymbol? ==> m.symbol == symbol)
  }

  /** Each limited measure with its limit; correlated exposure is absolute beta exposure. */
  function LimitOf(m: Measure, limits: RiskLimits): real {
    match m
    case InSymbol(_) => limits.maxSymbolExposure
    case Sector => limits.maxSectorExposure
    case Beta => Min(limits.maxBetaExposure, limits.maxCorrelatedExposure)
    case Net => limits.maxLegImbalance
    case _ => limits.maxPortfolioGrossExposure
  }

  /** What the gate compares with the limit: the absolute value of a signed sum, the others as they are. */
  function SizeOf(m: Measure, total: real): real {
    if m.Net? || m.Beta? then Abs(total) else total
  }

  function Size(m: Measure, books: seq<PositionBook>): real {
    SizeOf(m, Total(m, books))
  }

  /** The report's fields are the sizes of the measures, whatever the books hold. */
  lemma ReportShowsSizes(a: AccountState)
    ensures var e := CalculatePortfolioExposure(a);
            var books := a.positionBooks;
            && e.grossExposure == Size(Gross, books) && e.legImbalance == Size(Net, books)
            && e.sectorExposure == Size(Sector, books)
            && e.correlatedExposure == Size(Beta, books) == Abs(e.betaExposure)
  {
    SidesMakeGrossAndNet(a.positionBooks);
  }

  /** The exposure part of the gate, in terms of sizes. */
  predicate ExposureAdmits(a: AccountState, notional: real, symbol: Symbol, limits: RiskLimits) {
    var books := a.positionBooks;
    && Size(InSymbol(symbol), books) + notional <= limits.maxSymbolExposure
    && Size(Sector, books) + notional <= limits.maxSectorExposure
    && Size(Beta, books) + notional <= limits.maxCorrelatedExposure
    && Size(Beta, books) + notional <= limits.maxBetaExposure
    && Size(Net, books) + notional <= limits.maxLegImbalance
    && Size(Gross, books) + notional <= limits.maxPortfolioGrossExposure
    && Collateral(a) > 0.0
    && (Size(Gross, books) + notional) / Collateral(a) <= limits.maxAccountLeverage
  }

  lemma ExposureAccepts(a: AccountState, notional: real, symbol: Symbol, limits: RiskLimits)
    ensures ExposureReasons(a, notional, symbol, limits) == [] <==> ExposureAdmits(a, notional, symbol, limits)
  {
    hide Total;
    ReportShowsSizes(a);
  }

  /** The gate accepts exactly when the account and quote are in order, no kill switch is on,
      every exposure and the leverage stay within limits with the whole order added, and both
      hedge books are there. */
  lemma RiskAccepts(
    a: AccountState, intent: PaperOrderIntent, preview: PaperOrderPreview, quote: PaperMarketQuote,
    limits: RiskLimits, state: PaperRiskState, now: Time)
    ensures EvaluatePaperOrderRisk(a, intent, preview, quote, limits, state, now).accepted <==>
      && AccountErrors(a, now) == []
      && quote.freshness.ValidationErrors(now, QuoteLabel(intent.symbol)) == []
      && !state.panicHaltActive && !state.apiErrorActive
      && state.dailyLoss < limits.maxDailyLoss && state.drawdown < limits.maxDrawdown
      && state.openOrderCountLastMinute < limits.maxOrdersPerMinute
      && preview.expectedEdge.afterCosts > 0.0
      && quote.SpreadBps() <= limits.maxAbnormalSpreadBps
      && -limits.maxFundingRateBps <= quote.fundingRateBps <= limits.maxFundingRateBps
      && quote.shortHorizonVolatilityBps <= limits.maxShortHorizonVolatilityBps
      && a.liquidationDistanceRatio >= limits.minLiquidationDistanceRatio
      && ExposureAdmits(a, intent.Notional(), intent.symbol, limits)
      && HasBook(a.positionBooks, intent.symbol, Long) && HasBook(a.positionBooks, intent.symbol, Short)
  {
    ExposureAccepts(a, intent.Notional(), intent.symbol, limits);
  }

  /** Exposure within the default limits once the notional is added, on the account's sums. */
  predicate FitsDefaultLimits(a: AccountState, notional: real, symbol: Symbol) {
    var books := a.positionBooks;
    && Total(InSymbol(symbol), books) + notional <= 50000.0
    && Total(Sector, books) + notional <= 75000.0
    && -60000.0 + notional <= Total(Beta, books) <= 60000.0 - notional
    && -25000.0 + notional <= Total(Net, books) <= 25000.0 - notional
    && Total(Gross, books) + notional <= 100000.0
    && a.collateralAssets != [] && a.collateralAssets[0].walletBalance > 0.0
    && Total(Gross, books) + notional <= 3.0 * a.collateralAssets[0].walletBalance
  }

  lemma LeverageInNumbers(x: real, c: real)
    requires c > 0.0
    ensures x / c <= 3.0 <==> x <= 3.0 * c
  {
    DivMul(x, c);
    if x / c <= 3.0 { RatioBound(x, c, 3.0); } else { LargerProduct(3.0, x / c, c); }
  }

  lemma LargerProduct(x: real, y: real, c: real)
    requires x < y && c > 0.0
    ensures x * c < y * c
  {
    assert (y - x) * c > 0.0;
  }

  lemma DefaultLimitsInNumbers(a: AccountState, notional: real, symbol: Symbol)
    ensures ExposureAdmits(a, notional, symbol, DEFAULT_LIMITS) <==> FitsDefaultLimits(a, notional, symbol)
  {
    hide Total;
    if Collateral(a) > 0.0 { LeverageInNumbers(Total(Gross, a.positionBooks) + notional, Collateral(a)); }
  }

  lemma SpreadInNumbers(quote: PaperMarketQuote)
    ensures quote.SpreadBps() <= 25.0 <==>
            quote.bestBid + quote.bestAsk <= 0.0
            || 20000.0 * (quote.bestAsk - quote.bestBid) <= 25.0 * (quote.bestBid + quote.bestAsk)
  {
    hide PaperMarketQuote.SpreadBps;
    SpreadInBps(quote);
    if quote.bestBid + quote.bestAsk > 0.0 {
      var sum, x := quote.bestBid + quote.bestAsk, quote.SpreadBps();
      if x <= 25.0 { SmallerProduct(x, 25.0, sum); } else { LargerProduct(25.0, x, sum); }
    }
  }

  /** The gate at its default limits, every threshold in numbers. */
  lemma GateInNumbers(
    a: AccountState, intent: PaperOrderIntent, preview: PaperOrderPreview, quote: PaperMarketQuote,
    state: PaperRiskState, now: Time)
    ensures EvaluatePaperOrderRisk(a, intent, preview, quote, DEFAULT_LIMITS, state, now).accepted <==>
      && AccountErrors(a, now) == []
      && quote.freshness.ValidationErrors(now, QuoteLabel(intent.symbol)) == []
      && !state.panicHaltActive && !state.apiErrorActive
      && state.dailyLoss < 1000.0 && state.drawdown < 1500.0 && state.openOrderCountLastMinute < 10
      && preview.expectedEdge.afterCosts > 0.0
      && (quote.bestBid + quote.bestAsk <= 0.0
          || 20000.0 * (quote.bestAsk - quote.bestBid) <= 25.0 * (quote.bestBid + quote.bestAsk))
      && -50.0 <= quote.fundingRateBps <= 50.0 && quote.shortHorizonVolatilityBps <= 150.0
      && a.liquidationDistanceRatio >= 0.25
      && FitsDefaultLimits(a, intent.quantity * intent.limitPrice, intent.symbol)
      && HasBook(a.positionBooks, intent.symbol, Long) && HasBook(a.positionBooks, intent.symbol, Short)
  {
    hide EvaluatePaperOrderRisk, AccountErrors, ExposureAdmits, FitsDefaultLimits, HasBook, PaperMarketQuote.SpreadBps,
         Freshness.ValidationErrors;
    RiskAccepts(a, intent, preview, quote, DEFAULT_LIMITS, state, now);
    DefaultLimitsInNumbers(a, intent.Notional(), intent.symbol);
    SpreadInNumbers(quote);
  }

  lemma AdmittedWithinLimit(a: AccountState, notional: real, symbol: Symbol, limits: RiskLimits, m: Measure)
    requires Concerns(m, symbol) && ExposureAdmits(a, notional, symbol, limits)
    ensures Size(m, a.positionBooks) + notional <= LimitOf(m, limits)
  {
    hide Size;
  }

  // ---------------------------------------------------------------- soundness up to drift

  /** The fill executes the intent, in part or in full, at its limit price. */
  predicate Executes(f: PaperFill, intent: PaperOrderIntent) {
    && f.symbol == intent.symbol && f.side == intent.side && f.bookSide == intent.bookSide
    && f.price == intent.limitPrice && 0.0 < f.quantity <= intent.quantity
  }

  lemma SmallerProduct(x: real, y: real, p: real)
    requires x <= y && p > 0.0
    ensures x * p <= y * p
  {
    ProductNonNegative(y - x, p);
  }

  lemma RatioBound(x: real, c: real, limit: real)
    requires c > 0.0 && x / c <= limit
    ensures x <= limit * c
  {
    DivMul(x, c);
    ProductNonNegative(limit - x / c, c);
    assert (limit - x / c) * c == limit * c - x;
  }

  lemma SizeFollowsTotal(m: Measure, was: real, becomes: real)
    ensures SizeOf(m, becomes) <= SizeOf(m, was) + Abs(becomes - was)
  {
  }

  /** On any books a fill lifts no figure by more than its notional `x` for each book it touches,
      plus their drift, and leaves the figures of other symbols alone. */
  lemma FillGrowth(m: Measure, books: seq<PositionBook>, f: PaperFill, x: real)
    requires f.quantity > 0.0 && f.price > 0.0 && x == f.quantity * f.price
    ensures Size(m, UpdatedBooks(books, f))
            <= Size(m, books) + Targets(books, f.symbol, f.bookSide) as real * x
               + Drift(books, f.symbol, f.bookSide, f.price)
    ensures m.InSymbol? && m.symbol != f.symbol ==> Size(m, UpdatedBooks(books, f)) == Size(m, books)
  {
    hide Total, Targets, Drift, UpdatedBooks;
    UpdateMovesAll(books, f);
    FillImpact(m, books, f, UpdatedBooks(books, f), x);
    SizeFollowsTotal(m, Total(m, books), Total(m, UpdatedBooks(books, f)));
  }

  /** With unique keys at most one book is touched. */
  lemma UniqueFillGrowth(m: Measure, books: seq<PositionBook>, f: PaperFill, x: real)
    requires UniqueKeys(books) && f.quantity > 0.0 && f.price > 0.0 && x == f.quantity * f.price
    ensures Size(m, UpdatedBooks(books, f)) <= Size(m, books) + x + Drift(books, f.symbol, f.bookSide, f.price)
    ensures m.InSymbol? && m.symbol != f.symbol ==> Size(m, UpdatedBooks(books, f)) == Size(m, books)
  {
    hide Size, Targets, Drift, UpdatedBooks;
    FillGrowth(m, books, f, x);
    OneTarget(books, f.symbol, f.bookSide);
    ProductNonNegative(f.quantity, f.price);
    AtMostOnce(Targets(books, f.symbol, f.bookSide), x);
  }

  lemma AtMostOnce(n: nat, x: real)
    requires n <= 1 && x >= 0.0
    ensures n as real * x <= x
  {
  }

  /** Filling part of an order on `n` books adds no more than the whole order and its notional
      again for every book beyond the first. */
  lemma PartOfWhole(n: nat, x: real, notional: real)
    requires n >= 1 && x <= notional
    ensures n as real * x <= notional + (n - 1) as real * notional
  {
    ProductNonNegative(n as real, notional - x);
    assert n as real * x == n as real * notional - n as real * (notional - x);
    assert n as real * notional == notional + (n - 1) as real * notional;
  }

  /** Risk soundness: when the gate accepts an order and any part of it then fills, every
      figure the gate looked at stays within its limit plus the drift of the books the fill
      re-marks, and the order's notional again for every book under the key beyond the first.
      Opening, reducing and over-closing fills are all covered, on any account. */
  lemma AcceptedFillStaysWithinDrift(
    a: AccountState, intent: PaperOrderIntent, preview: PaperOrderPreview, quote: PaperMarketQuote,
    limits: RiskLimits, state: PaperRiskState, now: Time, f: PaperFill, m: Measure)
    requires EvaluatePaperOrderRisk(a, intent, preview, quote, limits, state, now).accepted
    requires intent.limitPrice > 0.0 && Executes(f, intent) && Concerns(m, intent.symbol)
    ensures Targets(a.positionBooks, intent.symbol, intent.bookSide) >= 1
    ensures Size(m, ApplyPaperFill(a, f).positionBooks)
            <= LimitOf(m, limits) + Drift(a.positionBooks, intent.symbol, intent.bookSide, intent.limitPrice)
               + (Targets(a.positionBooks, intent.symbol, intent.bookSide) - 1) as real * intent.Notional()
  {
    hide EvaluatePaperOrderRisk, ExposureAdmits, Size, Targets, Drift, UpdatedBooks, AccountErrors, HasBook, LimitOf;
    RiskAccepts(a, intent, preview, quote, limits, state, now);
    SomeTarget(a.positionBooks, intent.symbol, intent.bookSide);
    SmallerProduct(f.quantity, intent.quantity, intent.limitPrice);
    var x := f.quantity * f.price;
    FillGrowth(m, a.positionBooks, f, x);
    PartOfWhole(Targets(a.positionBooks, intent.symbol, intent.bookSide), x, intent.Notional());
    AdmittedWithinLimit(a, intent.Notional(), intent.symbol, limits, m);
  }

  /** With unique keys and marked notionals the bound is the limit plus q * |p - m|. */
  lemma DriftBoundWithUniqueKeys(
    a: AccountState, intent: PaperOrderIntent, preview: PaperOrderPreview, quote: PaperMarketQuote,
    limits: RiskLimits, state: PaperRiskState, now: Time, f: PaperFill, m: Measure, k: nat)
    requires EvaluatePaperOrderRisk(a, intent, preview, quote, limits, state, now).accepted
    requires intent.limitPrice > 0.0 && Executes(f, intent) && Concerns(m, intent.symbol)
    requires UniqueKeys(a.positionBooks) && k < |a.positionBooks| && Touches(a.positionBooks[k], f)
    requires NotionalOk(a.positionBooks[k])
    ensures var b := a.positionBooks[k];
            Size(m, ApplyPaperFill(a, f).positionBooks)
            <= LimitOf(m, limits) + b.quantity * Abs(intent.limitPrice - b.markPrice)
  {
    hide EvaluatePaperOrderRisk, Size, Targets, Drift, UpdatedBooks, LimitOf, BookDrift;
    AcceptedFillStaysWithinDrift(a, intent, preview, quote, limits, state, now, f, m);
    OneTarget(a.positionBooks, intent.symbol, intent.bookSide);
    DriftOfTarget(a.positionBooks, k, intent.limitPrice);
    DriftOfMarkedBook(a.positionBooks[k], intent.limitPrice);
  }

  /** Leverage is judged before the fee is paid: gross exposure stays within the leverage of
      the collateral plus the fee just debited, plus the same drift and repeated notionals. */
  lemma AcceptedFillLeverage(
    a: AccountState, intent: PaperOrderIntent, preview: PaperOrderPreview, quote: PaperMarketQuote,
    limits: RiskLimits, state: PaperRiskState, now: Time, f: PaperFill)
    requires EvaluatePaperOrderRisk(a, intent, preview, quote, limits, state, now).accepted
    requires intent.limitPrice > 0.0 && Executes(f, intent)
    ensures Targets(a.positionBooks, intent.symbol, intent.bookSide) >= 1
    ensures var after := ApplyPaperFill(a, f);
            Size(Gross, after.positionBooks)
            <= limits.maxAccountLeverage * (Collateral(after) + f.fee)
               + Drift(a.positionBooks, intent.symbol, intent.bookSide, intent.limitPrice)
               + (Targets(a.positionBooks, intent.symbol, intent.bookSide) - 1) as real * intent.Notional()
  {
    hide EvaluatePaperOrderRisk, AccountErrors, Size, Targets, Drift, UpdatedBooks, HasBook;
    RiskAccepts(a, intent, preview, quote, limits, state, now);
    SomeTarget(a.positionBooks, intent.symbol, intent.bookSide);
    SmallerProduct(f.quantity, intent.quantity, intent.limitPrice);
    var x := f.quantity * f.price;
    FillGrowth(Gross, a.positionBooks, f, x);
    PartOfWhole(Targets(a.positionBooks, intent.symbol, intent.bookSide), x, intent.Notional());
    RatioBound(Size(Gross, a.positionBooks) + intent.Notional(), Collateral(a), limits.maxAccountLeverage);
    assert Collateral(ApplyPaperFill(a, f)) + f.fee == Collateral(a);
  }

  // ---------------------------------------------------------------- exactly when a limit is kept

  /** The exact condition, on any account: a fill, opening, reducing or over-closing, leaves a measure
      within a limit if and only if its sum before, moved by the figures of the books it touches at what
      their notionals gain, is within it.  Everything in the condition is known before the fill. */
  lemma LimitKeptIff(a: AccountState, f: PaperFill, m: Measure, limit: real)
    ensures Size(m, ApplyPaperFill(a, f).positionBooks) <= limit
            <==> SizeOf(m, Total(m, a.positionBooks) + Gain(m, a.positionBooks, f)) <= limit
  {
    hide Total, Gain, UpdatedBooks;
    UpdateMovesAll(a.positionBooks, f);
    FillMovesExactly(m, a.positionBooks, f, UpdatedBooks(a.positionBooks, f));
  }

  /** With unique keys that is the target book's figure. */
  lemma UniqueLimitKeptIff(a: AccountState, f: PaperFill, k: nat, m: Measure, limit: real)
    requires UniqueKeys(a.positionBooks) && k < |a.positionBooks| && Touches(a.positionBooks[k], f)
    ensures Size(m, ApplyPaperFill(a, f).positionBooks) <= limit
            <==> SizeOf(m, Total(m, a.positionBooks) + Figure(m, Gained(a.positionBooks[k], f))) <= limit
  {
    hide Total, Figure, UniqueKeys, Gained, Gain, Size;
    LimitKeptIff(a, f, m, limit);
    GainOfTarget(m, a.positionBooks, f, k);
  }

  /** For an opening fill, on any account: gross, sector and target-symbol exposure stay within a limit if and
      only if their size before, plus the fill's notional for each book under its key, plus what re-marking
      those books adds, does. */
  lemma OpeningKeepsLimitIff(a: AccountState, f: PaperFill, m: Measure, limit: real)
    requires IsIncrease(f) && CountsWhole(m, f.symbol)
    ensures Size(m, ApplyPaperFill(a, f).positionBooks) <= limit
            <==> Size(m, a.positionBooks)
                 + Targets(a.positionBooks, f.symbol, f.bookSide) as real * (f.quantity * f.price)
                 + Remark(a.positionBooks, f.symbol, f.bookSide, f.price) <= limit
  {
    hide Total, Gain, Targets, Remark, ApplyPaperFill;
    LimitKeptIff(a, f, m, limit);
    OpeningGain(m, a.positionBooks, f, f.quantity * f.price);
  }

  /** With unique keys and a marked target book: size before, plus the fill's notional, plus q * (p - m). */
  lemma MarkedOpeningKeepsLimitIff(a: AccountState, f: PaperFill, k: nat, m: Measure, limit: real)
    requires UniqueKeys(a.positionBooks) && k < |a.positionBooks| && Touches(a.positionBooks[k], f)
    requires NotionalOk(a.positionBooks[k]) && IsIncrease(f) && CountsWhole(m, f.symbol)
    ensures var b := a.positionBooks[k];
            Size(m, ApplyPaperFill(a, f).positionBooks) <= limit
            <==> Size(m, a.positionBooks) + f.quantity * f.price + b.quantity * (f.price - b.markPrice) <= limit
  {
    hide Size, Targets, Remark, ApplyPaperFill, UniqueKeys, NotionalOk;
    OpeningKeepsLimitIff(a, f, m, limit);
    RemarkOfTarget(a.positionBooks, k, f.price);
  }
}
