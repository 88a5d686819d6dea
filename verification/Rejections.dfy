/** What every reason means: a record, an account, a preview or the gate gives a reason if and only if what the
    reason says is the case. */
module Rejections {
  import opened Schemas
  import opened BookLaws
  import opened Exposure
  import opened Pricing
  import opened Risk

  lemma GivenWhen(r: Reason)
    ensures forall c, given :: r in When(c, given) <==> c && r == given
  {
  }

  // ---------------------------------------------------------------- records

  predicate Overdue(f: Freshness, now: Time) {
    now - f.receivedTimestamp > f.maxAgeSeconds * 1_000_000 || 0 > f.maxAgeSeconds * 1_000_000
  }

  predicate FreshnessFault(f: Freshness, now: Time, about: Label, r: Reason) {
    match r
    case SourceAfterReceived(subject) => subject == about && f.sourceTimestamp > f.receivedTimestamp
    case Stale(subject) => subject == about && Overdue(f, now)
    case _ => false
  }

  lemma FreshnessFaults(f: Freshness, now: Time, about: Label, r: Reason)
    ensures r in f.ValidationErrors(now, about) <==> FreshnessFault(f, now, about, r)
  {
    hide When;
    GivenWhen(r);
  }

  predicate FilterFault(f: SymbolFilters, r: Reason) {
    || (r == TickSizeNotPositive && f.tickSize <= 0.0)
    || (r == LotSizeNotPositive && f.lotSize <= 0.0)
    || (r == MinQuantityNotPositive && f.minQuantity <= 0.0)
    || (r == MaxBelowMin && f.maxQuantity < f.minQuantity)
    || (r == MinNotionalNotPositive && f.minNotional <= 0.0)
    || (r == LimitUnsupported && "LIMIT" !in f.supportedOrderTypes)
    || (r == GtxUnsupported && GTX !in f.supportedTimeInForce)
  }

  lemma FilterFaults(f: SymbolFilters, r: Reason)
    ensures r in f.ValidationErrors() <==> FilterFault(f, r)
  {
    hide When;
    GivenWhen(r);
  }

  /** Executable instruments trade in USDC with filters; the others carry none. */
  predicate MetadataFault(m: SymbolMetadata, now: Time, r: Reason) {
    || FreshnessFault(m.freshness, now, SymbolLabel(m.symbol), r)
    || if m.role == Executable then
         || (r == NotTrading && m.contractStatus != "TRADING")
         || (r == QuoteAssetNotUsdc && m.quoteAsset != Some("USDC"))
         || (r == MarginAssetNotUsdc && m.marginAsset != Some("USDC"))
         || (r == FiltersRequired && m.filters.None?)
         || (m.filters.Some? && FilterFault(m.filters.value, r))
       else r == FiltersForbidden && m.filters.Some?
  }

  lemma MetadataFaults(m: SymbolMetadata, now: Time, r: Reason)
    ensures r in m.ValidationErrors(now) <==> MetadataFault(m, now, r)
  {
    hide When;
    GivenWhen(r);
    hide Freshness.ValidationErrors, FreshnessFault, SymbolFilters.ValidationErrors, FilterFault;
    FreshnessFaults(m.freshness, now, SymbolLabel(m.symbol), r);
    if m.filters.Some? { FilterFaults(m.filters.value, r); }
  }

  predicate PromotionFault(p: FeePromotion, now: Time, r: Reason) {
    || (r == PromotionEndless && p.effectiveUntil <= p.effectiveFrom)
    || (r == ReviewAfterEnd && p.reviewAt > p.effectiveUntil)
    || (r == ApprovalMissing && p.approvalReference == "")
    || (r == FallbackNegative && p.fallbackMakerFeeRate < 0.0)
    || (r == PromotionExpired && now > p.effectiveUntil)
  }

  lemma PromotionFaults(p: FeePromotion, now: Time, r: Reason)
    ensures r in p.ValidationErrors(now) <==> PromotionFault(p, now, r)
  {
    hide When;
    GivenWhen(r);
  }

  /** Fees are not negative, and a maker fee is zero only under a promotion in force. */
  predicate FeeFault(p: FeePolicy, now: Time, r: Reason) {
    || FreshnessFault(p.freshness, now, FeeLabel(p.symbol), r)
    || (r == MakerFeeNegative && p.makerFeeRate < 0.0)
    || (r == TakerFeeNegative && p.takerFeeRate < 0.0)
    || (r == ZeroFeeWithoutPromotion && p.makerFeeRate == 0.0 && p.promotion.None?)
    || (p.promotion.Some? && PromotionFault(p.promotion.value, now, r))
  }

  lemma FeeFaults(p: FeePolicy, now: Time, r: Reason)
    ensures r in p.ValidationErrors(now) <==> FeeFault(p, now, r)
  {
    hide When;
    GivenWhen(r);
    hide Freshness.ValidationErrors, FreshnessFault, FeePromotion.ValidationErrors, PromotionFault;
    FreshnessFaults(p.freshness, now, FeeLabel(p.symbol), r);
    if p.promotion.Some? { PromotionFaults(p.promotion.value, now, r); }
  }

  // ---------------------------------------------------------------- accounts

  lemma {:induction false} MetadataListFaults(metadata: seq<SymbolMetadata>, now: Time, r: Reason)
    ensures r in MetadataErrors(metadata, now) <==> exists m :: m in metadata && MetadataFault(m, now, r)
  {
    hide SymbolMetadata.ValidationErrors, MetadataFault;
    if metadata != [] {
      var n := |metadata| - 1;
      MetadataListFaults(metadata[..n], now, r);
      MetadataFaults(metadata[n], now, r);
      assert metadata == metadata[..n] + [metadata[n]];
    }
  }

  lemma {:induction false} FeeListFaults(policies: seq<FeePolicy>, now: Time, r: Reason)
    ensures r in FeeErrors(policies, now) <==> exists p :: p in policies && FeeFault(p, now, r)
  {
    hide FeePolicy.ValidationErrors, FeeFault;
    if policies != [] {
      var n := |policies| - 1;
      FeeListFaults(policies[..n], now, r);
      FeeFaults(policies[n], now, r);
      assert policies == policies[..n] + [policies[n]];
    }
  }

  predicate BookMissing(books: seq<PositionBook>, r: Reason) {
    r.MissingHedgeBook? && forall b :: b in books ==> !(b.symbol == r.symbol && b.side == r.side)
  }

  lemma NoBook(books: seq<PositionBook>, symbol: Symbol, side: BookSide)
    ensures BookMissing(books, MissingHedgeBook(symbol, side)) <==> !HasBook(books, symbol, side)
  {
    if !BookMissing(books, MissingHedgeBook(symbol, side)) {
      var b :| b in books && b.symbol == symbol && b.side == side;
    }
  }

  lemma BookFaults(books: seq<PositionBook>, symbol: Symbol, r: Reason)
    ensures r in MissingBooks(books, symbol) <==> BookMissing(books, r) && r.symbol == symbol
  {
    hide When, BookMissing, HasBook;
    GivenWhen(r);
    NotAboutBooks(books, r);
    NoBook(books, symbol, Long);
    NoBook(books, symbol, Short);
    if r.MissingHedgeBook? && r.symbol == symbol {
      if r.side == Long {
        assert r == MissingHedgeBook(symbol, Long);
      } else {
        assert r == MissingHedgeBook(symbol, Short);
      }
    }
  }

  lemma {:induction false} BookListFaults(symbols: seq<Symbol>, books: seq<PositionBook>, r: Reason)
    ensures r in AllMissingBooks(symbols, books) <==> BookMissing(books, r) && r.symbol in symbols
  {
    hide MissingBooks, BookMissing;
    NotAboutBooks(books, r);
    if symbols != [] {
      var n := |symbols| - 1;
      BookListFaults(symbols[..n], books, r);
      BookFaults(books, symbols[n], r);
      assert symbols == symbols[..n] + [symbols[n]];
    }
  }

  /** The collected symbols are those of the executable instruments, each once. */
  lemma {:induction false} ExecutableSymbolsAre(metadata: seq<SymbolMetadata>, symbol: Symbol)
    ensures symbol in ExecutableSymbols(metadata)
            <==> exists m :: m in metadata && m.IsExecutable() && m.symbol == symbol
    ensures forall i, j :: 0 <= i < j < |ExecutableSymbols(metadata)| ==>
              ExecutableSymbols(metadata)[i] != ExecutableSymbols(metadata)[j]
  {
    if metadata != [] {
      var n := |metadata| - 1;
      ExecutableSymbolsAre(metadata[..n], symbol);
      assert metadata == metadata[..n] + [metadata[n]] && metadata[n] in metadata;
    }
  }

  predicate OwnFault(a: AccountState, now: Time, r: Reason) {
    || FreshnessFault(a.freshness, now, AccountLabel, r)
    || (r == PortfolioMarginEnabled && a.portfolioMarginEnabled)
    || (r == MaintenanceNegative && a.maintenanceMargin < 0.0)
    || (r == LiquidationNegative && a.liquidationDistanceRatio < 0.0)
  }

  /** What is wrong with an account is its own fault, one of its records', or a hedge book it lacks. */
  predicate AccountFault(a: AccountState, now: Time, r: Reason) {
    || OwnFault(a, now, r)
    || (exists m :: m in a.symbolMetadata && MetadataFault(m, now, r))
    || (exists p :: p in a.feePolicies && FeeFault(p, now, r))
    || (a.positionMode == Hedge && BookMissing(a.positionBooks, r)
        && exists m :: m in a.symbolMetadata && m.role == Executable && m.symbol == r.symbol)
  }

  lemma AccountFaults(a: AccountState, now: Time, r: Reason)
    ensures r in AccountErrors(a, now) <==> AccountFault(a, now, r)
  {
    hide When;
    GivenWhen(r);
    hide Freshness.ValidationErrors, FreshnessFault, MetadataErrors, FeeErrors, AllMissingBooks, ExecutableSymbols,
         MetadataFault, FeeFault, BookMissing;
    FreshnessFaults(a.freshness, now, AccountLabel, r);
    MetadataListFaults(a.symbolMetadata, now, r);
    FeeListFaults(a.feePolicies, now, r);
    BookListFaults(ExecutableSymbols(a.symbolMetadata), a.positionBooks, r);
    if r.MissingHedgeBook? {
      ExecutableSymbolsAre(a.symbolMetadata, r.symbol);
    } else {
      NotAboutBooks(a.positionBooks, r);
    }
  }

  lemma NotAboutBooks(books: seq<PositionBook>, r: Reason)
    ensures BookMissing(books, r) ==> r.MissingHedgeBook?
  {
  }

  // ---------------------------------------------------------------- previews

  /** What can be wrong with an order on an instrument with these filters. */
  predicate OrderFault(intent: PaperOrderIntent, f: SymbolFilters, r: Reason) {
    || (r == QuantityNotPositive && intent.quantity <= 0.0)
    || (r == PriceNotPositive && intent.limitPrice <= 0.0)
    || (r == QuantityOffLot && !IsMultiple(intent.quantity, f.lotSize))
    || (r == PriceOffTick && !IsMultiple(intent.limitPrice, f.tickSize))
    || (r == BelowMinNotional && intent.quantity * intent.limitPrice < f.minNotional)
  }

  lemma OrderFaults(intent: PaperOrderIntent, f: SymbolFilters, r: Reason)
    ensures r in FilterReasons(intent, f) <==> OrderFault(intent, f, r)
  {
    hide When, IsMultiple;
    GivenWhen(r);
  }

  predicate InstrumentFault(a: AccountState, intent: PaperOrderIntent, now: Time, r: Reason) {
    match MetadataFor(a.symbolMetadata, intent.symbol)
    case None => r == MetadataUnavailable
    case Some(m) =>
      if m.role != Executable then r == NotExecutable
      else if m.filters.None? then r == FiltersUnavailable
      else MetadataFault(m, now, r) || OrderFault(intent, m.filters.value, r)
  }

  lemma InstrumentFaults(a: AccountState, intent: PaperOrderIntent, now: Time, r: Reason)
    ensures r in InstrumentReasons(a, intent, now) <==> InstrumentFault(a, intent, now, r)
  {
    hide When;
    GivenWhen(r);
    hide SymbolMetadata.ValidationErrors, MetadataFault, FilterReasons, OrderFault, MetadataFor;
    var m := MetadataFor(a.symbolMetadata, intent.symbol);
    if m.Some? {
      MetadataFaults(m.value, now, r);
      if m.value.filters.Some? { OrderFaults(intent, m.value.filters.value, r); }
    }
  }

  /** Only orders that can rest are taken: good till crossing, post-only, no taker fills but behind the gate. */
  predicate PolicyFault(intent: PaperOrderIntent, quote: PaperMarketQuote, takerGateEnabled: bool, r: Reason) {
    || (r == NotGtx && intent.timeInForce != GTX)
    || (r == NotPostOnly && !intent.postOnly)
    || (r == TakerNotEnabled && intent.allowTaker && !takerGateEnabled)
    || (r == PostOnlyWouldCross && intent.postOnly
        && if intent.side == Buy then intent.limitPrice >= quote.bestAsk else intent.limitPrice <= quote.bestBid)
  }

  lemma PolicyFaults(intent: PaperOrderIntent, quote: PaperMarketQuote, takerGateEnabled: bool, r: Reason)
    ensures r in MakerFirstReasons(intent, quote, takerGateEnabled)
            <==> PolicyFault(intent, quote, takerGateEnabled, r)
  {
    hide When;
    GivenWhen(r);
  }

  /** The built-in quotes are fresh by construction, so the only fault of a quote is to be missing. */
  predicate PreviewFault(
    a: AccountState, halted: bool, takerGateEnabled: bool, intent: PaperOrderIntent, now: Time, r: Reason)
  {
    var fee := FeeFor(a.feePolicies, intent.symbol);
    var quote := PreviewQuote(intent.symbol, now);
    || (r == ExchangeHalted && halted)
    || InstrumentFault(a, intent, now, r)
    || (if fee.None? then r == FeePolicyUnavailable else FeeFault(fee.value, now, r))
    || (r == QuoteUnavailable && intent.symbol != BTCUSDC && intent.symbol != ETHUSDC)
    || PolicyFault(intent, quote, takerGateEnabled, r)
    || (r == EdgeNotPositive
        && CalculateExpectedEdge(intent, PreviewFee(a, intent.symbol, now), quote).afterCosts <= 0.0)
  }

  lemma FeeReasonFaults(a: AccountState, symbol: Symbol, now: Time, r: Reason)
    ensures var fee := FeeFor(a.feePolicies, symbol);
            r in FeeReasons(a, symbol, now)
            <==> if fee.None? then r == FeePolicyUnavailable else FeeFault(fee.value, now, r)
  {
    hide FeePolicy.ValidationErrors, FeeFault, FeeFor;
    var fee := FeeFor(a.feePolicies, symbol);
    if fee.Some? { FeeFaults(fee.value, now, r); }
  }

  lemma QuoteFaults(symbol: Symbol, now: Time, r: Reason)
    ensures r in QuoteReasons(symbol, now) <==> r == QuoteUnavailable && symbol != BTCUSDC && symbol != ETHUSDC
  {
  }

  /** A preview gives a reason if and only if it is the case. */
  lemma PreviewFaults(
    a: AccountState, halted: bool, takerGateEnabled: bool, intent: PaperOrderIntent, now: Time, r: Reason)
    ensures r in Preview(a, halted, takerGateEnabled, intent, now).reasons
            <==> PreviewFault(a, halted, takerGateEnabled, intent, now, r)
  {
    hide When;
    GivenWhen(r);
    hide InstrumentReasons, InstrumentFault, FeeReasons, QuoteReasons, FeeFault, MakerFirstReasons, PolicyFault,
         CalculateExpectedEdge, FeeFor, PreviewFee, PreviewQuote, WouldCross;
    InstrumentFaults(a, intent, now, r);
    PolicyFaults(intent, PreviewQuote(intent.symbol, now), takerGateEnabled, r);
    FeeReasonFaults(a, intent.symbol, now, r);
    QuoteFaults(intent.symbol, now, r);
  }

  // ---------------------------------------------------------------- the gate

  /** The kill switches, at any limits. */
  predicate SwitchFault(limits: RiskLimits, state: PaperRiskState, r: Reason) {
    || (r == PanicHaltActive && state.panicHaltActive)
    || (r == ApiErrorActive && state.apiErrorActive)
    || (r == DailyLossReached && state.dailyLoss >= limits.maxDailyLoss)
    || (r == DrawdownReached && state.drawdown >= limits.maxDrawdown)
    || (r == OrderSpam && state.openOrderCountLastMinute >= limits.maxOrdersPerMinute)
  }

  lemma SwitchFaults(limits: RiskLimits, state: PaperRiskState, r: Reason)
    ensures r in StateReasons(limits, state) <==> SwitchFault(limits, state, r)
  {
    hide When;
    GivenWhen(r);
  }

  /** The market checks. */
  predicate MarketFault(
    a: AccountState, preview: PaperOrderPreview, quote: PaperMarketQuote, limits: RiskLimits, r: Reason)
  {
    || (r == EdgeNotPositive && preview.expectedEdge.afterCosts <= 0.0)
    || (r == AbnormalSpread && quote.SpreadBps() > limits.maxAbnormalSpreadBps)
    || (r == FundingSpike
        && (quote.fundingRateBps > limits.maxFundingRateBps || -quote.fundingRateBps > limits.maxFundingRateBps))
    || (r == VolatilityHalt && quote.shortHorizonVolatilityBps > limits.maxShortHorizonVolatilityBps)
    || (r == LiquidationBelowMinimum && a.liquidationDistanceRatio < limits.minLiquidationDistanceRatio)
  }

  lemma MarketFaults(
    a: AccountState, preview: PaperOrderPreview, quote: PaperMarketQuote, limits: RiskLimits, r: Reason)
    ensures r in MarketReasons(a, preview, quote, limits) <==> MarketFault(a, preview, quote, limits, r)
  {
    hide When, PaperMarketQuote.SpreadBps;
    GivenWhen(r);
  }

  /** Exposure, with the whole notional added, beyond a limit; leverage only of a positive wallet. */
  predicate ExposureFault(a: AccountState, notional: real, symbol: Symbol, limits: RiskLimits, r: Reason) {
    var books := a.positionBooks;
    var wallet := if a.collateralAssets == [] then 0.0 else a.collateralAssets[0].walletBalance;
    || (r == SymbolLimit && Total(InSymbol(symbol), books) + notional > limits.maxSymbolExposure)
    || (r == SectorLimit && Total(Sector, books) + notional > limits.maxSectorExposure)
    || (r == CorrelatedLimit && Beyond(Total(Beta, books), notional, limits.maxCorrelatedExposure))
    || (r == BetaLimit && Beyond(Total(Beta, books), notional, limits.maxBetaExposure))
    || (r == LegLimit && Beyond(Total(Net, books), notional, limits.maxLegImbalance))
    || (r == GrossLimit && Total(Gross, books) + notional > limits.maxPortfolioGrossExposure)
    || LeverageFault(Total(Gross, books) + notional, wallet, limits.maxAccountLeverage, r)
  }

  predicate LeverageFault(gross: real, wallet: real, maxLeverage: real, r: Reason) {
    || (r == CollateralUnavailable && wallet <= 0.0)
    || (r == LeverageLimit && wallet > 0.0 && gross > maxLeverage * wallet)
  }

  lemma LeverageFaults(gross: real, wallet: real, maxLeverage: real, r: Reason)
    ensures r in LeverageReasons(gross, wallet, maxLeverage) <==> LeverageFault(gross, wallet, maxLeverage, r)
  {
    if wallet > 0.0 {
      DivMul(gross, wallet);
      if gross / wallet <= maxLeverage {
        RatioBound(gross, wallet, maxLeverage);
      } else {
        LargerProduct(maxLeverage, gross / wallet, wallet);
      }
    }
  }

  /** Either way from zero. */
  predicate Beyond(sum: real, notional: real, limit: real) {
    sum + notional > limit || -sum + notional > limit
  }

  lemma BeyondIs(sum: real, notional: real, limit: real)
    ensures Abs(sum) + notional > limit <==> Beyond(sum, notional, limit)
  {
  }

  lemma ReportFigures(a: AccountState)
    ensures var e := CalculatePortfolioExposure(a);
            var books := a.positionBooks;
            && e.grossExposure == Total(Gross, books) && e.legImbalance == Abs(Total(Net, books))
            && e.sectorExposure == Total(Sector, books) && e.betaExposure == Total(Beta, books)
            && e.correlatedExposure == Abs(Total(Beta, books))
  {
    hide Total;
    SidesMakeGrossAndNet(a.positionBooks);
  }

  lemma ExposureFaults(a: AccountState, notional: real, symbol: Symbol, limits: RiskLimits, r: Reason)
    ensures r in ExposureReasons(a, notional, symbol, limits) <==> ExposureFault(a, notional, symbol, limits, r)
  {
    hide When, Total, CalculatePortfolioExposure, LeverageReasons, LeverageFault, Abs, Beyond;
    GivenWhen(r);
    ReportFigures(a);
    BeyondIs(Total(Beta, a.positionBooks), notional, limits.maxCorrelatedExposure);
    BeyondIs(Total(Beta, a.positionBooks), notional, limits.maxBetaExposure);
    BeyondIs(Total(Net, a.positionBooks), notional, limits.maxLegImbalance);
    LeverageFaults(CalculatePortfolioExposure(a).grossExposure + notional, Collateral(a), limits.maxAccountLeverage, r);
  }

  /** Exposure beyond the default limits, in numbers. */
  predicate DefaultExposureFault(a: AccountState, notional: real, symbol: Symbol, r: Reason) {
    var books := a.positionBooks;
    var wallet := if a.collateralAssets == [] then 0.0 else a.collateralAssets[0].walletBalance;
    || (r == SymbolLimit && Total(InSymbol(symbol), books) + notional > 50000.0)
    || (r == SectorLimit && Total(Sector, books) + notional > 75000.0)
    || (r == CorrelatedLimit && Beyond(Total(Beta, books), notional, 60000.0))
    || (r == BetaLimit && Beyond(Total(Beta, books), notional, 60000.0))
    || (r == LegLimit && Beyond(Total(Net, books), notional, 25000.0))
    || (r == GrossLimit && Total(Gross, books) + notional > 100000.0)
    || (r == CollateralUnavailable && wallet <= 0.0)
    || (r == LeverageLimit && wallet > 0.0 && Total(Gross, books) + notional > 3.0 * wallet)
  }

  lemma DefaultExposureFaults(a: AccountState, notional: real, symbol: Symbol, r: Reason)
    ensures r in ExposureReasons(a, notional, symbol, DEFAULT_LIMITS) <==> DefaultExposureFault(a, notional, symbol, r)
  {
    hide ExposureReasons, Total, Beyond;
    ExposureFaults(a, notional, symbol, DEFAULT_LIMITS, r);
  }

  predicate GateFault(
    a: AccountState, intent: PaperOrderIntent, preview: PaperOrderPreview, quote: PaperMarketQuote,
    limits: RiskLimits, state: PaperRiskState, now: Time, r: Reason)
  {
    || AccountFault(a, now, r)
    || FreshnessFault(quote.freshness, now, QuoteLabel(intent.symbol), r)
    || SwitchFault(limits, state, r) || MarketFault(a, preview, quote, limits, r)
    || ExposureFault(a, intent.quantity * intent.limitPrice, intent.symbol, limits, r)
    || (BookMissing(a.positionBooks, r) && r.symbol == intent.symbol)
  }

  /** The gate gives a reason if and only if it is the case, accepts if and only if it gives none, and reports the
      limits it judged by. */
  lemma GateFaults(
    a: AccountState, intent: PaperOrderIntent, preview: PaperOrderPreview, quote: PaperMarketQuote,
    limits: RiskLimits, state: PaperRiskState, now: Time, r: Reason)
    ensures var verdict := EvaluatePaperOrderRisk(a, intent, preview, quote, limits, state, now);
            && (r in verdict.reasons <==> GateFault(a, intent, preview, quote, limits, state, now, r))
            && (verdict.accepted <==> verdict.reasons == []) && verdict.limits == limits
  {
    hide AccountErrors, AccountFault, Freshness.ValidationErrors, FreshnessFault, StateReasons, MarketReasons,
         SwitchFault, MarketFault, ExposureReasons, ExposureFault, MissingBooks, BookMissing;
    AccountFaults(a, now, r);
    FreshnessFaults(quote.freshness, now, QuoteLabel(intent.symbol), r);
    SwitchFaults(limits, state, r);
    MarketFaults(a, preview, quote, limits, r);
    BookFaults(a.positionBooks, intent.symbol, r);
    ExposureFaults(a, intent.Notional(), intent.symbol, limits, r);
    assert intent.Notional() == intent.quantity * intent.limitPrice;
  }
}
