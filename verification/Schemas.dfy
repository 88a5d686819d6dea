/** The records the paper exchange works on: exchange and account state, order
    intents, orders, fills and reconciliation events, with their validity checks
    and the default account.  Decimals are exact reals, timestamps are whole
    microseconds, and every formatted identifier is the number it was formatted from. */
module Schemas {

  datatype Option<+T> = None | Some(value: T)

  type Time = int

  const MICROSECONDS_PER_SECOND := 1_000_000
  const DEFAULT_MAX_AGE_SECONDS := 300

  /** Instrument symbols: the four of the default universe, and any other text. */
  datatype Symbol = BTCUSDC | ETHUSDC | SYN_ETHBTC | ETHBTC | Unlisted(name: string)

  datatype BookSide = Long | Short
  datatype OrderSide = Buy | Sell
  datatype OrderStatus = New | PartiallyFilled | Filled | Canceled | Expired
  datatype TimeInForce = GTC | GTX | IOC | FOK | GTD
  datatype PositionMode = OneWay | Hedge
  datatype InstrumentRole = Executable | Derived | Reference

  /** What a freshness error is about. */
  datatype Label = AccountLabel | SymbolLabel(symbol: Symbol) | FeeLabel(symbol: Symbol) | QuoteLabel(symbol: Symbol)

  /** The texts the source appends to its `errors` and `reasons` lists, one constructor each. */
  datatype Reason =
    | SourceAfterReceived(about: Label) | Stale(about: Label)
    | TickSizeNotPositive | LotSizeNotPositive | MinQuantityNotPositive | MaxBelowMin
    | MinNotionalNotPositive | LimitUnsupported | GtxUnsupported
    | NotTrading | QuoteAssetNotUsdc | MarginAssetNotUsdc | FiltersRequired | FiltersForbidden
    | PromotionEndless | ReviewAfterEnd | ApprovalMissing | FallbackNegative | PromotionExpired
    | MakerFeeNegative | TakerFeeNegative | ZeroFeeWithoutPromotion
    | PortfolioMarginEnabled | MaintenanceNegative | LiquidationNegative
    | MissingHedgeBook(symbol: Symbol, side: BookSide)
    | ExchangeHalted | MetadataUnavailable | NotExecutable | FiltersUnavailable
    | QuantityNotPositive | PriceNotPositive | QuantityOffLot | PriceOffTick | BelowMinNotional
    | FeePolicyUnavailable | QuoteUnavailable
    | NotGtx | NotPostOnly | TakerNotEnabled | PostOnlyWouldCross | EdgeNotPositive
    | PanicHaltActive | ApiErrorActive | DailyLossReached | DrawdownReached | OrderSpam
    | AbnormalSpread | FundingSpike | VolatilityHalt | LiquidationBelowMinimum
    | SymbolLimit | SectorLimit | CorrelatedLimit | BetaLimit | LegLimit | GrossLimit
    | CollateralUnavailable | LeverageLimit
    | OrderAccepted | QueueFillApplied | CancelRequested | LifecycleExpired
    | PanicCancelRecorded | PositionsFlattened

  /** `if c: errors.append(r)` */
  function When(c: bool, r: Reason): seq<Reason> {
    if c then [r] else []
  }

  function Max(a: real, b: real): real { if a < b then b else a }
  function Min(a: real, b: real): real { if b < a then b else a }
  function Abs(a: real): real { if a < 0.0 then -a else a }

  // ---------------------------------------------------------------- freshness

  datatype Freshness = Freshness(sourceTimestamp: Time, receivedTimestamp: Time, maxAgeSeconds: int) {
    function AgeMicroseconds(now: Time): int {
      if now - receivedTimestamp < 0 then 0 else now - receivedTimestamp
    }

    predicate IsStale(now: Time) {
      AgeMicroseconds(now) > maxAgeSeconds * MICROSECONDS_PER_SECOND
    }

    function ValidationErrors(now: Time, about: Label): seq<Reason> {
      When(sourceTimestamp > receivedTimestamp, SourceAfterReceived(about))
      + When(IsStale(now), Stale(about))
    }
  }

  function FreshAt(now: Time): Freshness {
    Freshness(now, now, DEFAULT_MAX_AGE_SECONDS)
  }

  // ---------------------------------------------------------------- account records

  datatype CollateralAsset = CollateralAsset(asset: string, walletBalance: real, availableBalance: real,
                                             unrealizedPnl: real)

  datatype PositionBook = PositionBook(
    symbol: Symbol, side: BookSide, quantity: real, entryPrice: real,
    markPrice: real, notional: real, unrealizedPnl: real)

  datatype SymbolFilters = SymbolFilters(
    tickSize: real, lotSize: real, minQuantity: real, maxQuantity: real, minNotional: real,
    supportedOrderTypes: seq<string>, supportedTimeInForce: seq<TimeInForce>)
  {
    function ValidationErrors(): seq<Reason> {
      When(tickSize <= 0.0, TickSizeNotPositive)
      + When(lotSize <= 0.0, LotSizeNotPositive)
      + When(minQuantity <= 0.0, MinQuantityNotPositive)
      + When(maxQuantity < minQuantity, MaxBelowMin)
      + When(minNotional <= 0.0, MinNotionalNotPositive)
      + When("LIMIT" !in supportedOrderTypes, LimitUnsupported)
      + When(GTX !in supportedTimeInForce, GtxUnsupported)
    }
  }

  datatype SymbolMetadata = SymbolMetadata(
    symbol: Symbol, role: InstrumentRole, contractStatus: string, quoteAsset: Option<string>,
    marginAsset: Option<string>, filters: Option<SymbolFilters>, freshness: Freshness)
  {
    predicate IsExecutable() { role == Executable }

    function ValidationErrors(now: Time): seq<Reason> {
      freshness.ValidationErrors(now, SymbolLabel(symbol))
      + if IsExecutable() then
          When(contractStatus != "TRADING", NotTrading)
          + When(quoteAsset != Some("USDC"), QuoteAssetNotUsdc)
          + When(marginAsset != Some("USDC"), MarginAssetNotUsdc)
          + (if filters == None then [FiltersRequired] else filters.value.ValidationErrors())
        else
          When(filters != None, FiltersForbidden)
    }
  }

  datatype FeePromotion = FeePromotion(
    effectiveFrom: Time, effectiveUntil: Time, reviewAt: Time,
    approvalReference: string, fallbackMakerFeeRate: real)
  {
    function ValidationErrors(now: Time): seq<Reason> {
      When(effectiveUntil <= effectiveFrom, PromotionEndless)
      + When(reviewAt > effectiveUntil, ReviewAfterEnd)
      + When(approvalReference == "", ApprovalMissing)
      + When(fallbackMakerFeeRate < 0.0, FallbackNegative)
      + When(now > effectiveUntil, PromotionExpired)
    }
  }

  datatype FeePolicy = FeePolicy(
    symbol: Symbol, makerFeeRate: real, takerFeeRate: real, freshness: Freshness, promotion: Option<FeePromotion>)
  {
    function ValidationErrors(now: Time): seq<Reason> {
      freshness.ValidationErrors(now, FeeLabel(symbol))
      + When(makerFeeRate < 0.0, MakerFeeNegative)
      + When(takerFeeRate < 0.0, TakerFeeNegative)
      + When(makerFeeRate == 0.0 && promotion == None, ZeroFeeWithoutPromotion)
      + if promotion == None then [] else promotion.value.ValidationErrors(now)
    }
  }

  datatype AccountState = AccountState(
    positionMode: PositionMode, portfolioMarginEnabled: bool, collateralAssets: seq<CollateralAsset>,
    maintenanceMargin: real, liquidationDistanceRatio: real, unrealizedPnl: real, fundingExposure: real,
    positionBooks: seq<PositionBook>, symbolMetadata: seq<SymbolMetadata>, feePolicies: seq<FeePolicy>,
    freshness: Freshness)

  predicate HasBook(books: seq<PositionBook>, symbol: Symbol, side: BookSide) {
    exists b :: b in books && b.symbol == symbol && b.side == side
  }

  function MetadataErrors(metadata: seq<SymbolMetadata>, now: Time): seq<Reason> {
    if metadata == [] then []
    else MetadataErrors(metadata[..|metadata| - 1], now) + metadata[|metadata| - 1].ValidationErrors(now)
  }

  function FeeErrors(policies: seq<FeePolicy>, now: Time): seq<Reason> {
    if policies == [] then []
    else FeeErrors(policies[..|policies| - 1], now) + policies[|policies| - 1].ValidationErrors(now)
  }

  function MissingBooks(books: seq<PositionBook>, symbol: Symbol): seq<Reason> {
    When(!HasBook(books, symbol, Long), MissingHedgeBook(symbol, Long))
    + When(!HasBook(books, symbol, Short), MissingHedgeBook(symbol, Short))
  }

  /** The executable symbols, each once, in order of first appearance; the source takes a set. */
  function ExecutableSymbols(metadata: seq<SymbolMetadata>): seq<Symbol> {
    if metadata == [] then []
    else
      var m := metadata[|metadata| - 1];
      var before := ExecutableSymbols(metadata[..|metadata| - 1]);
      if m.IsExecutable() && m.symbol !in before then before + [m.symbol] else before
  }

  function AllMissingBooks(symbols: seq<Symbol>, books: seq<PositionBook>): seq<Reason> {
    if symbols == [] then []
    else AllMissingBooks(symbols[..|symbols| - 1], books) + MissingBooks(books, symbols[|symbols| - 1])
  }

  /** Hedge-mode accounts need both books of every executable symbol. */
  function HedgeErrors(metadata: seq<SymbolMetadata>, books: seq<PositionBook>): seq<Reason> {
    AllMissingBooks(ExecutableSymbols(metadata), books)
  }

  function AccountErrors(a: AccountState, now: Time): seq<Reason> {
    a.freshness.ValidationErrors(now, AccountLabel)
    + When(a.portfolioMarginEnabled, PortfolioMarginEnabled)
    + When(a.maintenanceMargin < 0.0, MaintenanceNegative)
    + When(a.liquidationDistanceRatio < 0.0, LiquidationNegative)
    + MetadataErrors(a.symbolMetadata, now)
    + FeeErrors(a.feePolicies, now)
    + if a.positionMode == Hedge then HedgeErrors(a.symbolMetadata, a.positionBooks) else []
  }

  method ValidateMetadata(metadata: seq<SymbolMetadata>, now: Time) returns (errors: seq<Reason>)
    ensures errors == MetadataErrors(metadata, now)
  {
    hide SymbolMetadata.ValidationErrors;
    errors := [];
    for i := 0 to |metadata|
      invariant errors == MetadataErrors(metadata[..i], now)
    {
      assert metadata[..i + 1][..i] == metadata[..i];
      errors := errors + metadata[i].ValidationErrors(now);
    }
    assert metadata[..|metadata|] == metadata;
  }

  method ValidateFees(policies: seq<FeePolicy>, now: Time) returns (errors: seq<Reason>)
    ensures errors == FeeErrors(policies, now)
  {
    hide FeePolicy.ValidationErrors;
    errors := [];
    for i := 0 to |policies|
      invariant errors == FeeErrors(policies[..i], now)
    {
      assert policies[..i + 1][..i] == policies[..i];
      errors := errors + policies[i].ValidationErrors(now);
    }
    assert policies[..|policies|] == policies;
  }

  method CollectExecutableSymbols(metadata: seq<SymbolMetadata>) returns (executable: seq<Symbol>)
    ensures executable == ExecutableSymbols(metadata)
  {
    executable := [];
    for i := 0 to |metadata|
      invariant executable == ExecutableSymbols(metadata[..i])
    {
      assert metadata[..i + 1][..i] == metadata[..i];
      if metadata[i].IsExecutable() && metadata[i].symbol !in executable {
        executable := executable + [metadata[i].symbol];
      }
    }
    assert metadata[..|metadata|] == metadata;
  }

  method ValidateHedgeBooks(metadata: seq<SymbolMetadata>, books: seq<PositionBook>) returns (errors: seq<Reason>)
    ensures errors == HedgeErrors(metadata, books)
  {
    hide MissingBooks, ExecutableSymbols;
    var executable := CollectExecutableSymbols(metadata);
    errors := [];
    for i := 0 to |executable|
      invariant errors == AllMissingBooks(executable[..i], books)
    {
      assert executable[..i + 1][..i] == executable[..i];
      errors := errors + MissingBooks(books, executable[i]);
    }
    assert executable[..|executable|] == executable;
  }

  /** `AccountState.validation_errors` */
  method ValidateAccount(a: AccountState, now: Time) returns (errors: seq<Reason>)
    ensures errors == AccountErrors(a, now)
  {
    hide Freshness.ValidationErrors, MetadataErrors, FeeErrors, HedgeErrors;
    errors := a.freshness.ValidationErrors(now, AccountLabel);
    errors := errors + When(a.portfolioMarginEnabled, PortfolioMarginEnabled)
              + When(a.maintenanceMargin < 0.0, MaintenanceNegative)
              + When(a.liquidationDistanceRatio < 0.0, LiquidationNegative);
    var metadata := ValidateMetadata(a.symbolMetadata, now);
    var fees := ValidateFees(a.feePolicies, now);
    errors := errors + metadata + fees;
    if a.positionMode == Hedge {
      var hedge := ValidateHedgeBooks(a.symbolMetadata, a.positionBooks);
      errors := errors + hedge;
    }
  }

  // ---------------------------------------------------------------- orders, fills, events

  datatype PaperOrderType = Limit

  datatype PaperMarketQuote = PaperMarketQuote(
    symbol: Symbol, bestBid: real, bestAsk: real, bidSize: real, askSize: real, markPrice: real,
    fundingRateBps: real, shortHorizonVolatilityBps: real, freshness: Freshness)
  {
    function MidPrice(): real { (bestBid + bestAsk) / 2.0 }
    function Spread(): real { bestAsk - bestBid }
    function SpreadBps(): real {
      if MidPrice() <= 0.0 then 0.0 else Spread() / MidPrice() * 10000.0
    }
  }

  datatype PaperOrderIntent = PaperOrderIntent(
    symbol: Symbol, side: OrderSide, bookSide: BookSide, quantity: real, limitPrice: real,
    timeInForce: TimeInForce, orderType: PaperOrderType, postOnly: bool, reduceOnly: bool, allowTaker: bool,
    expectedAlphaBps: real, slippageBps: real, adverseSelectionBps: real, clientOrderId: string)
  {
    function Notional(): real { quantity * limitPrice }
  }

  datatype PaperFill = PaperFill(
    fillId: nat, orderId: nat, symbol: Symbol, side: OrderSide, bookSide: BookSide,
    quantity: real, price: real, fee: real, createdAt: Time)

  datatype PaperOrder = PaperOrder(
    orderId: nat, intent: PaperOrderIntent, status: OrderStatus, createdAt: Time, updatedAt: Time,
    fill: Option<PaperFill>, fills: seq<PaperFill>, filledQuantity: real)
  {
    function Remaining(): real { Max(0.0, intent.quantity - filledQuantity) }
    predicate IsOpen() { status == New || status == PartiallyFilled }
  }

  /** `order_id` of an event: a real order, or one of the two collective labels. */
  datatype Subject = ForOrder(orderId: nat) | AllOpenOrders | AllPositions

  datatype ReconciliationStatus = Matched | Rejected | CancelRecorded | Resting | PartialFill | ExpiryRecorded

  datatype ReconciliationEvent = ReconciliationEvent(
    eventId: nat, subject: Subject, status: ReconciliationStatus, reasons: seq<Reason>, createdAt: Time)

  // ---------------------------------------------------------------- defaults

  function FiltersFor(symbol: Symbol): SymbolFilters
    requires symbol == BTCUSDC || symbol == ETHUSDC
  {
    if symbol == BTCUSDC then
      SymbolFilters(0.1, 0.001, 0.001, 1000.0, 50.0, ["LIMIT"], [GTC, GTX])
    else
      SymbolFilters(0.01, 0.001, 0.001, 10000.0, 20.0, ["LIMIT"], [GTC, GTX])
  }

  function ExecutableMetadata(symbol: Symbol, now: Time): SymbolMetadata
    requires symbol == BTCUSDC || symbol == ETHUSDC
  {
    SymbolMetadata(symbol, Executable, "TRADING", Some("USDC"), Some("USDC"), Some(FiltersFor(symbol)), FreshAt(now))
  }

  function DefaultSymbolMetadata(now: Time): seq<SymbolMetadata> {
    [ExecutableMetadata(BTCUSDC, now), ExecutableMetadata(ETHUSDC, now),
     SymbolMetadata(SYN_ETHBTC, Derived, "NOT_EXECUTABLE", None, None, None, FreshAt(now)),
     SymbolMetadata(ETHBTC, Reference, "NOT_EXECUTABLE", None, None, None, FreshAt(now))]
  }

  function DefaultFeePolicies(now: Time): seq<FeePolicy> {
    [FeePolicy(BTCUSDC, 0.0001, 0.0004, FreshAt(now), None),
     FeePolicy(ETHUSDC, 0.0001, 0.0004, FreshAt(now), None)]
  }

  function FlatBook(symbol: Symbol, side: BookSide): PositionBook {
    PositionBook(symbol, side, 0.0, 0.0, 0.0, 0.0, 0.0)
  }

  function DefaultPositionBooks(): seq<PositionBook> {
    [FlatBook(BTCUSDC, Long), FlatBook(BTCUSDC, Short), FlatBook(ETHUSDC, Long), FlatBook(ETHUSDC, Short)]
  }

  function DefaultAccountState(now: Time): AccountState {
    AccountState(
      Hedge, false, [CollateralAsset("USDC", 100000.0, 100000.0, 0.0)],
      0.0, 1.0, 0.0, 0.0, DefaultPositionBooks(), DefaultSymbolMetadata(now), DefaultFeePolicies(now), FreshAt(now))
  }
}
