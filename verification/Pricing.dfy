/** Built-in quotes, queue-fill probability, expected edge, the maker-first policy and the
    order preview (services/paper_exchange/exchange.py, services/execution/policy.py). */
module Pricing {
  import opened Schemas
  import opened BookLaws

  /** `_default_quotes(now).get(symbol)` */
  function QuoteFor(symbol: Symbol, now: Time): Option<PaperMarketQuote> {
    if symbol == BTCUSDC then
      Some(PaperMarketQuote(BTCUSDC, 65000.0, 65000.5, 4.2, 3.8, 65000.25, 0.8, 12.0, FreshAt(now)))
    else if symbol == ETHUSDC then
      Some(PaperMarketQuote(ETHUSDC, 3200.0, 3200.05, 90.0, 84.0, 3200.025, 0.6, 15.0, FreshAt(now)))
    else None
  }

  /** The built-in market: marked at the mid, fresh, and quiet. */
  lemma BuiltInQuotes(symbol: Symbol, now: Time)
    ensures QuoteFor(symbol, now).Some? <==> symbol == BTCUSDC || symbol == ETHUSDC
    ensures QuoteFor(symbol, now).Some? ==>
              var q := QuoteFor(symbol, now).value;
              && q.symbol == symbol && 2.0 * q.markPrice == q.bestBid + q.bestAsk
              && q.freshness.sourceTimestamp == now && q.freshness.receivedTimestamp == now
              && q.bestAsk - q.bestBid == (if symbol == BTCUSDC then 0.5 else 0.05)
              && q.fundingRateBps == (if symbol == BTCUSDC then 0.8 else 0.6)
              && q.shortHorizonVolatilityBps == (if symbol == BTCUSDC then 12.0 else 15.0)
  {
  }

  /** The stand-in quote a preview computes with when there is none. */
  function MissingQuote(symbol: Symbol, now: Time): PaperMarketQuote {
    PaperMarketQuote(symbol, 0.0, 0.0, 0.0, 0.0, 0.0, 0.0, 0.0, FreshAt(now))
  }

  function MissingFeePolicy(symbol: Symbol, now: Time): FeePolicy {
    FeePolicy(symbol, 1.0, 1.0, FreshAt(now), None)
  }

  /** The first entry for a symbol, if any. */
  function MetadataFor(metadata: seq<SymbolMetadata>, symbol: Symbol): Option<SymbolMetadata> {
    if metadata == [] then None
    else if metadata[0].symbol == symbol then Some(metadata[0])
    else MetadataFor(metadata[1..], symbol)
  }

  function FeeFor(policies: seq<FeePolicy>, symbol: Symbol): Option<FeePolicy> {
    if policies == [] then None
    else if policies[0].symbol == symbol then Some(policies[0])
    else FeeFor(policies[1..], symbol)
  }

  method FindMetadata(metadata: seq<SymbolMetadata>, symbol: Symbol) returns (r: Option<SymbolMetadata>)
    ensures r == MetadataFor(metadata, symbol)
  {
    for i := 0 to |metadata|
      invariant MetadataFor(metadata, symbol) == MetadataFor(metadata[i..], symbol)
    {
      if metadata[i].symbol == symbol { return Some(metadata[i]); }
    }
    return None;
  }

  method FindFee(policies: seq<FeePolicy>, symbol: Symbol) returns (r: Option<FeePolicy>)
    ensures r == FeeFor(policies, symbol)
  {
    for i := 0 to |policies|
      invariant FeeFor(policies, symbol) == FeeFor(policies[i..], symbol)
    {
      if policies[i].symbol == symbol { return Some(policies[i]); }
    }
    return None;
  }

  /** The rate fills are charged: the policy's maker rate, zero without a policy. */
  function MakerRate(policies: seq<FeePolicy>, symbol: Symbol): real {
    var policy := FeeFor(policies, symbol);
    if policy == None then 0.0 else policy.value.makerFeeRate
  }

  /** The metadata found is the first of the symbol in the list. */
  lemma {:induction false} MetadataForIsFirst(metadata: seq<SymbolMetadata>, symbol: Symbol)
    ensures match MetadataFor(metadata, symbol)
            case None => forall i :: 0 <= i < |metadata| ==> metadata[i].symbol != symbol
            case Some(m) => exists i :: 0 <= i < |metadata| && metadata[i] == m && m.symbol == symbol
                                        && forall j :: 0 <= j < i ==> metadata[j].symbol != symbol
  {
    if metadata != [] && metadata[0].symbol != symbol {
      MetadataForIsFirst(metadata[1..], symbol);
      if MetadataFor(metadata, symbol).Some? {
        var m := MetadataFor(metadata, symbol).value;
        var i :| 0 <= i < |metadata[1..]| && metadata[1..][i] == m && m.symbol == symbol
                 && forall j :: 0 <= j < i ==> metadata[1..][j].symbol != symbol;
        forall j | 0 <= j < i + 1 ensures metadata[j].symbol != symbol {
          if j > 0 { assert metadata[j] == metadata[1..][j - 1]; }
        }
        assert metadata[i + 1] == m;
      } else {
        forall i | 0 <= i < |metadata| ensures metadata[i].symbol != symbol {
          if i > 0 { assert metadata[i] == metadata[1..][i - 1]; }
        }
      }
    }
  }

  /** So is the fee policy; its maker rate is charged, and nothing without one. */
  lemma {:induction false} FeeForIsFirst(policies: seq<FeePolicy>, symbol: Symbol)
    ensures match FeeFor(policies, symbol)
            case None =>
              (forall i :: 0 <= i < |policies| ==> policies[i].symbol != symbol) && MakerRate(policies, symbol) == 0.0
            case Some(p) =>
              && MakerRate(policies, symbol) == p.makerFeeRate
              && exists i :: 0 <= i < |policies| && policies[i] == p && p.symbol == symbol
                             && forall j :: 0 <= j < i ==> policies[j].symbol != symbol
  {
    if policies != [] && policies[0].symbol != symbol {
      FeeForIsFirst(policies[1..], symbol);
      if FeeFor(policies, symbol).Some? {
        var p := FeeFor(policies, symbol).value;
        var i :| 0 <= i < |policies[1..]| && policies[1..][i] == p && p.symbol == symbol
                 && forall j :: 0 <= j < i ==> policies[1..][j].symbol != symbol;
        forall j | 0 <= j < i + 1 ensures policies[j].symbol != symbol {
          if j > 0 { assert policies[j] == policies[1..][j - 1]; }
        }
        assert policies[i + 1] == p;
      } else {
        forall i | 0 <= i < |policies| ensures policies[i].symbol != symbol {
          if i > 0 { assert policies[i] == policies[1..][i - 1]; }
        }
      }
    }
  }

  // ---------------------------------------------------------------- alignment

  /** `value % step == 0` for a positive step. */
  predicate IsMultiple(value: real, step: real) {
    step > 0.0 && (value / step).Floor as real == value / step
  }

  function Steps(k: int, step: real): real { k as real * step }

  lemma IsMultipleMeansWholeSteps(value: real, step: real)
    ensures IsMultiple(value, step) <==> step > 0.0 && exists k: int :: value == Steps(k, step)
  {
    if step > 0.0 {
      DivMul(value, step);
      if IsMultiple(value, step) {
        assert value == Steps((value / step).Floor, step);
      }
      if k: int :| value == Steps(k, step) {
        assert (value / step - k as real) * step == 0.0;
        assert value / step == k as real;
      }
    }
  }

  // ---------------------------------------------------------------- maker-first policy

  predicate WouldCross(intent: PaperOrderIntent, quote: PaperMarketQuote) {
    if intent.side == Buy then intent.limitPrice >= quote.bestAsk else intent.limitPrice <= quote.bestBid
  }

  function MakerFirstReasons(intent: PaperOrderIntent, quote: PaperMarketQuote, takerGateEnabled: bool): seq<Reason> {
    When(intent.timeInForce != GTX, NotGtx)
    + When(!intent.postOnly, NotPostOnly)
    + When(intent.allowTaker && !takerGateEnabled, TakerNotEnabled)
    + When(intent.postOnly && WouldCross(intent, quote), PostOnlyWouldCross)
  }

  // ---------------------------------------------------------------- queue-fill probability

  datatype Placement = BetterThanTouch | AtTouch | BehindTouch

  function PlacementOf(intent: PaperOrderIntent, quote: PaperMarketQuote): Placement {
    if intent.side == Buy then
      if intent.limitPrice > quote.bestBid then BetterThanTouch
      else if intent.limitPrice == quote.bestBid then AtTouch
      else BehindTouch
    else
      if intent.limitPrice < quote.bestAsk then BetterThanTouch
      else if intent.limitPrice == quote.bestAsk then AtTouch
      else BehindTouch
  }

  function BaseProbability(p: Placement): real {
    match p case BetterThanTouch => 0.78 case AtTouch => 0.58 case BehindTouch => 0.32
  }

  /** Size on the far side minus size on the order's own side, relative to both. */
  function ImbalanceBonus(side: OrderSide, quote: PaperMarketQuote): real
    requires quote.bidSize + quote.askSize != 0.0
  {
    if side == Buy then (quote.askSize - quote.bidSize) / (quote.bidSize + quote.askSize)
    else (quote.bidSize - quote.askSize) / (quote.bidSize + quote.askSize)
  }

  function QueueFillProbability(intent: PaperOrderIntent, quote: PaperMarketQuote): real
    requires quote.bidSize + quote.askSize != 0.0
  {
    var probability := BaseProbability(PlacementOf(intent, quote)) + ImbalanceBonus(intent.side, quote) * 0.15;
    Min(0.95, Max(0.05, probability))
  }

  lemma RelativeDifference(a: real, b: real)
    requires a > 0.0 && b > 0.0
    ensures -1.0 < (a - b) / (b + a) < 1.0
  {
    var r := (a - b) / (b + a);
    DivMul(a - b, b + a);
    assert (1.0 - r) * (b + a) == 2.0 * b && (r + 1.0) * (b + a) == 2.0 * a;
    PositiveFactor(1.0 - r, b + a);
    PositiveFactor(r + 1.0, b + a);
  }

  /** The base and the sign of the size difference, by side and by limit price against the touch. */
  predicate ProbabilityIs(p: real, intent: PaperOrderIntent, quote: PaperMarketQuote) {
    var depth := quote.bidSize + quote.askSize;
    if intent.side == Buy then
      var base := if intent.limitPrice > quote.bestBid then 0.78
                  else if intent.limitPrice == quote.bestBid then 0.58 else 0.32;
      (p - base) * depth == 0.15 * (quote.askSize - quote.bidSize)
    else
      var base := if intent.limitPrice < quote.bestAsk then 0.78
                  else if intent.limitPrice == quote.bestAsk then 0.58 else 0.32;
      (p - base) * depth == 0.15 * (quote.bidSize - quote.askSize)
  }

  /** The probability in prices and sizes, for any quote with positive sizes. */
  lemma ProbabilityInSizes(intent: PaperOrderIntent, quote: PaperMarketQuote)
    requires quote.bidSize > 0.0 && quote.askSize > 0.0
    ensures ProbabilityIs(QueueFillProbability(intent, quote), intent, quote)
  {
    hide QueueFillProbability, ImbalanceBonus;
    ProbabilityByPlacement(intent, quote);
    BonusInSizes(intent.side, quote);
    Scaled(QueueFillProbability(intent, quote), BaseProbability(PlacementOf(intent, quote)),
           ImbalanceBonus(intent.side, quote), quote.bidSize + quote.askSize);
  }

  lemma BonusInSizes(side: OrderSide, quote: PaperMarketQuote)
    requires quote.bidSize + quote.askSize > 0.0
    ensures ImbalanceBonus(side, quote) * (quote.bidSize + quote.askSize)
            == if side == Buy then quote.askSize - quote.bidSize else quote.bidSize - quote.askSize
  {
    DivMul(quote.askSize - quote.bidSize, quote.bidSize + quote.askSize);
    DivMul(quote.bidSize - quote.askSize, quote.bidSize + quote.askSize);
  }

  lemma Scaled(p: real, base: real, bonus: real, depth: real)
    requires p == base + bonus * 0.15
    ensures (p - base) * depth == 0.15 * (bonus * depth)
  {
  }

  /** For any sizes that do not cancel out the probability is that number cut to 0.05 and 0.95. */
  lemma ProbabilityIsClamped(intent: PaperOrderIntent, quote: PaperMarketQuote, x: real)
    requires quote.bidSize + quote.askSize != 0.0 && ProbabilityIs(x, intent, quote)
    ensures QueueFillProbability(intent, quote) == if x < 0.05 then 0.05 else if x > 0.95 then 0.95 else x
  {
    var depth, base := quote.bidSize + quote.askSize, BaseProbability(PlacementOf(intent, quote));
    var bonus := ImbalanceBonus(intent.side, quote);
    DivMul(quote.askSize - quote.bidSize, depth);
    DivMul(quote.bidSize - quote.askSize, depth);
    hide ImbalanceBonus;
    SameQuotient(x - base, bonus * 0.15, depth, 0.15 * (bonus * depth));
  }

  lemma SameQuotient(x: real, y: real, d: real, z: real)
    requires d != 0.0 && x * d == z && y * d == z
    ensures x == y
  {
    assert (x - y) * d == 0.0;
  }

  /** The thresholds by sizes, for orders at the touch and behind it: an order at the touch fills whole at once exactly
      when the far side outweighs its own by 2 parts in 15, one behind it fills half exactly unless its own
      outweighs the far side by more than 7 in 15. */
  lemma ThresholdsInSizes(intent: PaperOrderIntent, quote: PaperMarketQuote)
    requires quote.bidSize > 0.0 && quote.askSize > 0.0
    ensures var p := QueueFillProbability(intent, quote);
            var (own, far, touch) := if intent.side == Buy then (quote.bidSize, quote.askSize, quote.bestBid)
                                     else (quote.askSize, quote.bidSize, quote.bestAsk);
            var behind := if intent.side == Buy then intent.limitPrice < touch else intent.limitPrice > touch;
            && (intent.limitPrice == touch ==> (p >= 0.6 <==> 15.0 * (far - own) >= 2.0 * (far + own)) && p >= 0.25)
            && (behind ==> (p >= 0.25 <==> 15.0 * (own - far) <= 7.0 * (far + own)) && p < 0.6)
            && (intent.limitPrice != touch && !behind ==> p >= 0.6)
  {
    ProbabilityByPlacement(intent, quote);
    var depth := quote.bidSize + quote.askSize;
    var difference :=
      if intent.side == Buy then quote.askSize - quote.bidSize else quote.bidSize - quote.askSize;
    var bonus := ImbalanceBonus(intent.side, quote);
    BonusInSizes(intent.side, quote);
    hide QueueFillProbability, ImbalanceBonus;
    AtLeastRatio(bonus, depth, difference, 2.0);
    AtLeastRatio(bonus, depth, difference, -7.0);
  }

  lemma AtLeastRatio(bonus: real, depth: real, difference: real, k: real)
    requires depth > 0.0 && bonus * depth == difference
    ensures bonus * 15.0 >= k <==> 15.0 * difference >= k * depth
  {
    var gap := bonus * 15.0 - k;
    assert gap * depth == 15.0 * difference - k * depth;
    if gap >= 0.0 { LargerFactor(depth, 0.0, gap); } else { NegativeProduct(gap, depth); }
  }

  lemma NegativeProduct(x: real, y: real)
    requires x < 0.0 && y > 0.0
    ensures x * y < 0.0
  {
  }

  /** Under the built-in quotes, in numbers. */
  lemma BuiltInProbabilityInNumbers(intent: PaperOrderIntent, now: Time)
    requires intent.symbol == BTCUSDC || intent.symbol == ETHUSDC
    ensures QuoteFor(intent.symbol, now).Some?
    ensures var quote := QuoteFor(intent.symbol, now).value;
            && quote.bidSize + quote.askSize > 0.0
            && BuiltInProbabilityIs(QueueFillProbability(intent, quote), intent)
  {
    ProbabilityInSizes(intent, QuoteFor(intent.symbol, now).value);
  }

  /** Bitcoin leans 0.0075 towards sells, ether 0.9 parts in 174. */
  predicate BuiltInProbabilityIs(p: real, intent: PaperOrderIntent) {
    var (bid, ask) := if intent.symbol == BTCUSDC then (65000.0, 65000.5) else (3200.0, 3200.05);
    var base :=
      if intent.side == Buy then
        if intent.limitPrice > bid then 0.78 else if intent.limitPrice == bid then 0.58 else 0.32
      else if intent.limitPrice < ask then 0.78 else if intent.limitPrice == ask then 0.58 else 0.32;
    if intent.symbol == BTCUSDC then p == if intent.side == Buy then base - 0.0075 else base + 0.0075
    else (p - base) * 174.0 == if intent.side == Buy then -0.9 else 0.9
  }

  /** With both sizes positive the clamp never binds.  An order better than the touch always
      clears the full-fill threshold, one behind it never does but always clears the half-fill
      threshold short of a five-to-one adverse book, and one at the touch clears the full-fill
      threshold exactly when the far side is deep enough. */
  lemma ProbabilityByPlacement(intent: PaperOrderIntent, quote: PaperMarketQuote)
    requires quote.bidSize > 0.0 && quote.askSize > 0.0
    ensures var p := QueueFillProbability(intent, quote);
            var bonus := ImbalanceBonus(intent.side, quote);
            && 0.17 < p < 0.93
            && p == BaseProbability(PlacementOf(intent, quote)) + bonus * 0.15
            && match PlacementOf(intent, quote)
               case BetterThanTouch => p >= 0.6
               case AtTouch => 0.25 <= p && (p >= 0.6 <==> bonus * 15.0 >= 2.0)
               case BehindTouch => p < 0.6 && (p >= 0.25 <==> bonus * 15.0 >= -7.0)
  {
    if intent.side == Buy {
      RelativeDifference(quote.askSize, quote.bidSize);
    } else {
      RelativeDifference(quote.bidSize, quote.askSize);
      assert quote.askSize + quote.bidSize == quote.bidSize + quote.askSize;
    }
  }

  /** The built-in quotes are near balance: every order clears the half-fill threshold, and
      exactly the orders priced better than the touch clear the full-fill threshold. */
  lemma BuiltInProbability(intent: PaperOrderIntent, now: Time)
    requires QuoteFor(intent.symbol, now).Some?
    ensures var quote := QuoteFor(intent.symbol, now).value;
            && quote.bidSize > 0.0 && quote.askSize > 0.0
            && QueueFillProbability(intent, quote) >= 0.25
            && (QueueFillProbability(intent, quote) >= 0.6 <==> PlacementOf(intent, quote) == BetterThanTouch)
  {
    var quote := QuoteFor(intent.symbol, now).value;
    var bonus := ImbalanceBonus(intent.side, quote);
    ProbabilityByPlacement(intent, quote);
    assert -0.1 < bonus < 0.1 by {
      if intent.symbol == BTCUSDC {
        assert quote.bidSize + quote.askSize == 8.0;
      } else {
        assert quote.bidSize + quote.askSize == 174.0;
      }
    }
  }

  // ---------------------------------------------------------------- expected edge

  datatype ExpectedEdge = ExpectedEdge(
    notional: real, grossEdge: real, makerFee: real, takerFee: real, slippageCost: real,
    fundingCost: real, adverseSelectionCost: real, afterCosts: real)

  /** Gross edge less every cost; `alpha`, `slip`, `funding` and `adverse` in basis points. */
  function EdgeAfterCosts(
    notional: real, alpha: real, maker: real, taker: real, slip: real, funding: real, adverse: real): real
  {
    notional * alpha / 10000.0 - notional * maker - notional * taker - notional * slip / 10000.0
    - notional * funding / 10000.0 - notional * adverse / 10000.0
  }

  function TakerRate(intent: PaperOrderIntent, fee: FeePolicy): real {
    if intent.allowTaker then fee.takerFeeRate else 0.0
  }

  function CalculateExpectedEdge(intent: PaperOrderIntent, fee: FeePolicy, quote: PaperMarketQuote): ExpectedEdge {
    var notional := intent.Notional();
    var taker := TakerRate(intent, fee);
    var funding := Abs(quote.fundingRateBps);
    ExpectedEdge(
      notional, notional * intent.expectedAlphaBps / 10000.0, notional * fee.makerFeeRate, notional * taker,
      notional * intent.slippageBps / 10000.0, notional * funding / 10000.0,
      notional * intent.adverseSelectionBps / 10000.0,
      EdgeAfterCosts(notional, intent.expectedAlphaBps, fee.makerFeeRate, taker, intent.slippageBps, funding,
                     intent.adverseSelectionBps))
  }

  /** What an order must beat, in basis points of its notional. */
  function HurdleBps(intent: PaperOrderIntent, fee: FeePolicy, quote: PaperMarketQuote): real {
    10000.0 * (fee.makerFeeRate + TakerRate(intent, fee))
    + intent.slippageBps + Abs(quote.fundingRateBps) + intent.adverseSelectionBps
  }

  lemma ScaledEdge(n: real, alpha: real, maker: real, taker: real, slip: real, funding: real, adverse: real)
    requires n > 0.0
    ensures EdgeAfterCosts(n, alpha, maker, taker, slip, funding, adverse) > 0.0
            <==> alpha > 10000.0 * (maker + taker) + slip + funding + adverse
  {
    var gap := alpha - (10000.0 * (maker + taker) + slip + funding + adverse);
    assert EdgeAfterCosts(n, alpha, maker, taker, slip, funding, adverse) == n * gap / 10000.0;
    if gap > 0.0 { assert n * gap > 0.0; } else { assert n * gap <= 0.0; }
  }

  /** The edge test does not depend on size: an order with positive notional passes exactly
      when its expected alpha beats the hurdle. */
  lemma EdgeIsScaleFree(intent: PaperOrderIntent, fee: FeePolicy, quote: PaperMarketQuote)
    requires intent.Notional() > 0.0
    ensures CalculateExpectedEdge(intent, fee, quote).afterCosts > 0.0
            <==> intent.expectedAlphaBps > HurdleBps(intent, fee, quote)
  {
    ScaledEdge(intent.Notional(), intent.expectedAlphaBps, fee.makerFeeRate, TakerRate(intent, fee),
               intent.slippageBps, Abs(quote.fundingRateBps), intent.adverseSelectionBps);
  }

  /** Each field of the edge in money: notional times its rate, basis points over 10000. */
  predicate EdgeIs(
    e: ExpectedEdge, intent: PaperOrderIntent, makerRate: real, takerRate: real, fundingBps: real)
  {
    var notional := intent.quantity * intent.limitPrice;
    && e.notional == notional
    && 10000.0 * e.grossEdge == notional * intent.expectedAlphaBps
    && e.makerFee == notional * makerRate
    && e.takerFee == (if intent.allowTaker then notional * takerRate else 0.0)
    && 10000.0 * e.slippageCost == notional * intent.slippageBps
    && 10000.0 * e.fundingCost == notional * (if fundingBps < 0.0 then -fundingBps else fundingBps)
    && 10000.0 * e.adverseSelectionCost == notional * intent.adverseSelectionBps
    && e.afterCosts == e.grossEdge - e.makerFee - e.takerFee - e.slippageCost - e.fundingCost - e.adverseSelectionCost
  }

  lemma EdgeInMoney(intent: PaperOrderIntent, fee: FeePolicy, quote: PaperMarketQuote)
    ensures EdgeIs(CalculateExpectedEdge(intent, fee, quote), intent, fee.makerFeeRate, fee.takerFeeRate,
                   quote.fundingRateBps)
  {
  }

  lemma EdgeOverHurdle(n: real, alpha: real, maker: real, taker: real, slip: real, funding: real, adverse: real)
    ensures 10000.0 * EdgeAfterCosts(n, alpha, maker, taker, slip, funding, adverse)
            == n * (alpha - (10000.0 * maker + 10000.0 * taker + slip + funding + adverse))
  {
  }

  /** The whole edge: notional times what alpha exceeds the hurdle by, the hurdle being both fees, slippage,
      funding in either direction and adverse selection. */
  lemma EdgeAgainstHurdle(intent: PaperOrderIntent, fee: FeePolicy, quote: PaperMarketQuote)
    ensures var funding := if quote.fundingRateBps < 0.0 then -quote.fundingRateBps else quote.fundingRateBps;
            var taker := if intent.allowTaker then 10000.0 * fee.takerFeeRate else 0.0;
            var hurdle :=
              10000.0 * fee.makerFeeRate + taker + intent.slippageBps + funding + intent.adverseSelectionBps;
            10000.0 * CalculateExpectedEdge(intent, fee, quote).afterCosts
            == intent.quantity * intent.limitPrice * (intent.expectedAlphaBps - hurdle)
  {
    EdgeOverHurdle(intent.Notional(), intent.expectedAlphaBps, fee.makerFeeRate, TakerRate(intent, fee),
                   intent.slippageBps, Abs(quote.fundingRateBps), intent.adverseSelectionBps);
  }

  /** Doubling the quantity doubles every field. */
  lemma EdgeDoubles(intent: PaperOrderIntent, fee: FeePolicy, quote: PaperMarketQuote)
    ensures var e := CalculateExpectedEdge(intent, fee, quote);
            var twice := CalculateExpectedEdge(intent.(quantity := 2.0 * intent.quantity), fee, quote);
            && twice.notional == 2.0 * e.notional && twice.grossEdge == 2.0 * e.grossEdge
            && twice.makerFee == 2.0 * e.makerFee && twice.takerFee == 2.0 * e.takerFee
            && twice.slippageCost == 2.0 * e.slippageCost && twice.fundingCost == 2.0 * e.fundingCost
            && twice.adverseSelectionCost == 2.0 * e.adverseSelectionCost && twice.afterCosts == 2.0 * e.afterCosts
  {
    hide EdgeAfterCosts;
    var double := intent.(quantity := 2.0 * intent.quantity);
    EdgeInMoney(intent, fee, quote);
    EdgeInMoney(double, fee, quote);
    DoubledProduct(intent.quantity, intent.limitPrice);
  }

  lemma DoubledProduct(q: real, p: real)
    ensures 2.0 * q * p == 2.0 * (q * p)
  {
  }

  /** The mid and the spread in basis points, in quotes. */
  lemma SpreadInBps(quote: PaperMarketQuote)
    ensures 2.0 * quote.MidPrice() == quote.bestBid + quote.bestAsk && quote.Spread() == quote.bestAsk - quote.bestBid
    ensures if quote.bestBid + quote.bestAsk > 0.0
            then quote.SpreadBps() * (quote.bestBid + quote.bestAsk) == 20000.0 * (quote.bestAsk - quote.bestBid)
            else quote.SpreadBps() == 0.0
  {
    if quote.MidPrice() > 0.0 {
      var r := quote.Spread() / quote.MidPrice();
      DivMul(quote.Spread(), quote.MidPrice());
      assert r * 10000.0 * (quote.bestBid + quote.bestAsk) == 20000.0 * (r * quote.MidPrice());
    }
  }

  // ---------------------------------------------------------------- preview

  datatype PaperOrderPreview = PaperOrderPreview(
    intent: PaperOrderIntent, accepted: bool, reasons: seq<Reason>, postOnlyWouldCross: bool,
    expectedEdge: ExpectedEdge)

  function FilterReasons(intent: PaperOrderIntent, filters: SymbolFilters): seq<Reason> {
    When(intent.quantity <= 0.0, QuantityNotPositive)
    + When(intent.limitPrice <= 0.0, PriceNotPositive)
    + When(!IsMultiple(intent.quantity, filters.lotSize), QuantityOffLot)
    + When(!IsMultiple(intent.limitPrice, filters.tickSize), PriceOffTick)
    + When(intent.Notional() < filters.minNotional, BelowMinNotional)
  }

  function InstrumentReasons(a: AccountState, intent: PaperOrderIntent, now: Time): seq<Reason> {
    match MetadataFor(a.symbolMetadata, intent.symbol)
    case None => [MetadataUnavailable]
    case Some(m) =>
      if !m.IsExecutable() then [NotExecutable]
      else if m.filters == None then [FiltersUnavailable]
      else m.ValidationErrors(now) + FilterReasons(intent, m.filters.value)
  }

  function FeeReasons(a: AccountState, symbol: Symbol, now: Time): seq<Reason> {
    match FeeFor(a.feePolicies, symbol)
    case None => [FeePolicyUnavailable]
    case Some(policy) => policy.ValidationErrors(now)
  }

  function QuoteReasons(symbol: Symbol, now: Time): seq<Reason> {
    match QuoteFor(symbol, now)
    case None => [QuoteUnavailable]
    case Some(quote) => quote.freshness.ValidationErrors(now, QuoteLabel(symbol))
  }

  function PreviewFee(a: AccountState, symbol: Symbol, now: Time): FeePolicy {
    match FeeFor(a.feePolicies, symbol) case None => MissingFeePolicy(symbol, now) case Some(policy) => policy
  }

  function PreviewQuote(symbol: Symbol, now: Time): PaperMarketQuote {
    match QuoteFor(symbol, now) case None => MissingQuote(symbol, now) case Some(quote) => quote
  }

  function Preview(a: AccountState, halted: bool, takerGateEnabled: bool, intent: PaperOrderIntent, now: Time)
    : PaperOrderPreview
  {
    var quote := PreviewQuote(intent.symbol, now);
    var edge := CalculateExpectedEdge(intent, PreviewFee(a, intent.symbol, now), quote);
    var reasons :=
      When(halted, ExchangeHalted)
      + InstrumentReasons(a, intent, now)
      + FeeReasons(a, intent.symbol, now)
      + QuoteReasons(intent.symbol, now)
      + MakerFirstReasons(intent, quote, takerGateEnabled)
      + When(edge.afterCosts <= 0.0, EdgeNotPositive);
    PaperOrderPreview(intent, reasons == [], reasons, WouldCross(intent, quote), edge)
  }

  /** An accepted preview rests safely: the exchange runs, the instrument is tradable, quantity
      and price are positive and aligned, the order is large enough, does not cross the book,
      and beats its cost hurdle.  Nothing else is asked once the records are in order. */
  lemma PreviewAccepts(a: AccountState, halted: bool, takerGateEnabled: bool, intent: PaperOrderIntent, now: Time)
    ensures Preview(a, halted, takerGateEnabled, intent, now).accepted <==>
      var m := MetadataFor(a.symbolMetadata, intent.symbol);
      var fee := FeeFor(a.feePolicies, intent.symbol);
      var quote := QuoteFor(intent.symbol, now);
      && !halted
      && m.Some? && m.value.IsExecutable() && m.value.filters.Some? && m.value.ValidationErrors(now) == []
      && fee.Some? && fee.value.ValidationErrors(now) == []
      && quote.Some?
      && intent.quantity > 0.0 && intent.limitPrice > 0.0
      && IsMultiple(intent.quantity, m.value.filters.value.lotSize)
      && IsMultiple(intent.limitPrice, m.value.filters.value.tickSize)
      && intent.Notional() >= m.value.filters.value.minNotional
      && intent.timeInForce == GTX && intent.postOnly && (intent.allowTaker ==> takerGateEnabled)
      && (if intent.side == Buy then intent.limitPrice < quote.value.bestAsk
          else intent.limitPrice > quote.value.bestBid)
      && intent.expectedAlphaBps > HurdleBps(intent, fee.value, quote.value)
  {
    var quote := PreviewQuote(intent.symbol, now);
    var fee := PreviewFee(a, intent.symbol, now);
    if intent.quantity > 0.0 && intent.limitPrice > 0.0 {
      assert intent.Notional() > 0.0;
      EdgeIsScaleFree(intent, fee, quote);
    }
    assert QuoteFor(intent.symbol, now).Some? ==> QuoteReasons(intent.symbol, now) == [];
  }

  /** Whatever the verdict, a preview carries the intent, whether it would cross the book, and the edge in money: at the
      first fee policy of the symbol and the built-in funding, or with full fees and no funding where there is none. */
  lemma PreviewCarries(a: AccountState, halted: bool, takerGateEnabled: bool, intent: PaperOrderIntent, now: Time)
    ensures var p := Preview(a, halted, takerGateEnabled, intent, now);
            var (bid, ask, funding) :=
              if intent.symbol == BTCUSDC then (65000.0, 65000.5, 0.8)
              else if intent.symbol == ETHUSDC then (3200.0, 3200.05, 0.6) else (0.0, 0.0, 0.0);
            var fee := FeeFor(a.feePolicies, intent.symbol);
            var (maker, taker) := if fee.Some? then (fee.value.makerFeeRate, fee.value.takerFeeRate) else (1.0, 1.0);
            && p.intent == intent && (p.accepted <==> p.reasons == [])
            && (p.postOnlyWouldCross <==>
                 if intent.side == Buy then intent.limitPrice >= ask else intent.limitPrice <= bid)
            && EdgeIs(p.expectedEdge, intent, maker, taker, funding)
  {
    hide InstrumentReasons, FeeReasons, QuoteReasons, MakerFirstReasons, CalculateExpectedEdge;
    EdgeInMoney(intent, PreviewFee(a, intent.symbol, now), PreviewQuote(intent.symbol, now));
  }
}
