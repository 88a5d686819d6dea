/** The replay feature pipeline (services/market_data/replay.py): single-pass dictionaries over
    market snapshots, the synthetic ETH/BTC instrument and per-row features. */
module MarketReplay {
  import opened Schemas
  import opened BookLaws

  datatype Snapshot = Snapshot(
    symbol: Symbol, timestamp: Time, receiveTimestamp: Time, bid: real, ask: real, bidSize: real, askSize: real,
    buyTradeQty: real, sellTradeQty: real, fundingRateBps: real, openInterest: real, liquidationNotional: real,
    latencyMs: int)
  {
    function Mid(): real { (bid + ask) / 2.0 }
    function Spread(): real { ask - bid }
    function DepthTotal(): real { bidSize + askSize }
  }

  datatype Synthetic = Synthetic(
    timestamp: Time, mid: real, bid: real, ask: real, spread: real, legTimestampSkewMs: int, isStale: bool)

  datatype Feature = Feature(
    timestamp: Time, symbol: Symbol, orderBookImbalance: real, microprice: real, spread: real, depthSlope: real,
    tradeAggression: real, shortHorizonReturnBps: real, realizedVolatilityBps: real, fundingRateBps: real,
    openInterest: real, liquidationNotional: real, latencyAdjustedReturnBps: real, synthetic: Option<Synthetic>)

  type Siblings = map<Symbol, Snapshot>

  const STALE_AFTER_MS := 250

  function AbsInt(x: int): int { if x < 0 then -x else x }

  predicate Derivable(btc: Snapshot) {
    btc.ask != 0.0 && btc.bid != 0.0 && btc.Mid() != 0.0
  }

  function DeriveSyntheticEthBtc(eth: Snapshot, btc: Snapshot): Synthetic
    requires Derivable(btc)
  {
    var skew := AbsInt(eth.receiveTimestamp - btc.receiveTimestamp) / 1000;
    var bid, ask := eth.bid / btc.ask, eth.ask / btc.bid;
    Synthetic(if eth.timestamp < btc.timestamp then btc.timestamp else eth.timestamp,
              eth.Mid() / btc.Mid(), bid, ask, ask - bid, skew, skew > STALE_AFTER_MS)
  }

  function ShortReturnBps(s: Snapshot, previous: Option<Snapshot>): real {
    if previous.Some? && previous.value.Mid() > 0.0
    then (s.Mid() - previous.value.Mid()) / previous.value.Mid() * 10000.0
    else 0.0
  }

  /** `depth_slope` divides by the depth total without a guard, so a zero total is an error. */
  function FeatureFor(s: Snapshot, previous: Option<Snapshot>, synthetic: Option<Synthetic>): Feature
    requires s.DepthTotal() != 0.0
  {
    var depth := s.DepthTotal();
    var trades := s.buyTradeQty + s.sellTradeQty;
    var imbalance := if depth > 0.0 then (s.bidSize - s.askSize) / depth else 0.0;
    var microprice := if depth > 0.0 then (s.ask * s.bidSize + s.bid * s.askSize) / depth else s.Mid();
    var aggression := if trades > 0.0 then (s.buyTradeQty - s.sellTradeQty) / trades else 0.0;
    var ret := ShortReturnBps(s, previous);
    Feature(s.timestamp, s.symbol, imbalance, microprice, s.Spread(), (s.askSize - s.bidSize) / depth, aggression,
            ret, Abs(ret), s.fundingRateBps, s.openInterest, s.liquidationNotional,
            ret - s.latencyMs as real * 0.01, synthetic)
  }

  // ---------------------------------------------------------------- simple specifications of the dictionaries

  /** The snapshots of one timestamp by symbol, the latest in the list winning: the payload's
      quadratic regrouping. */
  function AtTime(rows: seq<Snapshot>, t: Time): Siblings {
    if rows == [] then map[]
    else
      var s := rows[|rows| - 1];
      var rest := AtTime(rows[..|rows| - 1], t);
      if s.timestamp == t then rest[s.symbol := s] else rest
  }

  /** The last snapshot of a symbol. */
  function LastOf(rows: seq<Snapshot>, symbol: Symbol): Option<Snapshot> {
    if rows == [] then None
    else if rows[|rows| - 1].symbol == symbol then Some(rows[|rows| - 1])
    else LastOf(rows[..|rows| - 1], symbol)
  }

  /** It is the nearest: present exactly if the symbol occurs, with no later occurrence. */
  lemma {:induction false} LastOfIsNearest(rows: seq<Snapshot>, symbol: Symbol)
    ensures match LastOf(rows, symbol)
            case None => forall i :: 0 <= i < |rows| ==> rows[i].symbol != symbol
            case Some(s) =>
              exists i :: 0 <= i < |rows| && rows[i] == s && s.symbol == symbol
                          && forall j :: i < j < |rows| ==> rows[j].symbol != symbol
  {
    if rows != [] && rows[|rows| - 1].symbol != symbol {
      var n := |rows| - 1;
      LastOfIsNearest(rows[..n], symbol);
      if LastOf(rows, symbol).Some? {
        var i :| 0 <= i < n && rows[..n][i] == LastOf(rows, symbol).value && rows[i].symbol == symbol
                 && forall j :: i < j < n ==> rows[..n][j].symbol != symbol;
        assert rows[i] == LastOf(rows, symbol).value;
        forall j | i < j < |rows| ensures rows[j].symbol != symbol {
          if j < n { assert rows[..n][j].symbol != symbol; }
        }
      }
    } else if rows != [] {
      assert rows[|rows| - 1] == LastOf(rows, symbol).value;
    }
  }

  predicate HasBothLegs(siblings: Siblings) {
    ETHUSDC in siblings && BTCUSDC in siblings
  }

  /** The source computes this row without dividing by zero. */
  predicate Computable(rows: seq<Snapshot>, s: Snapshot) {
    var siblings := AtTime(rows, s.timestamp);
    s.DepthTotal() != 0.0 && (HasBothLegs(siblings) ==> Derivable(siblings[BTCUSDC]))
  }

  function SyntheticOf(siblings: Siblings): Option<Synthetic>
    requires HasBothLegs(siblings) ==> Derivable(siblings[BTCUSDC])
  {
    if HasBothLegs(siblings) then Some(DeriveSyntheticEthBtc(siblings[ETHUSDC], siblings[BTCUSDC])) else None
  }

  /** The feature of the `i`-th row: its own snapshot, the nearest earlier one of its symbol,
      and the synthetic of its timestamp's group. */
  function FeatureAt(rows: seq<Snapshot>, i: nat): Feature
    requires i < |rows| && Computable(rows, rows[i])
  {
    FeatureFor(rows[i], LastOf(rows[..i], rows[i].symbol), SyntheticOf(AtTime(rows, rows[i].timestamp)))
  }

  // ---------------------------------------------------------------- the single-pass loops

  predicate Occurs(rows: seq<Snapshot>, t: Time) {
    exists s :: s in rows && s.timestamp == t
  }

  /** `by_time.setdefault(timestamp, {})[symbol] = snapshot`, row by row. */
  method GroupByTime(rows: seq<Snapshot>) returns (byTime: map<Time, Siblings>)
    ensures forall t :: t in byTime <==> Occurs(rows, t)
    ensures forall t :: t in byTime ==> byTime[t] == AtTime(rows, t)
  {
    byTime := map[];
    for i := 0 to |rows|
      invariant forall t :: t in byTime <==> Occurs(rows[..i], t)
      invariant forall t :: if t in byTime then byTime[t] == AtTime(rows[..i], t) else AtTime(rows[..i], t) == map[]
    {
      var s := rows[i];
      var group := if s.timestamp in byTime then byTime[s.timestamp] else map[];
      byTime := byTime[s.timestamp := group[s.symbol := s]];
      var before, after := rows[..i], rows[..i + 1];
      assert after == before + [s] && after[..i] == before;
      forall t ensures t in byTime <==> Occurs(after, t) {
        assert s in after;
        if Occurs(before, t) {
          var r :| r in before && r.timestamp == t;
          assert r in after;
        }
      }
    }
    assert rows[..|rows|] == rows;
  }

  /** `by_symbol_previous` after the first `k` rows. */
  ghost predicate HoldsNearest(previous: map<Symbol, Snapshot>, rows: seq<Snapshot>, k: nat)
    requires k <= |rows|
  {
    forall symbol :: LastOf(rows[..k], symbol) == if symbol in previous then Some(previous[symbol]) else None
  }

  lemma NearestGrows(previous: map<Symbol, Snapshot>, rows: seq<Snapshot>, k: nat)
    requires k < |rows| && HoldsNearest(previous, rows, k)
    ensures HoldsNearest(previous[rows[k].symbol := rows[k]], rows, k + 1)
  {
    assert rows[..k + 1][..k] == rows[..k];
  }

  lemma NearestIs(previous: map<Symbol, Snapshot>, rows: seq<Snapshot>, k: nat, symbol: Symbol)
    requires k <= |rows| && HoldsNearest(previous, rows, k)
    ensures LastOf(rows[..k], symbol) == if symbol in previous then Some(previous[symbol]) else None
  {
  }

  ghost predicate Made(rows: seq<Snapshot>, made: seq<Feature>) {
    |made| <= |rows| && forall j :: 0 <= j < |made| ==> Computable(rows, rows[j]) && made[j] == FeatureAt(rows, j)
  }

  /** Features row by row from the two dictionaries; `None` when a division by zero is hit. */
  method GenerateFeatures(snapshots: seq<Snapshot>) returns (features: Option<seq<Feature>>)
    ensures var rows := if snapshots == [] then Fixtures() else snapshots;
            && (features.Some? <==> forall s :: s in rows ==> Computable(rows, s))
            && (features.Some? ==> |features.value| == |rows| && Made(rows, features.value))
  {
    hide Fixtures, FeatureFor, Derivable, DeriveSyntheticEthBtc, HoldsNearest, AtTime, LastOf;
    var rows := if snapshots == [] then Fixtures() else snapshots;
    var byTime := GroupByTime(rows);
    var previous: map<Symbol, Snapshot> := map[];
    var made: seq<Feature> := [];
    NothingBefore(rows);
    for i := 0 to |rows|
      invariant HoldsNearest(previous, rows, i)
      invariant |made| == i && Made(rows, made)
    {
      var s := rows[i];
      assert s in rows && Occurs(rows, s.timestamp);
      var siblings := byTime[s.timestamp];
      if s.DepthTotal() == 0.0 || (HasBothLegs(siblings) && !Derivable(siblings[BTCUSDC])) {
        assert !Computable(rows, s);
        return None;
      }
      assert Computable(rows, s);
      var before := if s.symbol in previous then Some(previous[s.symbol]) else None;
      NearestIs(previous, rows, i, s.symbol);
      made := made + [FeatureFor(s, before, SyntheticOf(siblings))];
      NearestGrows(previous, rows, i);
      previous := previous[s.symbol := s];
    }
    return Some(made);
  }

  lemma NothingBefore(rows: seq<Snapshot>)
    ensures HoldsNearest(map[], rows, 0)
  {
  }

  // ---------------------------------------------------------------- the payload's synthetic list

  /** The group of a timestamp holds, for each symbol, the latest row of that time and symbol. */
  lemma {:induction false} AtTimeHoldsLatest(rows: seq<Snapshot>, t: Time, symbol: Symbol)
    ensures if symbol in AtTime(rows, t)
            then exists i :: 0 <= i < |rows| && rows[i] == AtTime(rows, t)[symbol] && IsLatest(rows, i, t, symbol)
            else forall i :: 0 <= i < |rows| ==> !(rows[i].timestamp == t && rows[i].symbol == symbol)
  {
    if rows != [] {
      var n := |rows| - 1;
      var before := rows[..n];
      AtTimeHoldsLatest(before, t, symbol);
      if rows[n].timestamp == t && rows[n].symbol == symbol {
        assert rows[n] == AtTime(rows, t)[symbol] && IsLatest(rows, n, t, symbol);
      } else if symbol in AtTime(rows, t) {
        var i :| 0 <= i < n && before[i] == AtTime(before, t)[symbol] && IsLatest(before, i, t, symbol);
        assert rows[i] == AtTime(rows, t)[symbol];
        forall j | i < j < |rows| ensures !(rows[j].timestamp == t && rows[j].symbol == symbol) {
          if j < n { assert before[j] == rows[j]; }
        }
        assert IsLatest(rows, i, t, symbol);
      } else {
        forall i | 0 <= i < |rows| ensures !(rows[i].timestamp == t && rows[i].symbol == symbol) {
          if i < n { assert before[i] == rows[i]; }
        }
      }
    }
  }

  ghost predicate IsLatest(rows: seq<Snapshot>, i: nat, t: Time, symbol: Symbol)
    requires i < |rows|
  {
    && rows[i].timestamp == t && rows[i].symbol == symbol
    && forall j :: i < j < |rows| ==> !(rows[j].timestamp == t && rows[j].symbol == symbol)
  }

  /** Timestamps in order of first appearance: the keys of the payload's dictionary. */
  function Times(rows: seq<Snapshot>): seq<Time> {
    if rows == [] then []
    else
      var before := Times(rows[..|rows| - 1]);
      var t := rows[|rows| - 1].timestamp;
      if t in before then before else before + [t]
  }

  lemma {:induction false} TimesAreDistinct(rows: seq<Snapshot>)
    ensures forall i, j :: 0 <= i < j < |Times(rows)| ==> Times(rows)[i] != Times(rows)[j]
    ensures forall t :: t in Times(rows) <==> Occurs(rows, t)
  {
    if rows != [] {
      var n := |rows| - 1;
      TimesAreDistinct(rows[..n]);
      assert rows == rows[..n] + [rows[n]] && rows[n] in rows;
      forall t ensures t in Times(rows) <==> Occurs(rows, t) {
        if Occurs(rows[..n], t) {
          var s :| s in rows[..n] && s.timestamp == t;
          assert s in rows;
        }
      }
    }
  }

  predicate GroupComputable(rows: seq<Snapshot>, t: Time) {
    HasBothLegs(AtTime(rows, t)) ==> Derivable(AtTime(rows, t)[BTCUSDC])
  }

  /** One synthetic for each listed time that has both legs. */
  function SyntheticsAt(rows: seq<Snapshot>, times: seq<Time>): seq<Synthetic>
    requires forall t :: t in times ==> GroupComputable(rows, t)
  {
    if times == [] then []
    else
      var t := times[|times| - 1];
      assert t in times && GroupComputable(rows, t);
      var own := SyntheticOf(AtTime(rows, t));
      SyntheticsAt(rows, times[..|times| - 1]) + if own == None then [] else [own.value]
  }

  predicate HasTime(features: seq<Feature>, t: Time) {
    exists f :: f in features && f.timestamp == t
  }

  /** The synthetics the features carry, each timestamp's once, in order of first appearance. */
  function FirstSynthetics(features: seq<Feature>): seq<Synthetic> {
    if features == [] then []
    else
      var before, f := features[..|features| - 1], features[|features| - 1];
      FirstSynthetics(before)
      + if HasTime(before, f.timestamp) || f.synthetic == None then [] else [f.synthetic.value]
  }

  /** What a feature takes from its timestamp. */
  ghost predicate Timed(rows: seq<Snapshot>, features: seq<Feature>) {
    |features| == |rows| && forall i :: 0 <= i < |rows| ==>
      && features[i].timestamp == rows[i].timestamp && GroupComputable(rows, rows[i].timestamp)
      && features[i].synthetic == SyntheticOf(AtTime(rows, rows[i].timestamp))
  }

  lemma MadeIsTimed(rows: seq<Snapshot>, features: seq<Feature>)
    requires |features| == |rows| && Made(rows, features)
    ensures Timed(rows, features)
  {
    hide AtTime, Derivable, DeriveSyntheticEthBtc, SyntheticOf, LastOf;
    forall i | 0 <= i < |rows|
      ensures features[i].timestamp == rows[i].timestamp && GroupComputable(rows, rows[i].timestamp)
      ensures features[i].synthetic == SyntheticOf(AtTime(rows, rows[i].timestamp))
    {
      assert Computable(rows, rows[i]);
    }
  }

  lemma TimesAreComputable(rows: seq<Snapshot>, features: seq<Feature>, k: nat)
    requires k <= |rows| && Timed(rows, features)
    ensures forall t :: t in Times(rows[..k]) ==> GroupComputable(rows, t)
  {
    hide Times, GroupComputable;
    TimesAreDistinct(rows[..k]);
    forall t | t in Times(rows[..k]) ensures GroupComputable(rows, t) {
      var s :| s in rows[..k] && s.timestamp == t;
      var i :| 0 <= i < k && rows[..k][i] == s;
      assert rows[i].timestamp == t;
    }
  }

  lemma SeenBefore(rows: seq<Snapshot>, features: seq<Feature>, k: nat, t: Time)
    requires k <= |rows| && Timed(rows, features)
    ensures HasTime(features[..k], t) <==> t in Times(rows[..k])
  {
    hide Times, GroupComputable, AtTime, SyntheticOf;
    TimesAreDistinct(rows[..k]);
    if HasTime(features[..k], t) {
      var f :| f in features[..k] && f.timestamp == t;
      var i :| 0 <= i < k && features[..k][i] == f;
      assert rows[..k][i] in rows[..k] && rows[i].timestamp == t;
    }
    if t in Times(rows[..k]) {
      var s :| s in rows[..k] && s.timestamp == t;
      var i :| 0 <= i < k && rows[..k][i] == s;
      assert features[..k][i] in features[..k] && features[i].timestamp == t;
    }
  }

  lemma SyntheticsAtStep(rows: seq<Snapshot>, times: seq<Time>, t: Time)
    requires forall u :: u in times + [t] ==> GroupComputable(rows, u)
    ensures t in times + [t] && forall u :: u in times ==> u in times + [t]
    ensures SyntheticsAt(rows, times + [t])
            == SyntheticsAt(rows, times)
               + match SyntheticOf(AtTime(rows, t)) case None => [] case Some(x) => [x]
  {
    assert (times + [t])[|times|] == t && (times + [t])[..|times|] == times;
    forall u | u in times ensures u in times + [t] {}
  }

  lemma {:induction false} FirstSyntheticsAre(rows: seq<Snapshot>, features: seq<Feature>, k: nat)
    requires k <= |rows| && Timed(rows, features)
    ensures forall t :: t in Times(rows[..k]) ==> GroupComputable(rows, t)
    ensures SyntheticsAt(rows, Times(rows[..k])) == FirstSynthetics(features[..k])
  {
    hide GroupComputable, AtTime, SyntheticOf, SyntheticsAt, HasTime;
    TimesAreComputable(rows, features, k);
    if k == 0 {
      NoTimes(rows);
    } else {
      var n, t := k - 1, rows[k - 1].timestamp;
      FirstSyntheticsAre(rows, features, n);
      SeenBefore(rows, features, n, t);
      assert rows[..k][..n] == rows[..n] && features[..k][..n] == features[..n];
      if t !in Times(rows[..n]) {
        SyntheticsAtStep(rows, Times(rows[..n]), t);
      }
    }
  }

  lemma NoTimes(rows: seq<Snapshot>)
    ensures SyntheticsAt(rows, Times(rows[..0])) == []
  {
  }

  /** The payload, which regroups the rows for each row, lists exactly the synthetics the single-pass
      features carry: one for each timestamp with both legs, in order of first appearance. */
  lemma PayloadMatchesFeatures(rows: seq<Snapshot>, features: seq<Feature>)
    requires |features| == |rows| && Made(rows, features)
    ensures forall t :: t in Times(rows) ==> GroupComputable(rows, t)
    ensures SyntheticsAt(rows, Times(rows)) == FirstSynthetics(features)
  {
    hide Timed, Times, SyntheticsAt, Made, GroupComputable;
    MadeIsTimed(rows, features);
    FirstSyntheticsAre(rows, features, |rows|);
    assert rows[..|rows|] == rows && features[..|rows|] == features;
  }

  lemma BeforeIsPart(features: seq<Feature>)
    requires features != []
    ensures forall f :: f in features <==> f in features[..|features| - 1] || f == features[|features| - 1]
  {
    assert features == features[..|features| - 1] + [features[|features| - 1]];
  }

  /** Nothing is lost in the list: when features of one timestamp agree, as made features do, it holds a
      synthetic if and only if some feature carries it. */
  lemma {:induction false} FirstSyntheticsAreAll(features: seq<Feature>, x: Synthetic)
    requires forall f, g :: f in features && g in features && f.timestamp == g.timestamp ==> f.synthetic == g.synthetic
    ensures x in FirstSynthetics(features) <==> exists f :: f in features && f.synthetic == Some(x)
  {
    if features != [] {
      var n := |features| - 1;
      BeforeIsPart(features);
      FirstSyntheticsAreAll(features[..n], x);
    }
  }

  // ---------------------------------------------------------------- returns telescope

  /** The rows' returns of one symbol, compounded. */
  function Compounded(features: seq<Feature>, symbol: Symbol): real {
    if features == [] then 1.0
    else
      var f := features[|features| - 1];
      Compounded(features[..|features| - 1], symbol)
      * if f.symbol == symbol then 1.0 + f.shortHorizonReturnBps / 10000.0 else 1.0
  }

  function FirstOf(rows: seq<Snapshot>, symbol: Symbol): Option<Snapshot> {
    if rows == [] then None
    else if rows[0].symbol == symbol then Some(rows[0])
    else FirstOf(rows[1..], symbol)
  }

  lemma {:induction false} FirstOfAppend(rows: seq<Snapshot>, s: Snapshot, symbol: Symbol)
    ensures FirstOf(rows + [s], symbol)
            == if FirstOf(rows, symbol).Some? then FirstOf(rows, symbol)
               else if s.symbol == symbol then Some(s) else None
  {
    if rows == [] {
      assert rows + [s] == [s];
    } else {
      FirstOfAppend(rows[1..], s, symbol);
      assert (rows + [s])[1..] == rows[1..] + [s];
    }
  }

  /** These features are the given rows', as far as returns go. */
  ghost predicate ReturnsOf(features: seq<Feature>, rows: seq<Snapshot>) {
    |features| == |rows| && forall i :: 0 <= i < |rows| ==>
      features[i].symbol == rows[i].symbol
      && features[i].shortHorizonReturnBps == ShortReturnBps(rows[i], LastOf(rows[..i], rows[i].symbol))
  }

  /** The compounded return `c` takes the first mid to the last. */
  predicate Telescoped(c: real, first: Option<Snapshot>, last: Option<Snapshot>) {
    match (first, last)
    case (Some(f), Some(l)) => f.Mid() > 0.0 && l.Mid() > 0.0 && c * f.Mid() == l.Mid()
    case (None, None) => c == 1.0
    case _ => false
  }

  lemma ReturnRatio(m: real, p: real, c: real, first: real, bps: real)
    requires p > 0.0 && c * first == p && bps == (m - p) / p * 10000.0
    ensures c * (1.0 + bps / 10000.0) * first == m
  {
    DivMul(m - p, p);
    var r := (m - p) / p;
    assert bps / 10000.0 == r;
    assert c * (1.0 + r) * first == (c * first) * (1.0 + r) == p + r * p;
  }

  lemma TelescopeStep(c: real, first: Option<Snapshot>, last: Option<Snapshot>, s: Snapshot, c': real)
    requires Telescoped(c, first, last) && s.Mid() > 0.0
    requires c' == c * (1.0 + ShortReturnBps(s, last) / 10000.0)
    ensures Telescoped(c', if first.Some? then first else Some(s), Some(s))
  {
    if last.Some? {
      ReturnRatio(s.Mid(), last.value.Mid(), c, first.value.Mid(), ShortReturnBps(s, last));
    }
  }

  lemma ReturnsOfPrefix(features: seq<Feature>, rows: seq<Snapshot>)
    requires rows != [] && ReturnsOf(features, rows)
    ensures var n := |rows| - 1;
            && |features| == |rows|
            && ReturnsOf(features[..n], rows[..n])
            && features[n].symbol == rows[n].symbol
            && features[n].shortHorizonReturnBps == ShortReturnBps(rows[n], LastOf(rows[..n], rows[n].symbol))
  {
    hide ShortReturnBps, LastOf;
    var n := |rows| - 1;
    forall i | 0 <= i < n ensures rows[..n][..i] == rows[..i] {}
  }

  /** Positive mids: compounding a symbol's per-row returns takes its first mid to its last. */
  lemma {:induction false} ReturnsTelescope(features: seq<Feature>, rows: seq<Snapshot>, symbol: Symbol)
    requires ReturnsOf(features, rows) && forall s :: s in rows ==> s.Mid() > 0.0
    ensures Telescoped(Compounded(features, symbol), FirstOf(rows, symbol), LastOf(rows, symbol))
  {
    hide Telescoped, ShortReturnBps, ReturnsOf;
    if rows == [] {
      NothingTelescopes();
      NoReturns(features);
    } else {
      var n := |rows| - 1;
      var s, before := rows[n], rows[..n];
      assert s in rows && rows == before + [s];
      ReturnsOfPrefix(features, rows);
      ReturnsTelescope(features[..n], before, symbol);
      FirstOfAppend(before, s, symbol);
      if s.symbol == symbol {
        TelescopeStep(Compounded(features[..n], symbol), FirstOf(before, symbol), LastOf(before, symbol), s,
                      Compounded(features, symbol));
      }
    }
  }

  lemma NoReturns(features: seq<Feature>)
    requires ReturnsOf(features, [])
    ensures features == []
  {
  }

  lemma NothingTelescopes()
    ensures Telescoped(1.0, None, None)
  {
  }

  /** The features the pipeline makes carry those returns, so they telescope. */
  lemma GeneratedReturnsTelescope(features: seq<Feature>, rows: seq<Snapshot>, symbol: Symbol)
    requires |features| == |rows| && forall s :: s in rows ==> s.Mid() > 0.0
    requires forall i :: 0 <= i < |rows| ==> Computable(rows, rows[i]) && features[i] == FeatureAt(rows, i)
    ensures Telescoped(Compounded(features, symbol), FirstOf(rows, symbol), LastOf(rows, symbol))
  {
    hide Telescoped, Compounded, ShortReturnBps, SyntheticOf, AtTime;
    ReturnsTelescope(features, rows, symbol);
  }

  // ---------------------------------------------------------------- price identities

  lemma QuotientOrder(a: real, b: real, c: real, d: real)
    requires 0.0 < b && 0.0 < d && a * d <= c * b
    ensures a / b <= c / d
  {
    var x, y := a / b, c / d;
    DivMul(a, b);
    DivMul(c, d);
    assert x * b * d <= y * d * b;
    if x > y { QuotientContradiction(x - y, b, d); }
  }

  lemma QuotientContradiction(z: real, b: real, d: real)
    requires z > 0.0 && b > 0.0 && d > 0.0
    ensures z * b * d > 0.0
  {
    assert z * b > 0.0;
  }

  predicate Quoted(s: Snapshot) {
    0.0 < s.bid <= s.ask
  }

  lemma Crossed(p: real, q: real, x: real, y: real)
    requires p <= q && 0.0 <= x <= y && 0.0 <= p
    ensures p * x <= q * y
  {
    assert p * x <= p * y <= q * y;
  }

  /** With both legs properly quoted, the synthetic is properly quoted: bid <= mid <= ask. */
  lemma SyntheticIsOrdered(eth: Snapshot, btc: Snapshot)
    requires Quoted(eth) && Quoted(btc)
    ensures Derivable(btc)
    ensures var s := DeriveSyntheticEthBtc(eth, btc);
            0.0 < s.bid <= s.mid <= s.ask && s.spread >= 0.0
  {
    Crossed(eth.bid, eth.Mid(), btc.Mid(), btc.ask);
    QuotientOrder(eth.bid, btc.ask, eth.Mid(), btc.Mid());
    Crossed(eth.Mid(), eth.ask, btc.bid, btc.Mid());
    QuotientOrder(eth.Mid(), btc.Mid(), eth.ask, btc.bid);
    PositiveQuotient(eth.bid, btc.ask);
  }

  lemma PositiveQuotient(a: real, b: real)
    requires a > 0.0 && b > 0.0
    ensures a / b > 0.0
  {
    DivMul(a, b);
    PositiveFactor(a / b, b);
  }

  /** The book's figures of a row with positive depth, in its quotes and sizes. */
  predicate BookFigures(f: Feature, s: Snapshot) {
    && f.orderBookImbalance * (s.bidSize + s.askSize) == s.bidSize - s.askSize
    && f.microprice * (s.bidSize + s.askSize) == s.ask * s.bidSize + s.bid * s.askSize
    && f.depthSlope * (s.bidSize + s.askSize) == s.askSize - s.bidSize
    && f.spread == s.ask - s.bid
  }

  /** Its flow figures: aggression is of the quantity traded, the penalty a hundredth of a point per millisecond. */
  predicate FlowFigures(f: Feature, s: Snapshot) {
    && f.timestamp == s.timestamp && f.symbol == s.symbol
    && (if s.buyTradeQty + s.sellTradeQty > 0.0
        then f.tradeAggression * (s.buyTradeQty + s.sellTradeQty) == s.buyTradeQty - s.sellTradeQty
        else f.tradeAggression == 0.0)
    && (if f.shortHorizonReturnBps < 0.0 then f.realizedVolatilityBps == -f.shortHorizonReturnBps
        else f.realizedVolatilityBps == f.shortHorizonReturnBps)
    && f.latencyAdjustedReturnBps == f.shortHorizonReturnBps - 0.01 * s.latencyMs as real
    && f.fundingRateBps == s.fundingRateBps && f.openInterest == s.openInterest
    && f.liquidationNotional == s.liquidationNotional
  }

  /** The return against the previous snapshot's mid, in basis points; none without a positive one. */
  predicate ReturnFigure(f: Feature, s: Snapshot, previous: Option<Snapshot>) {
    if previous.Some? && previous.value.bid + previous.value.ask > 0.0
    then f.shortHorizonReturnBps * (previous.value.bid + previous.value.ask)
         == 10000.0 * ((s.bid + s.ask) - (previous.value.bid + previous.value.ask))
    else f.shortHorizonReturnBps == 0.0
  }

  lemma ReturnOf(s: Snapshot, p: Snapshot)
    requires p.bid + p.ask > 0.0
    ensures ShortReturnBps(s, Some(p)) * (p.bid + p.ask) == 10000.0 * ((s.bid + s.ask) - (p.bid + p.ask))
  {
    var r := (s.Mid() - p.Mid()) / p.Mid();
    DivMul(s.Mid() - p.Mid(), p.Mid());
    assert r * 10000.0 * (p.bid + p.ask) == 20000.0 * (r * p.Mid());
  }

  lemma FeatureInFigures(s: Snapshot, previous: Option<Snapshot>, synthetic: Option<Synthetic>)
    requires s.DepthTotal() != 0.0
    ensures var f := FeatureFor(s, previous, synthetic);
            && (s.bidSize + s.askSize > 0.0 ==> BookFigures(f, s)) && FlowFigures(f, s) && ReturnFigure(f, s, previous)
            && f.synthetic == synthetic
  {
    DivMul(s.bidSize - s.askSize, s.DepthTotal());
    DivMul(s.askSize - s.bidSize, s.DepthTotal());
    DivMul(s.ask * s.bidSize + s.bid * s.askSize, s.DepthTotal());
    if s.buyTradeQty + s.sellTradeQty > 0.0 {
      DivMul(s.buyTradeQty - s.sellTradeQty, s.buyTradeQty + s.sellTradeQty);
    }
    if previous.Some? && previous.value.bid + previous.value.ask > 0.0 { ReturnOf(s, previous.value); }
  }

  /** A row without depth on balance has no imbalance and its mid for a microprice, but keeps its slope. */
  lemma FeatureWithoutDepth(s: Snapshot, previous: Option<Snapshot>, synthetic: Option<Synthetic>)
    requires s.DepthTotal() < 0.0
    ensures var f := FeatureFor(s, previous, synthetic);
            && f.orderBookImbalance == 0.0 && f.microprice == (s.bid + s.ask) / 2.0
            && f.depthSlope * (s.bidSize + s.askSize) == s.askSize - s.bidSize
            && f.spread == s.ask - s.bid
  {
    DivMul(s.askSize - s.bidSize, s.DepthTotal());
  }

  /** Every feature the pipeline makes is its row's figures, its return taken against the nearest earlier row
      of its symbol. */
  lemma MadeInFigures(rows: seq<Snapshot>, features: seq<Feature>, i: nat)
    requires Made(rows, features) && i < |features|
    ensures var f, s := features[i], rows[i];
            && (s.bidSize + s.askSize > 0.0 ==> BookFigures(f, s)) && FlowFigures(f, s)
            && ReturnFigure(f, s, LastOf(rows[..i], s.symbol))
  {
    hide FeatureFor, LastOf, AtTime, SyntheticOf, Derivable, BookFigures, FlowFigures, ReturnFigure;
    assert Computable(rows, rows[i]) && features[i] == FeatureAt(rows, i);
    FeatureInFigures(rows[i], LastOf(rows[..i], rows[i].symbol), SyntheticOf(AtTime(rows, rows[i].timestamp)));
  }

  /** The latest row of a time and symbol. */
  ghost predicate LatestAt(rows: seq<Snapshot>, t: Time, symbol: Symbol, s: Snapshot) {
    exists i :: 0 <= i < |rows| && rows[i] == s && IsLatest(rows, i, t, symbol)
  }

  lemma LegsAt(rows: seq<Snapshot>, t: Time, symbol: Symbol)
    ensures symbol in AtTime(rows, t) <==> exists s :: s in rows && s.timestamp == t && s.symbol == symbol
    ensures symbol in AtTime(rows, t) ==> LatestAt(rows, t, symbol, AtTime(rows, t)[symbol])
  {
    hide AtTime;
    AtTimeHoldsLatest(rows, t, symbol);
    if s :| s in rows && s.timestamp == t && s.symbol == symbol {
      var i :| 0 <= i < |rows| && rows[i] == s;
    }
  }

  ghost predicate LegPresent(rows: seq<Snapshot>, t: Time, symbol: Symbol) {
    exists s :: s in rows && s.timestamp == t && s.symbol == symbol
  }

  /** A row fails exactly on a division by zero: no depth on balance, or, where both legs are there, a bitcoin leg
      without bid, ask or mid. */
  lemma ComputableMeans(rows: seq<Snapshot>, s: Snapshot)
    ensures Computable(rows, s) <==>
      && s.bidSize + s.askSize != 0.0
      && (LegPresent(rows, s.timestamp, ETHUSDC) && LegPresent(rows, s.timestamp, BTCUSDC) ==>
           exists btc :: LatestAt(rows, s.timestamp, BTCUSDC, btc)
                         && btc.bid != 0.0 && btc.ask != 0.0 && btc.bid + btc.ask != 0.0)
  {
    hide AtTime, LatestAt;
    LegsAt(rows, s.timestamp, ETHUSDC);
    LegsAt(rows, s.timestamp, BTCUSDC);
    if BTCUSDC in AtTime(rows, s.timestamp) {
      forall btc | LatestAt(rows, s.timestamp, BTCUSDC, btc) ensures btc == AtTime(rows, s.timestamp)[BTCUSDC] {
        OneLatest(rows, s.timestamp, BTCUSDC, btc, AtTime(rows, s.timestamp)[BTCUSDC]);
      }
    }
  }

  lemma OneLatest(rows: seq<Snapshot>, t: Time, symbol: Symbol, a: Snapshot, b: Snapshot)
    requires LatestAt(rows, t, symbol, a) && LatestAt(rows, t, symbol, b)
    ensures a == b
  {
    var i :| 0 <= i < |rows| && rows[i] == a && IsLatest(rows, i, t, symbol);
    var j :| 0 <= j < |rows| && rows[j] == b && IsLatest(rows, j, t, symbol);
    if i < j { assert rows[j].symbol == symbol; } else if j < i { assert rows[i].symbol == symbol; }
  }

  /** A feature carries a synthetic exactly when both legs have a row at its time: the one derived from the latest ether
      row over the latest bitcoin row. */
  lemma MadeSynthetics(rows: seq<Snapshot>, features: seq<Feature>, i: nat)
    requires Made(rows, features) && i < |features|
    ensures features[i].synthetic.Some?
            <==> LegPresent(rows, rows[i].timestamp, ETHUSDC) && LegPresent(rows, rows[i].timestamp, BTCUSDC)
    ensures features[i].synthetic.Some? ==>
              exists eth, btc ::
                LatestAt(rows, rows[i].timestamp, ETHUSDC, eth) && LatestAt(rows, rows[i].timestamp, BTCUSDC, btc)
                && Derivable(btc) && features[i].synthetic.value == DeriveSyntheticEthBtc(eth, btc)
  {
    hide AtTime, LatestAt, LastOf, DeriveSyntheticEthBtc, Derivable;
    assert Computable(rows, rows[i]) && features[i] == FeatureAt(rows, i);
    LegsAt(rows, rows[i].timestamp, ETHUSDC);
    LegsAt(rows, rows[i].timestamp, BTCUSDC);
  }

  lemma BetweenOf(x: real, d: real, bid: real, ask: real, b: real, a: real)
    requires d == b + a > 0.0 && b >= 0.0 && a >= 0.0 && bid <= ask && x * d == ask * b + bid * a
    ensures bid <= x <= ask
  {
    LargerFactor(b, bid, ask);
    LargerFactor(a, bid, ask);
    assert (x - bid) * d == ask * b - bid * b && (ask - x) * d == ask * a - bid * a;
    NonNegativeFactor(x - bid, d);
    NonNegativeFactor(ask - x, d);
  }

  /** With sizes not negative the microprice lies between bid and ask. */
  lemma MicropriceIsBetween(s: Snapshot, previous: Option<Snapshot>, synthetic: Option<Synthetic>)
    requires s.bidSize >= 0.0 && s.askSize >= 0.0 && s.bidSize + s.askSize > 0.0 && s.bid <= s.ask
    ensures s.bid <= FeatureFor(s, previous, synthetic).microprice <= s.ask
  {
    hide FeatureFor;
    FeatureInFigures(s, previous, synthetic);
    BetweenOf(FeatureFor(s, previous, synthetic).microprice, s.bidSize + s.askSize, s.bid, s.ask, s.bidSize, s.askSize);
  }

  lemma TiltOf(m: real, i: real, d: real, bid: real, ask: real, b: real, a: real)
    requires d == b + a > 0.0 && i * d == b - a && m * d == ask * b + bid * a
    ensures m == (bid + ask) / 2.0 + i * (ask - bid) / 2.0
  {
    var t := (bid + ask) / 2.0 + i * (ask - bid) / 2.0;
    assert i * (ask - bid) / 2.0 * d == (i * d) * (ask - bid) / 2.0;
    assert t * d == (bid + ask) / 2.0 * d + (b - a) * (ask - bid) / 2.0;
    assert (t - m) * d == 0.0;
  }

  lemma OppositeOf(x: real, y: real, d: real)
    requires d > 0.0 && x * d == -(y * d)
    ensures x == -y
  {
    assert (x + y) * d == 0.0;
  }

  /** With positive depth the microprice is the mid tilted by half the spread times imbalance. */
  lemma MicropriceTiltsTheMid(s: Snapshot, previous: Option<Snapshot>, synthetic: Option<Synthetic>)
    requires s.DepthTotal() > 0.0
    ensures var f := FeatureFor(s, previous, synthetic);
            f.microprice == s.Mid() + f.orderBookImbalance * f.spread / 2.0
            && f.depthSlope == -f.orderBookImbalance
  {
    hide FeatureFor;
    var f := FeatureFor(s, previous, synthetic);
    FeatureInFigures(s, previous, synthetic);
    TiltOf(f.microprice, f.orderBookImbalance, s.bidSize + s.askSize, s.bid, s.ask, s.bidSize, s.askSize);
    OppositeOf(f.depthSlope, f.orderBookImbalance, s.bidSize + s.askSize);
  }

  /** The synthetic in its legs: each quote is a ratio across the books, the time is the later one, and the
      skew is the whole milliseconds between arrivals, stale from 251 on. */
  lemma SyntheticInLegs(eth: Snapshot, btc: Snapshot)
    requires Derivable(btc)
    ensures var x := DeriveSyntheticEthBtc(eth, btc);
            var gap := if eth.receiveTimestamp < btc.receiveTimestamp then btc.receiveTimestamp - eth.receiveTimestamp
                       else eth.receiveTimestamp - btc.receiveTimestamp;
            && x.bid * btc.ask == eth.bid && x.ask * btc.bid == eth.ask
            && x.mid * (btc.bid + btc.ask) == eth.bid + eth.ask && x.spread == x.ask - x.bid
            && x.timestamp >= eth.timestamp && x.timestamp >= btc.timestamp
            && (x.timestamp == eth.timestamp || x.timestamp == btc.timestamp)
            && 1000 * x.legTimestampSkewMs <= gap < 1000 * x.legTimestampSkewMs + 1000
            && (x.isStale <==> gap >= 251_000)
  {
    DivMul(eth.bid, btc.ask);
    DivMul(eth.ask, btc.bid);
    DivMul(eth.Mid(), btc.Mid());
  }

  // ---------------------------------------------------------------- the built-in fixture

  const FIXTURE_BASE := 1767268800000000

  function Row(symbol: Symbol, second: int, bid: real, ask: real, bidSize: real, askSize: real, buy: real, sell: real,
               funding: real, interest: real, liquidation: real, latency: int): Snapshot
  {
    var t := FIXTURE_BASE + second * MICROSECONDS_PER_SECOND;
    Snapshot(symbol, t, t + latency * 1000, bid, ask, bidSize, askSize, buy, sell, funding, interest, liquidation,
             latency)
  }

  /** Used when no snapshots are given. */
  function Fixtures(): seq<Snapshot> {
    [Row(BTCUSDC, 0, 65000.0, 65000.5, 4.2, 3.8, 1.1, 0.8, 0.8, 120000.0, 0.0, 24),
     Row(ETHUSDC, 0, 3200.0, 3200.05, 90.0, 84.0, 18.0, 14.0, 0.6, 890000.0, 0.0, 19),
     Row(BTCUSDC, 1, 65010.0, 65010.5, 3.7, 4.4, 0.7, 1.0, 0.8, 120500.0, 15000.0, 26),
     Row(ETHUSDC, 1, 3202.0, 3202.05, 86.0, 92.0, 12.0, 18.0, 0.6, 891000.0, 8000.0, 22),
     Row(BTCUSDC, 2, 65005.0, 65005.4, 4.8, 3.5, 1.4, 0.9, 0.8, 120200.0, 0.0, 21),
     Row(ETHUSDC, 2, 3201.4, 3201.45, 94.0, 80.0, 20.0, 13.0, 0.6, 891500.0, 0.0, 18)]
  }

  /** The fixture is three seconds of both legs, a row of each a second, properly quoted with depth on both sides. */
  lemma FixturesAreQuoted()
    ensures |Fixtures()| == 6
    ensures forall i :: 0 <= i < 6 ==>
              var s := Fixtures()[i];
              && s.symbol == (if i % 2 == 0 then BTCUSDC else ETHUSDC)
              && s.timestamp == 1767268800000000 + i / 2 * 1_000_000
              && s.receiveTimestamp == s.timestamp + s.latencyMs * 1000
              && Quoted(s) && s.bidSize > 0.0 && s.askSize > 0.0
    ensures Fixtures()[0].Mid() == 65000.25 && Fixtures()[2].Mid() == 65010.25 && Fixtures()[4].Mid() == 65005.2
    ensures Fixtures()[1].Mid() == 3200.025 && Fixtures()[3].Mid() == 3202.025 && Fixtures()[5].Mid() == 3201.425
  {
  }
}
