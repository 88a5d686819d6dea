/** Admission over whole runs, in numbers: what a run from the default account lets in. */
module RunAdmission {
  import opened Schemas
  import opened Accounting
  import opened Exposure
  import opened PortfolioReport
  import opened Risk
  import opened ExchangeModel
  import opened Settlement
  import opened SettledExposure
  import opened OrderState
  import opened ProgressLaws
  import opened Admission
  import opened Transitions

  /** Fills keep an account standard: default but for books and collateral. */
  lemma {:induction false} FillsStayStandard(a: AccountState, fills: seq<PaperFill>, start: Time)
    requires Standard(a, start)
    ensures Standard(ApplyFills(a, fills), start) && ApplyFills(a, fills).feePolicies == a.feePolicies
  {
    hide UpdatedBooks, DebitFirst;
    if fills != [] { FillsStayStandard(a, fills[..|fills| - 1], start); }
  }

  lemma DefaultKeysInPlace(books: seq<PositionBook>)
    requires SameKeys(DefaultPositionBooks(), books)
    ensures FourBooks(books) && Hedged(books)
  {
    DefaultKeysHaveBooks(books, BTCUSDC, Long);
    DefaultKeysHaveBooks(books, BTCUSDC, Short);
    DefaultKeysHaveBooks(books, ETHUSDC, Long);
    DefaultKeysHaveBooks(books, ETHUSDC, Short);
  }

  /** In every run from the default account, the account is the default account of its last renewal but for what fills
      have made of its four books and its collateral. */
  lemma RunStaysStandard(start: Time, takerGateEnabled: bool, ops: seq<Operation>)
    ensures var a := Run(Initial(DefaultAccountState(start), takerGateEnabled), ops).account;
            && Standard(a, LastRenewal(start, ops)) && a.feePolicies == DefaultFeePolicies(LastRenewal(start, ops))
            && FourBooks(a.positionBooks) && Hedged(a.positionBooks)
  {
    hide Run, HistoryOf, FillsOk, OrdersOk, ApplyFills, SameKeys, Hedged, FourBooks, DefaultAccountState,
         Standard;
    var h := HistoryOf(DefaultAccountState(start), takerGateEnabled, ops);
    AccountIsReplayable(DefaultAccountState(start), takerGateEnabled, ops);
    AccountOfLastRenewal(start, takerGateEnabled, ops);
    DefaultIsStandard(LastRenewal(start, ops), 0);
    FillsStayStandard(h.base, h.fills[h.mark..], LastRenewal(start, ops));
    RunKeepsKeys(start, takerGateEnabled, ops);
    DefaultKeysInPlace(Run(Initial(DefaultAccountState(start), takerGateEnabled), ops).account.positionBooks);
  }

  /** Room for a notional, in the four books' notionals and the wallet. */
  predicate HasRoom(a: AccountState, notional: real, symbol: Symbol)
    requires |a.positionBooks| == 4
  {
    var btcLong, btcShort := a.positionBooks[0].notional, a.positionBooks[1].notional;
    var ethLong, ethShort := a.positionBooks[2].notional, a.positionBooks[3].notional;
    var gross := btcLong + btcShort + ethLong + ethShort;
    var net := btcLong - btcShort + ethLong - ethShort;
    var beta := btcLong - btcShort + 0.75 * (ethLong - ethShort);
    && (if symbol == BTCUSDC then btcLong + btcShort else ethLong + ethShort) + notional <= 50000.0
    && gross + notional <= 75000.0
    && -60000.0 + notional <= beta <= 60000.0 - notional
    && -25000.0 + notional <= net <= 25000.0 - notional
    && a.collateralAssets != [] && a.collateralAssets[0].walletBalance > 0.0
    && gross + notional <= 3.0 * a.collateralAssets[0].walletBalance
  }

  lemma RoomInNotionals(a: AccountState, notional: real, symbol: Symbol)
    requires FourBooks(a.positionBooks) && (symbol == BTCUSDC || symbol == ETHUSDC)
    ensures FitsDefaultLimits(a, notional, symbol) <==> HasRoom(a, notional, symbol)
  {
    hide Total, Figure;
    FourFigures(Gross, a.positionBooks);
    FourFigures(Net, a.positionBooks);
    FourFigures(Sector, a.positionBooks);
    FourFigures(Beta, a.positionBooks);
    FourFigures(InSymbol(symbol), a.positionBooks);
    FiguresOf(a.positionBooks, symbol);
  }

  lemma FiguresOf(books: seq<PositionBook>, symbol: Symbol)
    requires FourBooks(books) && (symbol == BTCUSDC || symbol == ETHUSDC)
    ensures forall i :: 0 <= i < 4 ==>
              var b := books[i];
              && Figure(Gross, b) == b.notional && Figure(Sector, b) == b.notional
              && Figure(Net, b) == (if i % 2 == 0 then b.notional else -b.notional)
              && Figure(Beta, b) == (if i == 0 then b.notional else if i == 1 then -b.notional
                                     else if i == 2 then 0.75 * b.notional else -0.75 * b.notional)
              && Figure(InSymbol(symbol), b) == (if (i < 2) == (symbol == BTCUSDC) then b.notional else 0.0)
  {
  }

  /** The whole of admission, over every run from the default account: an order is let in if and only if no panic
      halt has ever run, the account was renewed at most 300 seconds ago, the order previews well, and the four
      books and the wallet leave room for it.  Nothing else counts, open orders least of all. */
  lemma AdmissionOverRuns(
    start: Time, takerGateEnabled: bool, ops: seq<Operation>, intent: PaperOrderIntent, now: Time)
    ensures |Run(Initial(DefaultAccountState(start), takerGateEnabled), ops).account.positionBooks| == 4
    ensures Admits(Run(Initial(DefaultAccountState(start), takerGateEnabled), ops), intent, now) <==>
      && !EverHalted(ops) && now - LastRenewal(start, ops) <= 300_000_000
      && Previewable(intent, takerGateEnabled, now)
      && HasRoom(Run(Initial(DefaultAccountState(start), takerGateEnabled), ops).account,
                 intent.quantity * intent.limitPrice, intent.symbol)
  {
    hide Run, Standard, Hedged, Admits, Previewable, FitsDefaultLimits, HasRoom, DefaultAccountState;
    var s := Run(Initial(DefaultAccountState(start), takerGateEnabled), ops);
    RunStaysStandard(start, takerGateEnabled, ops);
    FlagsTellTheHistory(DefaultAccountState(start), takerGateEnabled, ops);
    if EverHalted(ops) {
      PanicVetoes(s, intent, now);
    } else {
      DefaultAdmissionInNumbers(s, LastRenewal(start, ops), intent, now);
      if Previewable(intent, takerGateEnabled, now) {
        PreviewableSymbol(intent, takerGateEnabled, now);
        RoomInNotionals(s.account, intent.quantity * intent.limitPrice, intent.symbol);
      }
    }
  }

  lemma PreviewableSymbol(intent: PaperOrderIntent, takerGateEnabled: bool, now: Time)
    requires Previewable(intent, takerGateEnabled, now)
    ensures intent.symbol == BTCUSDC || intent.symbol == ETHUSDC
  {
  }
}
