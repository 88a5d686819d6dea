/** The per-symbol exposure report (services/portfolio/accounting.py): a dictionary built in one
    pass over the books, whose rows add up to the portfolio's totals. */
module PortfolioReport {
  import opened Schemas
  import opened Exposure
  import opened Sums

  datatype SymbolRow = SymbolRow(longNotional: real, shortNotional: real, grossNotional: real, netNotional: real)

  /** What a symbol's books on one side add up to. */
  function SideTotal(books: seq<PositionBook>, symbol: Symbol, side: BookSide): real {
    if books == [] then 0.0
    else
      var b := books[|books| - 1];
      SideTotal(books[..|books| - 1], symbol, side) + if b.symbol == symbol && b.side == side then b.notional else 0.0
  }

  function RowOf(books: seq<PositionBook>, symbol: Symbol): SymbolRow {
    var long, short := SideTotal(books, symbol, Long), SideTotal(books, symbol, Short);
    SymbolRow(long, short, long + short, long - short)
  }

  function SymbolsOf(books: seq<PositionBook>): set<Symbol> {
    set b | b in books :: b.symbol
  }

  function SymbolExposure(books: seq<PositionBook>): map<Symbol, SymbolRow> {
    map s | s in SymbolsOf(books) :: RowOf(books, s)
  }

  lemma {:induction false} AbsentSymbolIsZero(books: seq<PositionBook>, symbol: Symbol)
    requires symbol !in SymbolsOf(books)
    ensures SideTotal(books, symbol, Long) == 0.0 && SideTotal(books, symbol, Short) == 0.0
  {
    if books != [] {
      var n := |books| - 1;
      assert books[n] in books && forall b :: b in books[..n] ==> b in books;
      AbsentSymbolIsZero(books[..n], symbol);
    }
  }

  /** The dictionary loop: each book finds or creates its symbol's row and adds itself to it. */
  method BuildSymbolExposure(books: seq<PositionBook>) returns (report: map<Symbol, SymbolRow>)
    ensures report == SymbolExposure(books)
  {
    report := map[];
    for i := 0 to |books|
      invariant report == SymbolExposure(books[..i])
    {
      var b := books[i];
      assert books[..i + 1][..i] == books[..i];
      var current := if b.symbol in report then report[b.symbol] else SymbolRow(0.0, 0.0, 0.0, 0.0);
      if b.symbol !in report { AbsentSymbolIsZero(books[..i], b.symbol); }
      var long, short := current.longNotional, current.shortNotional;
      if b.side == Long {
        long := long + b.notional;
      } else {
        short := short + b.notional;
      }
      report := report[b.symbol := SymbolRow(long, short, long + short, long - short)];
      OneMoreBook(books, i, report);
    }
    assert books[..|books|] == books;
  }

  lemma OneMoreBook(books: seq<PositionBook>, i: nat, report: map<Symbol, SymbolRow>)
    requires i < |books|
    requires report == SymbolExposure(books[..i])[books[i].symbol := RowOf(books[..i + 1], books[i].symbol)]
    ensures report == SymbolExposure(books[..i + 1])
  {
    var before, after := books[..i], books[..i + 1];
    assert after[..i] == before && after[i] == books[i];
    assert SymbolsOf(after) == SymbolsOf(before) + {books[i].symbol} by {
      assert forall b :: b in after <==> b in before || b == books[i];
    }
    forall s | s in SymbolsOf(before) && s != books[i].symbol ensures RowOf(after, s) == RowOf(before, s) {
    }
  }

  // ---------------------------------------------------------------- rows add up to totals

  ghost function SumOver(keys: set<Symbol>, f: Symbol -> real): real {
    if keys == {} then 0.0
    else
      var k :| k in keys;
      SumOver(keys - {k}, f) + f(k)
  }

  lemma {:induction false} SumOverRemove(keys: set<Symbol>, f: Symbol -> real, k: Symbol)
    requires k in keys
    ensures SumOver(keys, f) == SumOver(keys - {k}, f) + f(k)
  {
    var j :| j in keys && SumOver(keys, f) == SumOver(keys - {j}, f) + f(j);
    if j != k {
      SumOverRemove(keys - {j}, f, k);
      SumOverRemove(keys - {k}, f, j);
      assert keys - {j} - {k} == keys - {k} - {j};
    }
  }

  lemma {:induction false} SumOverSame(keys: set<Symbol>, f: Symbol -> real, g: Symbol -> real)
    requires forall k :: k in keys ==> f(k) == g(k)
    ensures SumOver(keys, f) == SumOver(keys, g)
  {
    if keys != {} {
      var k :| k in keys;
      SumOverRemove(keys, f, k);
      SumOverRemove(keys, g, k);
      SumOverSame(keys - {k}, f, g);
    }
  }

  /** Raising one key's value raises the sum by as much. */
  lemma SumOverRaise(keys: set<Symbol>, f: Symbol -> real, g: Symbol -> real, k: Symbol)
    requires k in keys && forall j :: j in keys && j != k ==> f(j) == g(j)
    ensures SumOver(keys, g) == SumOver(keys, f) + g(k) - f(k)
  {
    SumOverRemove(keys, f, k);
    SumOverRemove(keys, g, k);
    SumOverSame(keys - {k}, f, g);
  }

  /** Grouping by symbol loses nothing: over any set holding every symbol, the per-symbol totals
      of a side sum to the side's total. */
  lemma {:induction false} SideTotalsAddUp(books: seq<PositionBook>, keys: set<Symbol>, side: BookSide)
    requires SymbolsOf(books) <= keys
    ensures SumOver(keys, SideTotals(books, side)) == Total(if side == Long then LongSide else ShortSide, books)
    decreases |books|
  {
    var m := if side == Long then LongSide else ShortSide;
    if books == [] {
      SumOverZero(keys, SideTotals(books, side));
    } else {
      var n := |books| - 1;
      var b := books[n];
      assert b in books && forall c :: c in books[..n] ==> c in books;
      SideTotalsAddUp(books[..n], keys, side);
      SumOverRaise(keys, SideTotals(books[..n], side), SideTotals(books, side), b.symbol);
      assert Figures(m, books)[..n] == Figures(m, books[..n]);
    }
  }

  lemma {:induction false} SumOverZero(keys: set<Symbol>, f: Symbol -> real)
    requires forall k :: k in keys ==> f(k) == 0.0
    ensures SumOver(keys, f) == 0.0
  {
    if keys != {} {
      var k :| k in keys;
      SumOverRemove(keys, f, k);
      SumOverZero(keys - {k}, f);
    }
  }

  lemma {:induction false} SumOverAdds(keys: set<Symbol>, f: Symbol -> real, g: Symbol -> real, h: Symbol -> real)
    requires forall k :: k in keys ==> h(k) == f(k) + g(k)
    ensures SumOver(keys, h) == SumOver(keys, f) + SumOver(keys, g)
  {
    if keys != {} {
      var k :| k in keys;
      SumOverRemove(keys, f, k);
      SumOverRemove(keys, g, k);
      SumOverRemove(keys, h, k);
      SumOverAdds(keys - {k}, f, g, h);
    }
  }

  datatype Column = LongColumn | ShortColumn | GrossColumn | NetColumn

  function Cell(report: map<Symbol, SymbolRow>, column: Column, symbol: Symbol): real {
    if symbol !in report then 0.0
    else match column
      case LongColumn => report[symbol].longNotional
      case ShortColumn => report[symbol].shortNotional
      case GrossColumn => report[symbol].grossNotional
      case NetColumn => report[symbol].netNotional
  }

  function Cells(report: map<Symbol, SymbolRow>, column: Column): Symbol -> real {
    s => Cell(report, column, s)
  }

  function SideTotals(books: seq<PositionBook>, side: BookSide): Symbol -> real {
    s => SideTotal(books, s, side)
  }

  ghost function ColumnSum(report: map<Symbol, SymbolRow>, column: Column): real {
    SumOver(report.Keys, Cells(report, column))
  }

  lemma SideColumns(books: seq<PositionBook>)
    ensures ColumnSum(SymbolExposure(books), LongColumn) == Total(LongSide, books)
    ensures ColumnSum(SymbolExposure(books), ShortColumn) == Total(ShortSide, books)
  {
    var report := SymbolExposure(books);
    SideTotalsAddUp(books, report.Keys, Long);
    SideTotalsAddUp(books, report.Keys, Short);
    SumOverSame(report.Keys, Cells(report, LongColumn), SideTotals(books, Long));
    SumOverSame(report.Keys, Cells(report, ShortColumn), SideTotals(books, Short));
  }

  lemma DerivedColumns(books: seq<PositionBook>)
    ensures var report := SymbolExposure(books);
            && ColumnSum(report, GrossColumn) == ColumnSum(report, LongColumn) + ColumnSum(report, ShortColumn)
            && ColumnSum(report, NetColumn) == ColumnSum(report, LongColumn) - ColumnSum(report, ShortColumn)
  {
    hide SideTotal;
    var report := SymbolExposure(books);
    SumOverAdds(report.Keys, Cells(report, LongColumn), Cells(report, ShortColumn), Cells(report, GrossColumn));
    SumOverAdds(report.Keys, Cells(report, NetColumn), Cells(report, ShortColumn), Cells(report, LongColumn));
  }

  /** The report covers exactly the symbols held, and its long, short, gross and net columns
      sum to the portfolio's long, short, gross and net exposure. */
  lemma ReportAddsUp(a: AccountState)
    ensures var report := SymbolExposure(a.positionBooks);
            var e := CalculatePortfolioExposure(a);
            && report.Keys == SymbolsOf(a.positionBooks)
            && ColumnSum(report, LongColumn) == e.longExposure
            && ColumnSum(report, ShortColumn) == e.shortExposure
            && ColumnSum(report, GrossColumn) == e.grossExposure
            && ColumnSum(report, NetColumn) == e.netExposure
  {
    hide ColumnSum, Total, RowOf;
    SideColumns(a.positionBooks);
    DerivedColumns(a.positionBooks);
  }

  /** A row's own figures: the symbol's sides, their sum and their difference. */
  lemma RowOfSides(books: seq<PositionBook>, symbol: Symbol)
    requires exists b :: b in books && b.symbol == symbol
    ensures symbol in SymbolExposure(books)
    ensures var row := SymbolExposure(books)[symbol];
            && row.longNotional == SideTotal(books, symbol, Long)
            && row.shortNotional == SideTotal(books, symbol, Short)
            && row.grossNotional == row.longNotional + row.shortNotional
            && row.netNotional == row.longNotional - row.shortNotional
  {
  }

  /** A row's gross figure is the symbol exposure the risk gate limits. */
  lemma {:induction false} RowIsSymbolExposure(books: seq<PositionBook>, symbol: Symbol)
    ensures RowOf(books, symbol).grossNotional == Total(InSymbol(symbol), books)
  {
    if books != [] {
      var n := |books| - 1;
      RowIsSymbolExposure(books[..n], symbol);
      assert Figures(InSymbol(symbol), books)[..n] == Figures(InSymbol(symbol), books[..n]);
    }
  }

  /** Beta exposure is the net of the sides with ether at three quarters, on any books. */
  lemma {:induction false} BetaDiscountsEther(books: seq<PositionBook>)
    ensures Total(Beta, books)
            == Total(Net, books) - 0.25 * (SideTotal(books, ETHUSDC, Long) - SideTotal(books, ETHUSDC, Short))
  {
    if books != [] {
      var n := |books| - 1;
      BetaDiscountsEther(books[..n]);
      assert Figures(Beta, books)[..n] == Figures(Beta, books[..n]);
      assert Figures(Net, books)[..n] == Figures(Net, books[..n]);
    }
  }

  /** Sector exposure is what the two majors hold on both sides. */
  lemma {:induction false} SectorIsTheMajors(books: seq<PositionBook>)
    ensures Total(Sector, books)
            == SideTotal(books, BTCUSDC, Long) + SideTotal(books, BTCUSDC, Short)
               + SideTotal(books, ETHUSDC, Long) + SideTotal(books, ETHUSDC, Short)
  {
    if books != [] {
      var n := |books| - 1;
      SectorIsTheMajors(books[..n]);
      assert Figures(Sector, books)[..n] == Figures(Sector, books[..n]);
    }
  }

  /** The default books, in the order the account lists them. */
  predicate FourBooks(books: seq<PositionBook>) {
    && |books| == 4
    && books[0].symbol == BTCUSDC && books[0].side == Long && books[1].symbol == BTCUSDC && books[1].side == Short
    && books[2].symbol == ETHUSDC && books[2].side == Long && books[3].symbol == ETHUSDC && books[3].side == Short
  }

  lemma SumOfFour(xs: seq<real>)
    requires |xs| == 4
    ensures Sum(xs) == xs[0] + xs[1] + xs[2] + xs[3]
  {
    assert xs[..3][..2] == xs[..2] && xs[..2][..1] == xs[..1] && xs[..1][..0] == [];
    assert Sum(xs[..1]) == xs[0] && Sum(xs[..2]) == xs[0] + xs[1] && Sum(xs[..3]) == xs[0] + xs[1] + xs[2];
  }

  lemma FourFigures(m: Measure, books: seq<PositionBook>)
    requires FourBooks(books)
    ensures Total(m, books) == Figure(m, books[0]) + Figure(m, books[1]) + Figure(m, books[2]) + Figure(m, books[3])
  {
    hide Figure;
    SumOfFour(Figures(m, books));
  }

  /** The report of an account with the default books, in their four notionals. */
  lemma FourBookReport(a: AccountState)
    requires FourBooks(a.positionBooks)
    ensures var e := CalculatePortfolioExposure(a);
            var btcLong, btcShort := a.positionBooks[0].notional, a.positionBooks[1].notional;
            var ethLong, ethShort := a.positionBooks[2].notional, a.positionBooks[3].notional;
            && e.longExposure == btcLong + ethLong && e.shortExposure == btcShort + ethShort
            && e.grossExposure == btcLong + btcShort + ethLong + ethShort && e.sectorExposure == e.grossExposure
            && e.netExposure == btcLong - btcShort + ethLong - ethShort
            && e.betaExposure == btcLong - btcShort + 0.75 * (ethLong - ethShort)
            && Total(InSymbol(BTCUSDC), a.positionBooks) == btcLong + btcShort
            && Total(InSymbol(ETHUSDC), a.positionBooks) == ethLong + ethShort
  {
    hide Total;
    FourFigures(LongSide, a.positionBooks);
    FourFigures(ShortSide, a.positionBooks);
    FourFigures(Sector, a.positionBooks);
    FourFigures(Beta, a.positionBooks);
    FourFigures(InSymbol(BTCUSDC), a.positionBooks);
    FourFigures(InSymbol(ETHUSDC), a.positionBooks);
  }
}
