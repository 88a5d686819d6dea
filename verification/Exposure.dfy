/** Portfolio exposure of the hedge books (services/portfolio/accounting.py) and how far a
    single fill can move it. */
module Exposure {
  import opened Schemas
  import opened Accounting
  import opened BookLaws
  import opened Sums

  /** The sums the source takes over the position books. */
  datatype Measure = LongSide | ShortSide | Gross | Net | Sector | Beta | InSymbol(symbol: Symbol)

  predicate IsMajor(symbol: Symbol) {
    symbol == BTCUSDC || symbol == ETHUSDC
  }

  /** Notional times the symbol's beta: 0.75 for ETHUSDC, 1 for everything else. */
  function BetaNotional(b: PositionBook): real {
    if b.symbol == ETHUSDC then 0.75 * b.notional else b.notional
  }

  /** What one book adds to a sum. */
  function Figure(m: Measure, b: PositionBook): real {
    match m
    case LongSide => if b.side == Long then b.notional else 0.0
    case ShortSide => if b.side == Short then b.notional else 0.0
    case Gross => b.notional
    case Net => if b.side == Long then b.notional else -b.notional
    case Sector => if IsMajor(b.symbol) then b.notional else 0.0
    case Beta => if b.side == Long then BetaNotional(b) else -BetaNotional(b)
    case InSymbol(s) => if b.symbol == s then b.notional else 0.0
  }

  function Figures(m: Measure, books: seq<PositionBook>): seq<real> {
    seq(|books|, i requires 0 <= i < |books| => Figure(m, books[i]))
  }

  function Total(m: Measure, books: seq<PositionBook>): real {
    Sum(Figures(m, books))
  }

  datatype PortfolioExposure = PortfolioExposure(
    grossExposure: real, netExposure: real, longExposure: real, shortExposure: real, hedgeRatio: real,
    liquidationBuffer: real, fundingExposure: real, sectorExposure: real, correlatedExposure: real,
    betaExposure: real, legImbalance: real, crossMarginBuffer: real)

  function Collateral(a: AccountState): real {
    if a.collateralAssets == [] then 0.0 else a.collateralAssets[0].walletBalance
  }

  function CalculatePortfolioExposure(a: AccountState): PortfolioExposure {
    var longExposure := Total(LongSide, a.positionBooks);
    var shortExposure := Total(ShortSide, a.positionBooks);
    var larger := Max(longExposure, shortExposure);
    var hedgeRatio := if larger > 0.0 then Min(longExposure, shortExposure) / larger else 0.0;
    var buffer := Collateral(a) * a.liquidationDistanceRatio;
    var beta := Total(Beta, a.positionBooks);
    PortfolioExposure(
      longExposure + shortExposure, longExposure - shortExposure, longExposure, shortExposure, hedgeRatio,
      buffer, a.fundingExposure, Total(Sector, a.positionBooks), Abs(beta), beta,
      Abs(longExposure - shortExposure), buffer - a.maintenanceMargin)
  }

  // ---------------------------------------------------------------- consistency of the figures

  ghost predicate NotionalsNonNegative(books: seq<PositionBook>) {
    forall b :: b in books ==> b.notional >= 0.0
  }

  lemma SidesMakeGrossAndNet(books: seq<PositionBook>)
    ensures Total(LongSide, books) + Total(ShortSide, books) == Total(Gross, books)
    ensures Total(LongSide, books) - Total(ShortSide, books) == Total(Net, books)
  {
    SumAdds(Figures(LongSide, books), Figures(ShortSide, books), Figures(Gross, books));
    SumAdds(Figures(Net, books), Figures(ShortSide, books), Figures(LongSide, books));
  }

  lemma ProductNonNegative(x: real, y: real)
    requires x >= 0.0 && y >= 0.0
    ensures x * y >= 0.0
  {
  }

  lemma NothingExceedsGross(m: Measure, books: seq<PositionBook>)
    requires NotionalsNonNegative(books)
    ensures Abs(Total(m, books)) <= Total(Gross, books)
    ensures !m.Net? && !m.Beta? ==> Total(m, books) >= 0.0
  {
    var xs, zeros := Figures(m, books), seq(|books|, _ => 0.0);
    forall i | 0 <= i < |books|
      ensures Abs(xs[i] - zeros[i]) <= Figures(Gross, books)[i]
      ensures !m.Net? && !m.Beta? ==> xs[i] >= 0.0
    {
      assert books[i] in books;
    }
    SumMoves(zeros, xs, Figures(Gross, books));
    SumOfZeros(zeros);
    if !m.Net? && !m.Beta? { SumNonNegative(xs); }
  }

  lemma RatioInUnit(a: real, b: real)
    requires 0.0 <= a <= b && b > 0.0
    ensures 0.0 <= a / b <= 1.0
    ensures a / b == 1.0 <==> a == b
  {
    DivMul(a, b);
    NonNegativeFactor(a / b, b);
    assert (1.0 - a / b) * b >= 0.0;
    NonNegativeFactor(1.0 - a / b, b);
  }

  /** For non-negative notionals: the hedge ratio is a ratio, it is one exactly when the two
      legs balance, and leg imbalance, sector and correlated exposure never exceed gross. */
  lemma ExposureIsConsistent(a: AccountState)
    requires NotionalsNonNegative(a.positionBooks)
    ensures var e := CalculatePortfolioExposure(a);
            && 0.0 <= e.hedgeRatio <= 1.0
            && e.grossExposure == Total(Gross, a.positionBooks) && e.netExposure == Total(Net, a.positionBooks)
            && 0.0 <= e.legImbalance <= e.grossExposure
            && 0.0 <= e.sectorExposure <= e.grossExposure
            && 0.0 <= e.correlatedExposure <= e.grossExposure
            && (e.hedgeRatio == 1.0 <==> e.legImbalance == 0.0 && e.grossExposure > 0.0)
  {
    var books := a.positionBooks;
    SidesMakeGrossAndNet(books);
    NothingExceedsGross(LongSide, books);
    NothingExceedsGross(ShortSide, books);
    NothingExceedsGross(Sector, books);
    NothingExceedsGross(Beta, books);
    var l, s := Total(LongSide, books), Total(ShortSide, books);
    if Max(l, s) > 0.0 {
      RatioInUnit(Min(l, s), Max(l, s));
    }
  }

  /** The rest of the report: the hedge ratio is the lighter leg over the heavier, the liquidation buffer the first
      asset's wallet times the liquidation distance, and the margin buffer that less maintenance. */
  lemma ReportRatioAndBuffers(a: AccountState)
    ensures var e := CalculatePortfolioExposure(a);
            var wallet := if a.collateralAssets == [] then 0.0 else a.collateralAssets[0].walletBalance;
            && (if e.longExposure > 0.0 || e.shortExposure > 0.0
                then e.hedgeRatio * (if e.longExposure > e.shortExposure then e.longExposure else e.shortExposure)
                     == (if e.longExposure > e.shortExposure then e.shortExposure else e.longExposure)
                else e.hedgeRatio == 0.0)
            && e.liquidationBuffer == wallet * a.liquidationDistanceRatio
            && e.crossMarginBuffer == wallet * a.liquidationDistanceRatio - a.maintenanceMargin
            && e.fundingExposure == a.fundingExposure
            && e.legImbalance == (if e.netExposure < 0.0 then -e.netExposure else e.netExposure)
            && e.correlatedExposure == (if e.betaExposure < 0.0 then -e.betaExposure else e.betaExposure)
            && e.grossExposure == e.longExposure + e.shortExposure && e.netExposure == e.longExposure - e.shortExposure
  {
    var l, s := Total(LongSide, a.positionBooks), Total(ShortSide, a.positionBooks);
    if Max(l, s) > 0.0 { DivMul(Min(l, s), Max(l, s)); }
  }

  // ---------------------------------------------------------------- what one fill can do to a figure

  predicate IsTarget(b: PositionBook, symbol: Symbol, side: BookSide) {
    b.symbol == symbol && b.side == side
  }

  /** How far re-marking a book at a price can move its notional.  For a book whose notional is
      quantity times mark that is q * |p - m|. */
  function BookDrift(b: PositionBook, price: real): real {
    Abs(b.quantity * price - b.notional) + if b.quantity < 0.0 then -b.quantity * price else 0.0
  }

  lemma DriftOfMarkedBook(b: PositionBook, price: real)
    requires NotionalOk(b)
    ensures BookDrift(b, price) == b.quantity * Abs(price - b.markPrice)
  {
    AbsOfProduct(b.quantity, price - b.markPrice);
  }

  function Drifts(books: seq<PositionBook>, symbol: Symbol, side: BookSide, price: real): seq<real> {
    seq(|books|, i requires 0 <= i < |books| =>
      if IsTarget(books[i], symbol, side) then BookDrift(books[i], price) else 0.0)
  }

  /** The drift of every book a fill on this key re-marks. */
  function Drift(books: seq<PositionBook>, symbol: Symbol, side: BookSide, price: real): real {
    Sum(Drifts(books, symbol, side, price))
  }

  function TargetMarks(books: seq<PositionBook>, symbol: Symbol, side: BookSide): seq<bool> {
    seq(|books|, i requires 0 <= i < |books| => IsTarget(books[i], symbol, side))
  }

  /** How many books stand under this key. */
  function Targets(books: seq<PositionBook>, symbol: Symbol, side: BookSide): nat {
    Count(TargetMarks(books, symbol, side))
  }

  ghost predicate BooksOk(books: seq<PositionBook>) {
    forall b :: b in books ==> NotionalOk(b)
  }

  ghost predicate UniqueKeys(books: seq<PositionBook>) {
    forall i, j :: 0 <= i < j < |books| ==> !(books[i].symbol == books[j].symbol && books[i].side == books[j].side)
  }

  lemma BooksOkNotionals(books: seq<PositionBook>)
    requires BooksOk(books)
    ensures NotionalsNonNegative(books)
  {
    forall b | b in books ensures b.notional >= 0.0 {
      ProductNonNegative(b.quantity, b.markPrice);
    }
  }

  lemma OneTarget(books: seq<PositionBook>, symbol: Symbol, side: BookSide)
    requires UniqueKeys(books)
    ensures Targets(books, symbol, side) <= 1
  {
    var marks := TargetMarks(books, symbol, side);
    forall i, j | 0 <= i < j < |marks| ensures !(marks[i] && marks[j]) {
      assert !(books[i].symbol == books[j].symbol && books[i].side == books[j].side);
    }
    CountAtMostOne(marks);
  }

  lemma SomeTarget(books: seq<PositionBook>, symbol: Symbol, side: BookSide)
    requires HasBook(books, symbol, side)
    ensures Targets(books, symbol, side) >= 1
  {
    var b :| b in books && b.symbol == symbol && b.side == side;
    var k :| 0 <= k < |books| && books[k] == b;
    CountSome(TargetMarks(books, symbol, side), k);
  }

  /** With unique keys the drift is the target book's. */
  lemma DriftOfTarget(books: seq<PositionBook>, k: nat, price: real)
    requires UniqueKeys(books) && k < |books|
    ensures Drift(books, books[k].symbol, books[k].side, price) == BookDrift(books[k], price)
  {
    hide BookDrift;
    var ds := Drifts(books, books[k].symbol, books[k].side, price);
    forall i | 0 <= i < |books| && i != k ensures ds[i] == 0.0 {
      if i < k {} else {}
    }
    SumOfOne(ds, k);
  }

  lemma DriftNonNegative(books: seq<PositionBook>, symbol: Symbol, side: BookSide, price: real)
    requires price > 0.0
    ensures Drift(books, symbol, side, price) >= 0.0
  {
    var ds := Drifts(books, symbol, side, price);
    forall i | 0 <= i < |ds| ensures ds[i] >= 0.0 {
      BookDriftNonNegative(books[i], price);
    }
    SumNonNegative(ds);
  }

  lemma BookDriftNonNegative(b: PositionBook, price: real)
    requires price > 0.0
    ensures BookDrift(b, price) >= 0.0
  {
    if b.quantity < 0.0 { ProductNonNegative(-b.quantity, price); }
  }

  lemma AbsOfProduct(q: real, d: real)
    requires q >= 0.0
    ensures Abs(q * d) == q * Abs(d)
  {
    if d >= 0.0 {
      ProductNonNegative(q, d);
    } else {
      ProductNonNegative(q, -d);
    }
  }

  lemma AbsOfSum(x: real, y: real)
    ensures Abs(x + y) <= Abs(x) + Abs(y)
  {
  }

  /** A quantity moving from `q` to `y` at the price `p`: its value ends within the
      fill's own of where it was, plus drift. */
  lemma ValueMove(q: real, y: real, p: real, x: real, was: real)
    requires p > 0.0 && x > 0.0
    requires y == q + x || y == Max(0.0, q - x)
    ensures Abs(y * p - was) <= x * p + (Abs(q * p - was) + if q < 0.0 then -q * p else 0.0)
  {
    AbsOfSum(y * p - q * p, q * p - was);
    if q < 0.0 { ProductNonNegative(-q, p); }
    ProductNonNegative(x, p);
    if y == q + x {
      assert y * p == q * p + x * p;
    } else if q >= x {
      assert y * p == q * p - x * p;
    } else if q >= 0.0 {
      ProductNonNegative(q, p);
      ProductNonNegative(x - q, p);
      assert (x - q) * p == x * p - q * p;
    }
  }

  /** What a fill does to a target book as far as exposure is concerned. */
  predicate Moved(b: PositionBook, f: PaperFill, c: PositionBook) {
    && c.symbol == b.symbol && c.side == b.side && c.markPrice == f.price && c.notional == c.quantity * f.price
    && c.quantity == NewQuantity(b, f)
  }

  function NewQuantity(b: PositionBook, f: PaperFill): real {
    if IsIncrease(f) then b.quantity + f.quantity else Max(0.0, b.quantity - f.quantity)
  }

  /** The book at what its notional gains from the fill. */
  function Gained(b: PositionBook, f: PaperFill): PositionBook {
    b.(notional := NewQuantity(b, f) * f.price - b.notional)
  }

  ghost predicate MovedAll(books: seq<PositionBook>, f: PaperFill, after: seq<PositionBook>) {
    && |after| == |books|
    && forall i :: 0 <= i < |books| ==>
        if Touches(books[i], f) then Moved(books[i], f, after[i]) else after[i] == books[i]
  }

  lemma UpdateMovesAll(books: seq<PositionBook>, f: PaperFill)
    ensures MovedAll(books, f, UpdatedBooks(books, f))
  {
  }

  /** One book, one fill: the notional moves by at most the fill's own plus the book's drift. */
  lemma NotionalMovesLittle(b: PositionBook, f: PaperFill, c: PositionBook)
    requires f.quantity > 0.0 && f.price > 0.0 && Moved(b, f, c)
    ensures Abs(c.notional - b.notional) <= f.quantity * f.price + BookDrift(b, f.price)
  {
    ValueMove(b.quantity, c.quantity, f.price, f.quantity, b.notional);
  }

  lemma FigureFollowsNotional(m: Measure, b: PositionBook, c: PositionBook)
    requires b.symbol == c.symbol && b.side == c.side
    ensures Abs(Figure(m, c) - Figure(m, b)) <= Abs(c.notional - b.notional)
  {
  }

  function Allowances(books: seq<PositionBook>, f: PaperFill, x: real): seq<real> {
    seq(|books|, i requires 0 <= i < |books| => if Touches(books[i], f) then x + BookDrift(books[i], f.price) else 0.0)
  }

  lemma OwnAddsUp(books: seq<PositionBook>, f: PaperFill, x: real, own: seq<real>)
    requires |own| == |books| && forall i :: 0 <= i < |books| ==> own[i] == if Touches(books[i], f) then x else 0.0
    ensures Sum(own) == Targets(books, f.symbol, f.bookSide) as real * x
  {
    hide Sum, Count;
    SumOfEqual(own, TargetMarks(books, f.symbol, f.bookSide), x);
  }

  lemma AllowancesAddUp(books: seq<PositionBook>, f: PaperFill, x: real)
    ensures Sum(Allowances(books, f, x))
            == Targets(books, f.symbol, f.bookSide) as real * x + Drift(books, f.symbol, f.bookSide, f.price)
  {
    hide BookDrift, Targets;
    var own := seq(|books|, i requires 0 <= i < |books| => if Touches(books[i], f) then x else 0.0);
    OwnAddsUp(books, f, x, own);
    SumAdds(own, Drifts(books, f.symbol, f.bookSide, f.price), Allowances(books, f, x));
  }

  /** For any books at all: a fill moves no exposure figure by more than its notional for each
      book it touches, plus their drift, and leaves the figures of other symbols alone. */
  lemma FillImpact(m: Measure, books: seq<PositionBook>, f: PaperFill, after: seq<PositionBook>, x: real)
    requires f.quantity > 0.0 && f.price > 0.0 && x == f.quantity * f.price && MovedAll(books, f, after)
    ensures Abs(Total(m, after) - Total(m, books))
            <= Targets(books, f.symbol, f.bookSide) as real * x + Drift(books, f.symbol, f.bookSide, f.price)
    ensures m.InSymbol? && m.symbol != f.symbol ==> Total(m, after) == Total(m, books)
  {
    hide BookDrift, Moved, Targets, Drift;
    var xs, ys := Figures(m, books), Figures(m, after);
    forall i | 0 <= i < |books|
      ensures Abs(ys[i] - xs[i]) <= Allowances(books, f, x)[i]
      ensures m.InSymbol? && m.symbol != f.symbol ==> ys[i] == xs[i]
    {
      if Touches(books[i], f) { TouchedFigure(m, books[i], f, after[i], x); }
    }
    SumMoves(xs, ys, Allowances(books, f, x));
    AllowancesAddUp(books, f, x);
    if m.InSymbol? && m.symbol != f.symbol { assert xs == ys; }
  }

  lemma TouchedFigure(m: Measure, b: PositionBook, f: PaperFill, c: PositionBook, x: real)
    requires f.quantity > 0.0 && f.price > 0.0 && x == f.quantity * f.price && Touches(b, f) && Moved(b, f, c)
    ensures Abs(Figure(m, c) - Figure(m, b)) <= x + BookDrift(b, f.price)
    ensures m.InSymbol? && m.symbol != f.symbol ==> Figure(m, c) == Figure(m, b)
  {
    NotionalMovesLittle(b, f, c);
    FigureFollowsNotional(m, b, c);
  }

  function Gains(m: Measure, books: seq<PositionBook>, f: PaperFill): seq<real> {
    seq(|books|, i requires 0 <= i < |books| => if Touches(books[i], f) then Figure(m, Gained(books[i], f)) else 0.0)
  }

  /** The figures of the books a fill touches, at what their notionals gain. */
  function Gain(m: Measure, books: seq<PositionBook>, f: PaperFill): real {
    Sum(Gains(m, books, f))
  }

  /** The move is exact, on any books at all. */
  lemma FillMovesExactly(m: Measure, books: seq<PositionBook>, f: PaperFill, after: seq<PositionBook>)
    requires MovedAll(books, f, after)
    ensures Total(m, after) == Total(m, books) + Gain(m, books, f)
  {
    hide Figure, Moved, Gained, Touches;
    forall i | 0 <= i < |books| ensures Figures(m, after)[i] == Figures(m, books)[i] + Gains(m, books, f)[i] {
      if Touches(books[i], f) { MovedFigure(m, books[i], f, after[i]); }
    }
    SumAdds(Figures(m, books), Gains(m, books, f), Figures(m, after));
  }

  /** With unique keys the gain is the target book's. */
  lemma GainOfTarget(m: Measure, books: seq<PositionBook>, f: PaperFill, k: nat)
    requires UniqueKeys(books) && k < |books| && Touches(books[k], f)
    ensures Gain(m, books, f) == Figure(m, Gained(books[k], f))
  {
    hide Figure, Gained;
    forall i | 0 <= i < |books| && i != k ensures !Touches(books[i], f) {
      if i < k {} else {}
    }
    SumOfOne(Gains(m, books, f), k);
  }

  function BookRemark(b: PositionBook, price: real): real {
    b.quantity * price - b.notional
  }

  function Remarks(books: seq<PositionBook>, symbol: Symbol, side: BookSide, price: real): seq<real> {
    seq(|books|, i requires 0 <= i < |books| =>
      if IsTarget(books[i], symbol, side) then BookRemark(books[i], price) else 0.0)
  }

  /** What re-marking the books of a key at a price adds to their notionals; q * (p - m) for a marked book. */
  function Remark(books: seq<PositionBook>, symbol: Symbol, side: BookSide, price: real): real {
    Sum(Remarks(books, symbol, side, price))
  }

  lemma RemarkOfTarget(books: seq<PositionBook>, k: nat, price: real)
    requires UniqueKeys(books) && k < |books| && NotionalOk(books[k])
    ensures Remark(books, books[k].symbol, books[k].side, price) == books[k].quantity * (price - books[k].markPrice)
    ensures Targets(books, books[k].symbol, books[k].side) == 1
  {
    var b := books[k];
    forall i | 0 <= i < |books| && i != k ensures !IsTarget(books[i], b.symbol, b.side) {
      if i < k {} else {}
    }
    SumOfOne(Remarks(books, b.symbol, b.side, price), k);
    OneTarget(books, b.symbol, b.side);
    CountSome(TargetMarks(books, b.symbol, b.side), k);
  }

  /** These measures count every major book's notional as it is. */
  predicate CountsWhole(m: Measure, symbol: Symbol) {
    m == Gross || m == InSymbol(symbol) || (m == Sector && IsMajor(symbol))
  }

  lemma OpeningGains(m: Measure, b: PositionBook, f: PaperFill, x: real)
    requires CountsWhole(m, f.symbol) && IsIncrease(f) && Touches(b, f) && x == f.quantity * f.price
    ensures Figure(m, Gained(b, f)) == x + BookRemark(b, f.price)
  {
    assert (b.quantity + f.quantity) * f.price == b.quantity * f.price + f.quantity * f.price;
  }

  /** An opening fill adds its notional for each book it touches, and what re-marking them adds. */
  lemma OpeningGain(m: Measure, books: seq<PositionBook>, f: PaperFill, x: real)
    requires CountsWhole(m, f.symbol) && IsIncrease(f) && x == f.quantity * f.price
    ensures Gain(m, books, f)
            == Targets(books, f.symbol, f.bookSide) as real * x + Remark(books, f.symbol, f.bookSide, f.price)
  {
    hide Figure, Gained, BookRemark, Targets;
    var own := seq(|books|, i requires 0 <= i < |books| => if Touches(books[i], f) then x else 0.0);
    var remarks := Remarks(books, f.symbol, f.bookSide, f.price);
    forall i | 0 <= i < |books| ensures Gains(m, books, f)[i] == own[i] + remarks[i] {
      if Touches(books[i], f) { OpeningGains(m, books[i], f, x); }
    }
    OwnAddsUp(books, f, x, own);
    SumAdds(own, remarks, Gains(m, books, f));
  }

  lemma MovedFigure(m: Measure, b: PositionBook, f: PaperFill, c: PositionBook)
    requires Moved(b, f, c)
    ensures Figure(m, c) == Figure(m, b) + Figure(m, Gained(b, f))
  {
    hide Figure;
    FigureIsLinear(m, b, c, Gained(b, f));
  }

  lemma FigureIsLinear(m: Measure, b: PositionBook, c: PositionBook, gained: PositionBook)
    requires b.symbol == c.symbol == gained.symbol && b.side == c.side == gained.side
    requires gained.notional == c.notional - b.notional
    ensures Figure(m, c) == Figure(m, b) + Figure(m, gained)
  {
  }

  /** Once filled, the target book sits at the fill's price: no drift is left there. */
  lemma FillClearsDrift(books: seq<PositionBook>, f: PaperFill, after: seq<PositionBook>)
    requires BooksOk(books) && f.quantity > 0.0 && f.price > 0.0 && MovedAll(books, f, after)
    ensures Drift(after, f.symbol, f.bookSide, f.price) == 0.0
    ensures BooksOk(after) && (UniqueKeys(books) ==> UniqueKeys(after))
  {
    forall b | b in after ensures NotionalOk(b) {
      var i :| 0 <= i < |after| && after[i] == b;
      assert books[i] in books;
    }
    forall i | 0 <= i < |after| ensures Drifts(after, f.symbol, f.bookSide, f.price)[i] == 0.0 {
      assert after[i] in after && books[i] in books;
    }
    SumOfZeros(Drifts(after, f.symbol, f.bookSide, f.price));
  }
}
