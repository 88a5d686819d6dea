/** Laws of a single position book under any sequence of fills. */
module BookLaws {
  import opened Schemas
  import opened Accounting
  import opened Sequences

  // ---------------------------------------------------------------- clamped quantity, in closed form

  /** What a fill would add to the book if closes were not clamped. */
  function Signed(book: PositionBook, fill: PaperFill): real {
    if !Touches(book, fill) then 0.0 else if IsIncrease(fill) then fill.quantity else -fill.quantity
  }

  /** The unclamped running quantity. */
  function Running(book: PositionBook, fills: seq<PaperFill>): real {
    if fills == [] then book.quantity
    else Running(book, fills[..|fills| - 1]) + Signed(book, fills[|fills| - 1])
  }

  /** The lowest the running quantity has been, or zero if it never went below. */
  function Least(book: PositionBook, fills: seq<PaperFill>): real {
    if fills == [] then Min(0.0, book.quantity)
    else Min(Least(book, fills[..|fills| - 1]), Running(book, fills))
  }

  /** `m` is a lower bound of zero and of every prefix's running quantity, and one of them. */
  ghost predicate IsLeast(m: real, book: PositionBook, fills: seq<PaperFill>) {
    && m <= 0.0
    && (forall k :: 0 <= k <= |fills| ==> m <= Running(book, fills[..k]))
    && (m == 0.0 || exists k :: 0 <= k <= |fills| && m == Running(book, fills[..k]))
  }

  /** Clamping step by step is the same as lifting the unclamped path by its deepest
      dip below zero: for a book that starts flat, S_n - min over k <= n of S_k. */
  lemma {:induction false} ClampedQuantity(book: PositionBook, fills: seq<PaperFill>)
    requires book.quantity >= 0.0
    requires forall f :: f in fills ==> f.quantity >= 0.0
    ensures FoldBook(book, fills).quantity == Running(book, fills) - Least(book, fills)
    ensures IsLeast(Least(book, fills), book, fills)
  {
    LeastIsLeast(book, fills);
    if fills != [] {
      var n := |fills| - 1;
      assert fills[n] in fills;
      ClampedQuantity(book, fills[..n]);
      FoldKeepsKey(book, fills[..n]);
      LeastAtMostZero(book, fills[..n]);
      QuantityStep(FoldBook(book, fills[..n]), fills[n]);
    }
  }

  lemma {:induction false} LeastAtMostZero(book: PositionBook, fills: seq<PaperFill>)
    ensures Least(book, fills) <= 0.0 && Least(book, fills) <= Running(book, fills)
  {
    if fills != [] { LeastAtMostZero(book, fills[..|fills| - 1]); }
  }

  lemma QuantityStep(b: PositionBook, f: PaperFill)
    requires b.quantity >= 0.0 && f.quantity >= 0.0
    ensures UpdatedBook(b, f).quantity == Max(0.0, b.quantity + Signed(b, f))
  {
  }

  /** The least value the closed form speaks of is always there. */
  lemma {:induction false} LeastIsLeast(book: PositionBook, fills: seq<PaperFill>)
    ensures IsLeast(Least(book, fills), book, fills)
  {
    var m := Least(book, fills);
    if fills == [] {
      assert fills[..0] == [];
    } else {
      var n := |fills| - 1;
      var before := fills[..n];
      LeastIsLeast(book, before);
      var m' := Least(book, before);
      assert fills[..n + 1] == fills;
      forall k | 0 <= k <= |fills| ensures m <= Running(book, fills[..k]) {
        if k <= n { assert fills[..k] == before[..k]; }
      }
      if m != 0.0 && m == m' {
        var k :| 0 <= k <= n && m' == Running(book, before[..k]);
        assert fills[..k] == before[..k];
      }
    }
  }

  lemma {:induction false} FoldKeepsKey(book: PositionBook, fills: seq<PaperFill>)
    ensures FoldBook(book, fills).symbol == book.symbol && FoldBook(book, fills).side == book.side
  {
    if fills != [] { FoldKeepsKey(book, fills[..|fills| - 1]); }
  }

  // ---------------------------------------------------------------- splitting a fill

  lemma DivMul(x: real, y: real)
    requires y != 0.0
    ensures x / y * y == x
  {
  }

  /** Averaging in `a` and then `b` at one price is averaging in their sum. */
  lemma AverageSplits(q: real, e: real, a: real, b: real, w: real, p: real)
    requires q >= 0.0 && a > 0.0 && b > 0.0 && w == a + b
    ensures ((q + a) * ((q * e + a * p) / (q + a)) + b * p) / (q + a + b) == (q * e + w * p) / (q + w)
  {
    DivMul(q * e + a * p, q + a);
    assert (q + a) * ((q * e + a * p) / (q + a)) == q * e + a * p;
    assert q * e + a * p + b * p == q * e + w * p;
  }

  lemma OpeningSplits(book: PositionBook, f: PaperFill, g: PaperFill, whole: PaperFill)
    requires book.quantity >= 0.0 && f.quantity > 0.0 && g.quantity > 0.0
    requires SameTerms(f, g) && SameTerms(f, whole) && f.quantity + g.quantity == whole.quantity
    requires Touches(book, f) && IsIncrease(f)
    ensures UpdatedBook(UpdatedBook(book, f), g) == UpdatedBook(book, whole)
  {
    var once, b := UpdatedBook(book, whole), UpdatedBook(book, f);
    var twice := UpdatedBook(b, g);
    AverageSplits(book.quantity, book.entryPrice, f.quantity, g.quantity, whole.quantity, f.price);
    assert b.quantity == book.quantity + f.quantity;
    assert b.entryPrice == (book.quantity * book.entryPrice + f.quantity * f.price) / (book.quantity + f.quantity);
    assert twice.quantity == book.quantity + f.quantity + g.quantity == once.quantity;
    assert twice.entryPrice == once.entryPrice;
    assert twice.notional == once.notional;
  }

  lemma BookSplits(book: PositionBook, f: PaperFill, g: PaperFill, whole: PaperFill)
    requires book.quantity >= 0.0 && f.quantity > 0.0 && g.quantity > 0.0
    requires SameTerms(f, g) && SameTerms(f, whole) && f.quantity + g.quantity == whole.quantity
    ensures UpdatedBook(UpdatedBook(book, f), g) == UpdatedBook(book, whole)
  {
    if Touches(book, f) && IsIncrease(f) {
      OpeningSplits(book, f, g, whole);
    }
  }

  /** Two fills on the same book and side at the same price. */
  predicate SameTerms(f: PaperFill, g: PaperFill) {
    f.symbol == g.symbol && f.side == g.side && f.bookSide == g.bookSide && f.price == g.price
  }

  /** Two consecutive fills at one price leave exactly the account one fill of their
      joint quantity and fee leaves: quantity, entry, mark, notional and collateral. */
  lemma FillSplits(a: AccountState, f: PaperFill, g: PaperFill, whole: PaperFill)
    requires forall b :: b in a.positionBooks ==> b.quantity >= 0.0
    requires f.quantity > 0.0 && g.quantity > 0.0
    requires SameTerms(f, g) && SameTerms(f, whole)
    requires f.quantity + g.quantity == whole.quantity && f.fee + g.fee == whole.fee
    ensures ApplyPaperFill(ApplyPaperFill(a, f), g) == ApplyPaperFill(a, whole)
  {
    var once := ApplyPaperFill(a, whole);
    var twice := ApplyPaperFill(ApplyPaperFill(a, f), g);
    forall i | 0 <= i < |a.positionBooks|
      ensures twice.positionBooks[i] == once.positionBooks[i]
    {
      assert a.positionBooks[i] in a.positionBooks;
      BookSplits(a.positionBooks[i], f, g, whole);
    }
    assert twice.positionBooks == once.positionBooks;
    assert twice.collateralAssets == once.collateralAssets;
  }

  datatype Moment = Quantity | Cost

  function Part(m: Moment, f: PaperFill): real {
    match m case Quantity => f.quantity case Cost => f.quantity * f.price
  }

  function TotalOf(m: Moment, fills: seq<PaperFill>): real {
    if fills == [] then 0.0 else TotalOf(m, fills[..|fills| - 1]) + Part(m, fills[|fills| - 1])
  }

  /** One fill in place of many: the first with the joint quantity and fee. */
  function Joined(fills: seq<PaperFill>): PaperFill
    requires fills != []
  {
    fills[0].(quantity := TotalOf(Quantity, fills), fee := TotalFees(fills))
  }

  lemma OneFill(a: AccountState, fills: seq<PaperFill>)
    requires |fills| == 1
    ensures Joined(fills) == fills[0] && ApplyFills(a, fills) == ApplyPaperFill(a, fills[0])
  {
    hide ApplyPaperFill;
    assert fills[..|fills| - 1] == [];
    assert TotalOf(Quantity, []) == 0.0 && TotalFees([]) == 0.0 && ApplyFills(a, []) == a;
    assert TotalOf(Quantity, fills) == fills[0].quantity;
  }

  /** Any run of fills at one price, however finely an order was split, leaves exactly
      the account the joined fill leaves. */
  lemma {:induction false} BlockIsOneFill(a: AccountState, fills: seq<PaperFill>)
    requires fills != []
    requires forall b :: b in a.positionBooks ==> b.quantity >= 0.0
    requires forall f :: f in fills ==> SameTerms(f, fills[0]) && f.quantity > 0.0
    ensures ApplyFills(a, fills) == ApplyPaperFill(a, Joined(fills))
    ensures Joined(fills).quantity > 0.0
    decreases |fills|
  {
    var n := |fills| - 1;
    assert fills[n] in fills;
    if n == 0 {
      OneFill(a, fills);
    } else {
      BlockIsOneFill(a, fills[..n]);
      FillSplits(a, Joined(fills[..n]), fills[n], Joined(fills));
    }
  }

  // ---------------------------------------------------------------- reordering opening fills

  lemma {:induction false} TotalRemoves(m: Moment, fills: seq<PaperFill>, k: nat)
    requires k < |fills|
    ensures TotalOf(m, fills) == TotalOf(m, Without(fills, k)) + Part(m, fills[k])
  {
    var n := |fills| - 1;
    if k == n {
      assert Without(fills, k) == fills[..n];
    } else {
      TotalRemoves(m, fills[..n], k);
      var rest := Without(fills, k);
      assert rest[..|rest| - 1] == Without(fills[..n], k);
    }
  }

  lemma {:induction false} TotalIgnoresOrder(m: Moment, fs: seq<PaperFill>, gs: seq<PaperFill>)
    requires multiset(fs) == multiset(gs)
    ensures TotalOf(m, fs) == TotalOf(m, gs)
    decreases |fs|
  {
    if fs == [] {
      assert |multiset(gs)| == 0;
    } else {
      var k := PermutationStep(fs, gs);
      TotalIgnoresOrder(m, fs[..|fs| - 1], Without(gs, k));
      TotalRemoves(m, gs, k);
    }
  }

  ghost predicate AllOpen(book: PositionBook, fills: seq<PaperFill>) {
    forall f :: f in fills ==> Touches(book, f) && IsIncrease(f) && f.quantity > 0.0
  }

  /** A book of `quantity` whose average cost amounts to `cost` in all. */
  predicate Averages(b: PositionBook, quantity: real, cost: real) {
    b.quantity == quantity && quantity * b.entryPrice == cost
  }

  lemma AverageCosts(total: real, q': real, cost': real)
    requires q' > 0.0 && total == cost'
    ensures q' * (total / q') == cost'
  {
    DivMul(total, q');
  }

  lemma OpeningStep(b: PositionBook, f: PaperFill, quantity: real, cost: real, quantity': real, cost': real)
    requires quantity >= 0.0 && Touches(b, f) && IsIncrease(f) && f.quantity > 0.0
    requires Averages(b, quantity, cost)
    requires quantity' == quantity + Part(Quantity, f) && cost' == cost + Part(Cost, f)
    ensures Averages(UpdatedBook(b, f), quantity', cost')
  {
    AverageCosts(b.quantity * b.entryPrice + f.quantity * f.price, quantity', cost');
  }

  lemma SameKeyTouches(book: PositionBook, b: PositionBook, f: PaperFill)
    requires b.symbol == book.symbol && b.side == book.side
    ensures Touches(b, f) == Touches(book, f)
  {
  }

  lemma {:induction false} OpeningsAddUp(book: PositionBook, fills: seq<PaperFill>)
    requires AllOpen(book, fills)
    ensures TotalOf(Quantity, fills) >= 0.0 && (fills != [] ==> TotalOf(Quantity, fills) > 0.0)
  {
    if fills != [] {
      var n := |fills| - 1;
      assert fills[n] in fills;
      OpeningsAddUp(book, fills[..n]);
    }
  }

  lemma {:induction false} OpeningBlock(book: PositionBook, fills: seq<PaperFill>, cost: real)
    requires book.quantity >= 0.0 && AllOpen(book, fills) && Averages(book, book.quantity, cost)
    ensures Averages(FoldBook(book, fills), book.quantity + TotalOf(Quantity, fills), cost + TotalOf(Cost, fills))
  {
    hide Averages, Touches, IsIncrease, UpdatedBook, Part;
    if fills != [] {
      var n := |fills| - 1;
      var b := FoldBook(book, fills[..n]);
      assert fills[n] in fills;
      OpeningBlock(book, fills[..n], cost);
      OpeningsAddUp(book, fills[..n]);
      FoldKeepsKey(book, fills[..n]);
      SameKeyTouches(book, b, fills[n]);
      OpeningStep(b, fills[n],
                  book.quantity + TotalOf(Quantity, fills[..n]), cost + TotalOf(Cost, fills[..n]),
                  book.quantity + TotalOf(Quantity, fills), cost + TotalOf(Cost, fills));
    }
  }

  lemma SameFactor(q: real, e: real, e': real)
    requires q > 0.0 && q * e == q * e'
    ensures e == e'
  {
    assert q * (e - e') == 0.0;
  }

  lemma SameAverage(b: PositionBook, c: PositionBook, quantity: real, cost: real)
    requires quantity > 0.0 && Averages(b, quantity, cost) && Averages(c, quantity, cost)
    ensures b.entryPrice == c.entryPrice
  {
    SameFactor(quantity, b.entryPrice, c.entryPrice);
  }

  /** A block of opening fills gives the same quantity and entry price in any order. */
  lemma OpeningOrderIsIrrelevant(book: PositionBook, fs: seq<PaperFill>, gs: seq<PaperFill>)
    requires book.quantity >= 0.0 && AllOpen(book, fs)
    requires multiset(fs) == multiset(gs)
    ensures FoldBook(book, fs).quantity == FoldBook(book, gs).quantity
    ensures FoldBook(book, fs).entryPrice == FoldBook(book, gs).entryPrice
  {
    forall f | f in gs ensures f in fs {
      assert f in multiset(gs);
    }
    var cost := book.quantity * book.entryPrice;
    OpeningBlock(book, fs, cost);
    OpeningBlock(book, gs, cost);
    OpeningsAddUp(book, fs);
    TotalIgnoresOrder(Quantity, fs, gs);
    TotalIgnoresOrder(Cost, fs, gs);
    if fs == [] {
      assert |multiset(gs)| == 0;
      assert gs == [];
    } else {
      SameAverage(FoldBook(book, fs), FoldBook(book, gs), book.quantity + TotalOf(Quantity, fs),
                  cost + TotalOf(Cost, fs));
    }
  }

  // ---------------------------------------------------------------- entry price

  /** Prices at which the position now held was opened: everything since the book was last flat. */
  function OpeningPrices(book: PositionBook, fills: seq<PaperFill>): seq<real> {
    if fills == [] then
      if book.quantity > 0.0 then [book.entryPrice] else []
    else
      var f := fills[|fills| - 1];
      var prices := OpeningPrices(book, fills[..|fills| - 1]);
      if !Touches(book, f) then prices
      else if IsIncrease(f) then prices + [f.price]
      else if FoldBook(book, fills).quantity > 0.0 then prices
      else []
  }

  ghost predicate Within(x: real, prices: seq<real>) {
    && (exists lo :: lo in prices && lo <= x)
    && (exists hi :: hi in prices && x <= hi)
  }

  predicate EntryOk(book: PositionBook) {
    book.quantity >= 0.0 && book.entryPrice >= 0.0 && (book.entryPrice == 0.0 <==> book.quantity == 0.0)
  }

  lemma LargerFactor(q: real, x: real, y: real)
    requires q >= 0.0 && x <= y
    ensures q * x <= q * y
  {
    assert q * (y - x) >= 0.0;
  }

  /** A lower bound of two prices is one of their average. */
  lemma AverageAtLeast(q: real, e: real, a: real, p: real, lo: real)
    requires q >= 0.0 && a > 0.0 && lo <= e && lo <= p
    ensures lo <= (q * e + a * p) / (q + a)
  {
    var x := (q * e + a * p) / (q + a);
    DivMul(q * e + a * p, q + a);
    LargerFactor(q, lo, e);
    LargerFactor(a, lo, p);
    assert (x - lo) * (q + a) == (q * e - q * lo) + (a * p - a * lo);
    NonNegativeFactor(x - lo, q + a);
  }

  lemma AverageAtMost(q: real, e: real, a: real, p: real, hi: real)
    requires q >= 0.0 && a > 0.0 && e <= hi && p <= hi
    ensures (q * e + a * p) / (q + a) <= hi
  {
    var x := (q * e + a * p) / (q + a);
    DivMul(q * e + a * p, q + a);
    LargerFactor(q, e, hi);
    LargerFactor(a, p, hi);
    assert (hi - x) * (q + a) == (q * hi - q * e) + (a * hi - a * p);
    NonNegativeFactor(hi - x, q + a);
  }

  lemma AverageOfOne(q: real, e: real, a: real, p: real)
    requires q == 0.0 && a > 0.0
    ensures (q * e + a * p) / (q + a) == p
  {
    DivMul(a * p, a);
    SameFactor(a, (a * p) / a, p);
    assert q * e + a * p == a * p;
  }

  lemma PositiveFactor(x: real, y: real)
    requires x * y > 0.0 && y > 0.0
    ensures x > 0.0
  {
  }

  lemma NonNegativeFactor(x: real, y: real)
    requires x * y >= 0.0 && y > 0.0
    ensures x >= 0.0
  {
  }

  lemma OpeningKeepsEntry(b: PositionBook, f: PaperFill)
    requires EntryOk(b) && Touches(b, f) && IsIncrease(f) && f.quantity > 0.0 && f.price > 0.0
    ensures EntryOk(UpdatedBook(b, f)) && UpdatedBook(b, f).quantity > 0.0
    ensures b.quantity == 0.0 ==> UpdatedBook(b, f).entryPrice == f.price
    ensures Min(b.entryPrice, f.price) <= UpdatedBook(b, f).entryPrice <= Max(b.entryPrice, f.price)
  {
    AverageAtLeast(b.quantity, b.entryPrice, f.quantity, f.price, Min(b.entryPrice, f.price));
    AverageAtMost(b.quantity, b.entryPrice, f.quantity, f.price, Max(b.entryPrice, f.price));
    if b.quantity == 0.0 { AverageOfOne(b.quantity, b.entryPrice, f.quantity, f.price); }
  }

  lemma WithinGrows(e: real, p: real, x: real, prices: seq<real>)
    requires prices == [] ==> x == p
    requires prices != [] ==> Within(e, prices) && Min(e, p) <= x <= Max(e, p)
    ensures Within(x, prices + [p])
  {
    var grown := prices + [p];
    assert grown[|prices|] == p && p in grown;
    if prices != [] {
      var lo :| lo in prices && lo <= e;
      var hi :| hi in prices && e <= hi;
      assert lo in grown && hi in grown;
      assert if e < p then lo <= x else p <= x;
      assert if e < p then x <= p else x <= hi;
    }
  }

  ghost predicate EntryInvariant(book: PositionBook, prices: seq<real>) {
    && EntryOk(book)
    && (book.quantity == 0.0 <==> prices == [])
    && (book.quantity > 0.0 ==> Within(book.entryPrice, prices))
  }

  /** Over any run of fills: the entry price is zero exactly when the book is flat, and
      otherwise lies between two prices paid since the book was last flat. */
  lemma {:induction false} EntryPriceInvariant(book: PositionBook, fills: seq<PaperFill>)
    requires EntryOk(book)
    requires forall f :: f in fills ==> f.quantity > 0.0 && f.price > 0.0
    ensures EntryInvariant(FoldBook(book, fills), OpeningPrices(book, fills))
  {
    if fills == [] {
      if book.quantity > 0.0 { assert book.entryPrice in OpeningPrices(book, fills); }
    } else {
      var n := |fills| - 1;
      var f := fills[n];
      assert f in fills;
      EntryPriceInvariant(book, fills[..n]);
      FoldKeepsKey(book, fills[..n]);
      var b, prices := FoldBook(book, fills[..n]), OpeningPrices(book, fills[..n]);
      if Touches(book, f) && IsIncrease(f) {
        OpeningKeepsEntry(b, f);
        WithinGrows(b.entryPrice, f.price, UpdatedBook(b, f).entryPrice, prices);
      }
    }
  }

  /** The stored notional is the quantity at the mark from the first fill on. */
  predicate NotionalOk(book: PositionBook) {
    book.quantity >= 0.0 && book.markPrice >= 0.0 && book.notional == book.quantity * book.markPrice
  }

  lemma {:induction false} NotionalInvariant(book: PositionBook, fills: seq<PaperFill>)
    requires NotionalOk(book)
    requires forall f :: f in fills ==> f.quantity > 0.0 && f.price > 0.0
    ensures NotionalOk(FoldBook(book, fills))
    ensures FoldBook(book, fills).notional >= 0.0
  {
    if fills != [] {
      NotionalInvariant(book, fills[..|fills| - 1]);
    }
  }
}
