/** Side-specific hedge books with average-cost entry, clamped closes and fee debits
    (services/portfolio/accounting.py). */
module Accounting {
  import opened Schemas

  predicate IsIncrease(fill: PaperFill) {
    (fill.side == Buy && fill.bookSide == Long) || (fill.side == Sell && fill.bookSide == Short)
  }

  predicate Touches(book: PositionBook, fill: PaperFill) {
    book.symbol == fill.symbol && book.side == fill.bookSide
  }

  function UpdatedBook(book: PositionBook, fill: PaperFill): PositionBook {
    if !Touches(book, fill) then book
    else
      var newQuantity :=
        if IsIncrease(fill) then book.quantity + fill.quantity else Max(0.0, book.quantity - fill.quantity);
      var entryPrice :=
        if newQuantity <= 0.0 then 0.0
        else if IsIncrease(fill) then
          (book.quantity * book.entryPrice + fill.quantity * fill.price) / newQuantity
        else book.entryPrice;
      book.(quantity := newQuantity, entryPrice := entryPrice, markPrice := fill.price,
            notional := newQuantity * fill.price, unrealizedPnl := 0.0)
  }

  function UpdatedBooks(books: seq<PositionBook>, fill: PaperFill): seq<PositionBook> {
    seq(|books|, i requires 0 <= i < |books| => UpdatedBook(books[i], fill))
  }

  function DebitFee(collateral: CollateralAsset, fee: real): CollateralAsset {
    collateral.(walletBalance := collateral.walletBalance - fee,
                availableBalance := collateral.availableBalance - fee)
  }

  function DebitFirst(assets: seq<CollateralAsset>, fee: real): seq<CollateralAsset> {
    if assets == [] then [] else [DebitFee(assets[0], fee)] + assets[1..]
  }

  function ApplyPaperFill(a: AccountState, fill: PaperFill): AccountState {
    a.(collateralAssets := DebitFirst(a.collateralAssets, fill.fee),
       positionBooks := UpdatedBooks(a.positionBooks, fill),
       unrealizedPnl := 0.0)
  }

  /** Fills applied one after another, in list order. */
  function ApplyFills(a: AccountState, fills: seq<PaperFill>): AccountState {
    if fills == [] then a
    else ApplyPaperFill(ApplyFills(a, fills[..|fills| - 1]), fills[|fills| - 1])
  }

  lemma ApplyFillsStep(a: AccountState, fills: seq<PaperFill>, fill: PaperFill)
    ensures ApplyFills(a, fills + [fill]) == ApplyPaperFill(ApplyFills(a, fills), fill)
  {
    assert (fills + [fill])[..|fills|] == fills;
  }

  lemma {:induction false} ApplyFillsAppend(a: AccountState, fs: seq<PaperFill>, gs: seq<PaperFill>)
    ensures ApplyFills(a, fs + gs) == ApplyFills(ApplyFills(a, fs), gs)
    decreases |gs|
  {
    if gs == [] {
      assert fs + gs == fs;
    } else {
      var n := |gs| - 1;
      ApplyFillsAppend(a, fs, gs[..n]);
      assert (fs + gs)[..|fs + gs| - 1] == fs + gs[..n];
    }
  }

  /** Fills leave everything but collateral, books and the account's open profit alone. */
  lemma {:induction false} FillsKeepTheRest(a: AccountState, fills: seq<PaperFill>)
    ensures var b := ApplyFills(a, fills);
            && b.feePolicies == a.feePolicies && b.symbolMetadata == a.symbolMetadata && b.freshness == a.freshness
            && b.positionMode == a.positionMode && b.portfolioMarginEnabled == a.portfolioMarginEnabled
            && b.maintenanceMargin == a.maintenanceMargin && b.fundingExposure == a.fundingExposure
            && b.liquidationDistanceRatio == a.liquidationDistanceRatio
            && |b.positionBooks| == |a.positionBooks| && |b.collateralAssets| == |a.collateralAssets|
  {
    if fills != [] {
      FillsKeepTheRest(a, fills[..|fills| - 1]);
    }
  }

  // ---------------------------------------------------------------- one book at a time

  function FoldBook(book: PositionBook, fills: seq<PaperFill>): PositionBook {
    if fills == [] then book
    else UpdatedBook(FoldBook(book, fills[..|fills| - 1]), fills[|fills| - 1])
  }

  /** Each book evolves on its own: fills never move a book's place, its symbol or its
      side, and what other books hold does not matter to it. */
  lemma {:induction false} BooksAreIndependent(a: AccountState, fills: seq<PaperFill>, i: nat)
    requires i < |a.positionBooks|
    ensures i < |ApplyFills(a, fills).positionBooks|
    ensures ApplyFills(a, fills).positionBooks[i] == FoldBook(a.positionBooks[i], fills)
    ensures ApplyFills(a, fills).positionBooks[i].symbol == a.positionBooks[i].symbol
    ensures ApplyFills(a, fills).positionBooks[i].side == a.positionBooks[i].side
    ensures (forall f :: f in fills ==> !Touches(a.positionBooks[i], f)) ==>
              ApplyFills(a, fills).positionBooks[i] == a.positionBooks[i]
  {
    if fills != [] {
      BooksAreIndependent(a, fills[..|fills| - 1], i);
    }
  }

  // ---------------------------------------------------------------- collateral

  function TotalFees(fills: seq<PaperFill>): real {
    if fills == [] then 0.0 else TotalFees(fills[..|fills| - 1]) + fills[|fills| - 1].fee
  }

  /** The first asset has paid this much from both balances; nothing else has changed. */
  predicate Paid(assets: seq<CollateralAsset>, after: seq<CollateralAsset>, fees: real) {
    && |after| == |assets|
    && (assets != [] ==>
         after[0] == assets[0].(walletBalance := assets[0].walletBalance - fees,
                                availableBalance := assets[0].availableBalance - fees))
    && forall k :: 1 <= k < |assets| ==> after[k] == assets[k]
  }

  lemma DebitPays(assets: seq<CollateralAsset>, before: seq<CollateralAsset>, fees: real, fee: real)
    requires Paid(assets, before, fees)
    ensures Paid(assets, DebitFirst(before, fee), fees + fee)
  {
  }

  /** Conservation: the first asset pays every fee, in both balances; other assets pay nothing. */
  lemma {:induction false} CollateralPaysTheFees(a: AccountState, fills: seq<PaperFill>)
    ensures Paid(a.collateralAssets, ApplyFills(a, fills).collateralAssets, TotalFees(fills))
  {
    if fills != [] {
      hide Paid, UpdatedBooks, DebitFirst;
      var n := |fills| - 1;
      CollateralPaysTheFees(a, fills[..n]);
      DebitPays(a.collateralAssets, ApplyFills(a, fills[..n]).collateralAssets, TotalFees(fills[..n]), fills[n].fee);
    }
  }

  // ---------------------------------------------------------------- one fill, field by field

  /** Buying long or selling short opens: quantities add, and the position costs what it cost plus the fill. */
  lemma OpeningFill(b: PositionBook, f: PaperFill)
    requires b.symbol == f.symbol && b.side == f.bookSide && b.quantity + f.quantity > 0.0
    requires (f.side == Buy && f.bookSide == Long) || (f.side == Sell && f.bookSide == Short)
    ensures var c := UpdatedBook(b, f);
            && c.quantity == b.quantity + f.quantity
            && c.quantity * c.entryPrice == b.quantity * b.entryPrice + f.quantity * f.price
            && Marked(b, c, f.price)
  {
    var cost := b.quantity * b.entryPrice + f.quantity * f.price;
    assert cost / (b.quantity + f.quantity) * (b.quantity + f.quantity) == cost;
  }

  /** Selling long or buying short closes, down to zero at most, and keeps the entry price of what is left. */
  lemma ClosingFill(b: PositionBook, f: PaperFill)
    requires b.symbol == f.symbol && b.side == f.bookSide
    requires (f.side == Sell && f.bookSide == Long) || (f.side == Buy && f.bookSide == Short)
    ensures var c := UpdatedBook(b, f);
            && c.quantity == (if b.quantity > f.quantity then b.quantity - f.quantity else 0.0)
            && c.entryPrice == (if b.quantity > f.quantity then b.entryPrice else 0.0)
            && Marked(b, c, f.price)
  {
  }

  /** The book stands at the price, its profit taken as none. */
  predicate Marked(b: PositionBook, c: PositionBook, price: real) {
    && c.symbol == b.symbol && c.side == b.side && c.markPrice == price && c.notional == c.quantity * price
    && c.unrealizedPnl == 0.0
  }

  /** A fill changes nothing of an account but the books under its key, the first asset's balances by its fee, and the
      open profit, which it clears. */
  lemma FillOnAccount(a: AccountState, f: PaperFill)
    ensures var b := ApplyPaperFill(a, f);
            && b == a.(collateralAssets := b.collateralAssets, positionBooks := b.positionBooks, unrealizedPnl := 0.0)
            && |b.positionBooks| == |a.positionBooks| && |b.collateralAssets| == |a.collateralAssets|
            && (forall i :: 0 <= i < |a.positionBooks| ==>
                 b.positionBooks[i] == UpdatedBook(a.positionBooks[i], f)
                 && (a.positionBooks[i].symbol != f.symbol || a.positionBooks[i].side != f.bookSide ==>
                      b.positionBooks[i] == a.positionBooks[i]))
            && (a.collateralAssets != [] ==>
                 var x, y := a.collateralAssets[0], b.collateralAssets[0];
                 && y.walletBalance == x.walletBalance - f.fee && y.availableBalance == x.availableBalance - f.fee
                 && y.asset == x.asset && y.unrealizedPnl == x.unrealizedPnl)
            && forall k :: 1 <= k < |a.collateralAssets| ==> b.collateralAssets[k] == a.collateralAssets[k]
  {
  }
}
