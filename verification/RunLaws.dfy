/** Conservation, closed forms and identity over whole runs of the exchange. */
module RunLaws {
  import opened Schemas
  import opened Accounting
  import opened BookLaws
  import opened Pricing
  import opened ExchangeModel
  import opened OrderState
  import opened Lifecycle
  import opened EventLog
  import opened Settlement

  // ---------------------------------------------------------------- identifiers

  lemma {:induction false} NamingMembers(fills: seq<PaperFill>, orderId: nat, f: PaperFill)
    ensures f in Naming(fills, orderId) <==> f in fills && f.orderId == orderId
  {
    if fills != [] {
      var n := |fills| - 1;
      NamingMembers(fills[..n], orderId, f);
      assert fills == fills[..n] + [fills[n]];
    }
  }

  ghost predicate Ascending(fills: seq<PaperFill>) {
    forall j, k :: 0 <= j < k < |fills| ==> fills[j].fillId < fills[k].fillId
  }

  lemma {:induction false} NamingAscends(fills: seq<PaperFill>, orderId: nat)
    requires Ascending(fills)
    ensures Ascending(Naming(fills, orderId))
  {
    if fills != [] {
      var n := |fills| - 1;
      NamingAscends(fills[..n], orderId);
      forall f | f in Naming(fills[..n], orderId) ensures f.fillId < fills[n].fillId {
        NamingMembers(fills[..n], orderId, f);
      }
    }
  }

  /** A fill id names one place among all orders' fills, and every number up to the total is used. */
  ghost predicate FillIdsExact(orders: seq<PaperOrder>) {
    && (forall i, j :: 0 <= i < |orders| && 0 <= j < |orders[i].fills| ==>
          1 <= orders[i].fills[j].fillId <= TotalFills(orders))
    && (forall i, j, i', j' ::
          (0 <= i < |orders| && 0 <= j < |orders[i].fills| && 0 <= i' < |orders| && 0 <= j' < |orders[i'].fills|
           && orders[i].fills[j].fillId == orders[i'].fills[j'].fillId) ==> i == i' && j == j')
    && (forall n :: 1 <= n <= TotalFills(orders) ==> HasFill(orders, n))
  }

  ghost predicate HasFill(orders: seq<PaperOrder>, n: int) {
    exists i, j :: 0 <= i < |orders| && 0 <= j < |orders[i].fills| && orders[i].fills[j].fillId == n
  }

  lemma FillAt(fills: seq<PaperFill>, orders: seq<PaperOrder>, i: nat, j: nat)
    requires FillsOk(fills, orders) && i < |orders| && j < |orders[i].fills|
    ensures var f := orders[i].fills[j];
            1 <= f.fillId <= |fills| && fills[f.fillId - 1] == f && f.orderId == i + 1
  {
    var f := orders[i].fills[j];
    NamingMembers(fills, i + 1, f);
  }

  lemma FillIsUsed(fills: seq<PaperFill>, orders: seq<PaperOrder>, n: int)
    requires FillsOk(fills, orders) && 1 <= n <= |fills|
    ensures HasFill(orders, n)
  {
    var f := fills[n - 1];
    NamingMembers(fills, f.orderId, f);
    assert f in orders[f.orderId - 1].fills;
  }

  lemma FillIdsAreExact(fills: seq<PaperFill>, orders: seq<PaperOrder>)
    requires FillsOk(fills, orders)
    ensures FillIdsExact(orders)
  {
    forall i, j | 0 <= i < |orders| && 0 <= j < |orders[i].fills|
      ensures 1 <= orders[i].fills[j].fillId <= TotalFills(orders)
    {
      FillAt(fills, orders, i, j);
    }
    forall i, j, i', j' |
      0 <= i < |orders| && 0 <= j < |orders[i].fills| && 0 <= i' < |orders| && 0 <= j' < |orders[i'].fills|
      && orders[i].fills[j].fillId == orders[i'].fills[j'].fillId
      ensures i == i' && j == j'
    {
      FillAt(fills, orders, i, j);
      FillAt(fills, orders, i', j');
      NamingAscends(fills, i + 1);
    }
    forall n | 1 <= n <= TotalFills(orders) ensures HasFill(orders, n) {
      FillIsUsed(fills, orders, n);
    }
  }

  /** Order ids, event ids and fill ids, all derived from list lengths, never repeat between
      resets; fill numbers are exactly 1..N whatever the interleaving of partial fills. */
  lemma IdentifiersAreUnique(account: AccountState, takerGateEnabled: bool, ops: seq<Operation>)
    ensures var s := Run(Initial(account, takerGateEnabled), ops);
            && (forall i :: 0 <= i < |s.orders| ==> s.orders[i].orderId == i + 1)
            && (forall k :: 0 <= k < |s.events| ==> s.events[k].eventId == k + 1)
            && FillIdsExact(s.orders)
  {
    hide Run, FillsOk, FillIdsExact, OrderOk;
    AccountIsReplayable(account, takerGateEnabled, ops);
    LogTellsTheStory(account, takerGateEnabled, ops);
    FillIdsAreExact(HistoryOf(account, takerGateEnabled, ops).fills,
                    Run(Initial(account, takerGateEnabled), ops).orders);
  }

  // ---------------------------------------------------------------- fills are positive

  lemma FillsArePositive(fills: seq<PaperFill>, orders: seq<PaperOrder>)
    requires FillsOk(fills, orders) && OrdersOk(orders)
    ensures forall f :: f in fills ==> f.quantity > 0.0 && f.price > 0.0
  {
    forall f | f in fills ensures f.quantity > 0.0 && f.price > 0.0 {
      var j :| 0 <= j < |fills| && fills[j] == f;
      NamingMembers(fills, f.orderId, f);
      var o := orders[f.orderId - 1];
      assert f in o.fills && OrderOk(o);
      assert FillsOrder(f, o);
    }
  }

  // ---------------------------------------------------------------- collateral

  /** The fills made since the account was last renewed. */
  function Since(h: History): seq<PaperFill>
    requires h.mark <= |h.fills|
  {
    h.fills[h.mark..]
  }

  /** Collateral conservation: in every reachable state the first asset's wallet and available
      balance are those of the last renewal less all fees charged since; other assets are untouched. */
  lemma CollateralIsConserved(account: AccountState, takerGateEnabled: bool, ops: seq<Operation>)
    ensures var assets := Run(Initial(account, takerGateEnabled), ops).account.collateralAssets;
            var h := HistoryOf(account, takerGateEnabled, ops);
            && h.mark <= |h.fills| && |assets| == |h.base.collateralAssets|
            && (forall k :: 1 <= k < |assets| ==> assets[k] == h.base.collateralAssets[k])
            && (assets != [] ==>
                 && assets[0].walletBalance == h.base.collateralAssets[0].walletBalance - TotalFees(Since(h))
                 && assets[0].availableBalance == h.base.collateralAssets[0].availableBalance - TotalFees(Since(h)))
  {
    hide Run, FillsOk, OrdersOk, ApplyFills, HistoryOf;
    AccountIsReplayable(account, takerGateEnabled, ops);
    var h := HistoryOf(account, takerGateEnabled, ops);
    CollateralPaysTheFees(h.base, Since(h));
  }

  // ---------------------------------------------------------------- where the rate switched

  /** How many fills since the last reset came before the account's fee policies became the default
      ones: all up to the first flatten, none after a reset, no such place while neither happened. */
  function NextSwitch(h: History, op: Operation, x: Option<nat>): Option<nat> {
    match op
    case PanicFlattenOp(_, _) => if x == None then Some(|h.fills|) else x
    case ResetOp(_) => Some(0)
    case SubmitOp(_, _) => x
    case ProcessOp(_) => x
    case CancelOp(_, _, _) => x
    case ExpireOp(_, _) => x
    case PanicCancelOp(_) => x
    case PanicHaltOp => x
  }

  function SwitchOf(account: AccountState, takerGateEnabled: bool, ops: seq<Operation>): Option<nat> {
    if ops == [] then None
    else
      var n := |ops| - 1;
      NextSwitch(HistoryOf(account, takerGateEnabled, ops[..n]), ops[n], SwitchOf(account, takerGateEnabled, ops[..n]))
  }

  /** The last renewal is the starting account, or a fresh default account once the rate has switched. */
  ghost predicate RenewalOf(h: History, account: AccountState, x: Option<nat>) {
    match x
    case None => h.base == account
    case Some(n) => n <= |h.fills| && exists now :: h.base == DefaultAccountState(now)
  }

  lemma StepRenews(s: ExchangeState, h: History, op: Operation, account: AccountState, x: Option<nat>)
    requires RenewalOf(h, account, x)
    ensures RenewalOf(Advance(s, h, op), account, NextSwitch(h, op, x))
  {
    hide DefaultAccountState, PassOf;
  }

  lemma {:induction false} BaseIsARenewal(account: AccountState, takerGateEnabled: bool, ops: seq<Operation>)
    ensures RenewalOf(HistoryOf(account, takerGateEnabled, ops), account, SwitchOf(account, takerGateEnabled, ops))
  {
    hide Run, RenewalOf, Advance, NextSwitch;
    if ops == [] {
      StartIsARenewal(account);
    } else {
      var n := |ops| - 1;
      BaseIsARenewal(account, takerGateEnabled, ops[..n]);
      StepRenews(Run(Initial(account, takerGateEnabled), ops[..n]), HistoryOf(account, takerGateEnabled, ops[..n]),
                 ops[n], account, SwitchOf(account, takerGateEnabled, ops[..n]));
    }
  }

  lemma StartIsARenewal(account: AccountState)
    ensures RenewalOf(Start(account), account, None)
  {
  }

  // ---------------------------------------------------------------- fees

  const DEFAULT_MAKER_RATE := 0.0001

  /** The rate in force for a fill: the starting account's, or the default one from the switch on. */
  function ChargedRate(f: PaperFill, policies: seq<FeePolicy>, x: Option<nat>): real {
    if x.Some? && f.fillId > x.value then DEFAULT_MAKER_RATE else MakerRate(policies, f.symbol)
  }

  predicate Charged(f: PaperFill, rate: real) {
    f.fee == f.quantity * f.price * rate
  }

  ghost predicate FeesOk(fills: seq<PaperFill>, policies: seq<FeePolicy>, x: Option<nat>) {
    forall f :: f in fills ==> Charged(f, ChargedRate(f, policies, x))
  }

  lemma DefaultRates(now: Time, symbol: Symbol)
    requires symbol == BTCUSDC || symbol == ETHUSDC
    ensures MakerRate(DefaultAccountState(now).feePolicies, symbol) == DEFAULT_MAKER_RATE
  {
    var policies := DefaultFeePolicies(now);
    assert policies[1..] == [policies[1]];
    assert FeeFor(policies, symbol) == Some(if symbol == BTCUSDC then policies[0] else policies[1]);
  }

  predicate ChargedBy(f: PaperFill, policies: seq<FeePolicy>) {
    (f.symbol == BTCUSDC || f.symbol == ETHUSDC) && Charged(f, MakerRate(policies, f.symbol))
  }

  lemma VisitFee(o: PaperOrder, policies: seq<FeePolicy>, fillId: nat, eventId: nat, now: Time)
    requires OrderOk(o)
    ensures forall f :: f in Visit(o, policies, fillId, eventId, now).fills ==> ChargedBy(f, policies)
  {
    hide Visit, MakerRate, FillShape;
    if o.IsOpen() {
      VisitOpen(o, policies, fillId, eventId, now);
    } else {
      VisitClosed(o, policies, fillId, eventId, now);
    }
  }

  lemma {:induction false} PassFees(
    orders: seq<PaperOrder>, k: nat, policies: seq<FeePolicy>, fillBase: nat, eventBase: nat, now: Time)
    requires k <= |orders| && OrdersOk(orders)
    ensures forall f :: f in VisitUpTo(orders, k, policies, fillBase, eventBase, now).fills ==> ChargedBy(f, policies)
  {
    hide Visit, ChargedBy, OrderOk;
    if k != 0 {
      var done := VisitUpTo(orders, k - 1, policies, fillBase, eventBase, now);
      PassFees(orders, k - 1, policies, fillBase, eventBase, now);
      VisitFee(orders[k - 1], policies, fillBase + |done.fills| + 1, eventBase + |done.events| + 1, now);
    }
  }

  /** The policies now in force are those of the rate's side of the switch. */
  lemma RateInForce(s: ExchangeState, h: History, start: AccountState, x: Option<nat>, symbol: Symbol)
    requires HistoryOk(s, h) && RenewalOf(h, start, x) && (symbol == BTCUSDC || symbol == ETHUSDC)
    ensures MakerRate(s.account.feePolicies, symbol)
            == if x.Some? then DEFAULT_MAKER_RATE else MakerRate(start.feePolicies, symbol)
  {
    hide FillsOk, ApplyFills, MakerRate, DefaultAccountState;
    FillsKeepTheRest(h.base, h.fills[h.mark..]);
    if x.Some? {
      var now :| h.base == DefaultAccountState(now);
      DefaultRates(now, symbol);
    }
  }

  lemma ProcessFees(s: ExchangeState, h: History, now: Time, start: AccountState, x: Option<nat>)
    requires OrdersOk(s.orders) && HistoryOk(s, h) && RenewalOf(h, start, x) && FeesOk(h.fills, start.feePolicies, x)
    ensures FeesOk(Advance(s, h, ProcessOp(now)).fills, start.feePolicies, x)
  {
    hide OrdersOk, FillsOk, VisitUpTo, MakerRate, DefaultAccountState, ApplyFills, PassFillsOk, Charged;
    var p := PassOf(s, now);
    FillsTotal(h.fills, s.orders);
    PassFees(s.orders, |s.orders|, s.account.feePolicies, TotalFills(s.orders), |s.events|, now);
    PassNumbers(s, now);
    forall f | f in p.fills ensures Charged(f, ChargedRate(f, start.feePolicies, x)) {
      assert ChargedBy(f, s.account.feePolicies);
      RateInForce(s, h, start, x, f.symbol);
    }
  }

  lemma PassNumbers(s: ExchangeState, now: Time)
    requires OrdersOk(s.orders)
    ensures forall f :: f in PassOf(s, now).fills ==> f.fillId > TotalFills(s.orders)
  {
    hide OrdersOk, VisitUpTo, TotalFills, FillsUpTo, Naming;
    PassFills(s.orders, |s.orders|, s.account.feePolicies, TotalFills(s.orders), |s.events|, now);
  }

  lemma StepFees(s: ExchangeState, h: History, op: Operation, start: AccountState, x: Option<nat>)
    requires OrdersOk(s.orders) && HistoryOk(s, h) && RenewalOf(h, start, x) && FeesOk(h.fills, start.feePolicies, x)
    ensures FeesOk(Advance(s, h, op).fills, start.feePolicies, NextSwitch(h, op, x))
  {
    hide OrdersOk, RenewalOf, ApplyFills, TotalFills, Naming, MakerRate, DefaultAccountState, PassOf, Charged;
    if op.ProcessOp? {
      ProcessFees(s, h, op.now, start, x);
    } else if op.PanicFlattenOp? && x == None {
      forall f | f in h.fills ensures f.fillId <= |h.fills| {
        var j :| 0 <= j < |h.fills| && h.fills[j] == f;
      }
      forall f | f in h.fills ensures Charged(f, ChargedRate(f, start.feePolicies, Some(|h.fills|))) {
        assert Charged(f, ChargedRate(f, start.feePolicies, x));
      }
    }
  }

  /** Every fill ever made was charged exactly the rate of its side of the switch. */
  lemma {:induction false} EveryFillFee(account: AccountState, takerGateEnabled: bool, ops: seq<Operation>)
    ensures FeesOk(HistoryOf(account, takerGateEnabled, ops).fills, account.feePolicies,
                   SwitchOf(account, takerGateEnabled, ops))
  {
    hide Run, FeesOk, HistoryOk, OrdersOk, Advance, RenewalOf, NextSwitch;
    if ops == [] {
      NoFees(account.feePolicies, None);
    } else {
      var n := |ops| - 1;
      var s, h := Run(Initial(account, takerGateEnabled), ops[..n]), HistoryOf(account, takerGateEnabled, ops[..n]);
      EveryFillFee(account, takerGateEnabled, ops[..n]);
      AccountIsReplayable(account, takerGateEnabled, ops[..n]);
      BaseIsARenewal(account, takerGateEnabled, ops[..n]);
      StepFees(s, h, ops[n], account, SwitchOf(account, takerGateEnabled, ops[..n]));
    }
  }

  lemma NoFees(policies: seq<FeePolicy>, x: Option<nat>)
    ensures FeesOk([], policies, x)
  {
  }

  /** Fees charged at one rate amount to the notional traded at that rate. */
  lemma {:induction false} FeesAtOneRate(fills: seq<PaperFill>, rate: real)
    requires forall f :: f in fills ==> Charged(f, rate)
    ensures TotalFees(fills) == rate * TotalOf(Cost, fills)
  {
    if fills != [] {
      hide Charged;
      var n := |fills| - 1;
      assert fills[n] in fills;
      FeesAtOneRate(fills[..n], rate);
      OneCharge(fills[n], rate);
      Distributes(rate, TotalOf(Cost, fills[..n]), Part(Cost, fills[n]));
    }
  }

  lemma OneCharge(f: PaperFill, rate: real)
    requires Charged(f, rate)
    ensures f.fee == rate * Part(Cost, f)
  {
  }

  lemma Distributes(rate: real, x: real, y: real)
    ensures rate * (x + y) == rate * x + rate * y
  {
  }

  lemma FillsAreExecutable(fills: seq<PaperFill>, orders: seq<PaperOrder>)
    requires FillsOk(fills, orders) && OrdersOk(orders)
    ensures forall f :: f in fills ==> f.symbol == BTCUSDC || f.symbol == ETHUSDC
  {
    forall f | f in fills ensures f.symbol == BTCUSDC || f.symbol == ETHUSDC {
      var j :| 0 <= j < |fills| && fills[j] == f;
      NamingMembers(fills, f.orderId, f);
      assert f in orders[f.orderId - 1].fills && OrderOk(orders[f.orderId - 1]);
      assert FillsOrder(f, orders[f.orderId - 1]);
    }
  }

  lemma DefaultCharges(start: Time, fills: seq<PaperFill>, x: Option<nat>)
    requires FeesOk(fills, DefaultAccountState(start).feePolicies, x)
    requires forall f :: f in fills ==> f.symbol == BTCUSDC || f.symbol == ETHUSDC
    ensures forall f :: f in fills ==> Charged(f, DEFAULT_MAKER_RATE)
  {
    hide Charged, MakerRate, DefaultAccountState;
    forall f | f in fills ensures Charged(f, DEFAULT_MAKER_RATE) {
      DefaultRates(start, f.symbol);
      assert Charged(f, ChargedRate(f, DefaultAccountState(start).feePolicies, x));
    }
  }

  /** Over any run from the default account, wallet and available balance are 100000 less 0.0001 of the notional traded
      since the account was last renewed. */
  lemma WalletPaysForTurnover(start: Time, takerGateEnabled: bool, ops: seq<Operation>)
    ensures var assets := Run(Initial(DefaultAccountState(start), takerGateEnabled), ops).account.collateralAssets;
            var h := HistoryOf(DefaultAccountState(start), takerGateEnabled, ops);
            && h.mark <= |h.fills| && |assets| == 1
            && assets[0].walletBalance == 100000.0 - 0.0001 * TotalOf(Cost, Since(h))
            && assets[0].availableBalance == assets[0].walletBalance
  {
    hide Run, HistoryOf, SwitchOf, FillsOk, OrdersOk, FeesOk, ApplyFills, DefaultAccountState, Charged;
    var account := DefaultAccountState(start);
    var h := HistoryOf(account, takerGateEnabled, ops);
    AccountIsReplayable(account, takerGateEnabled, ops);
    CollateralIsConserved(account, takerGateEnabled, ops);
    EveryFillFee(account, takerGateEnabled, ops);
    FillsAreExecutable(h.fills, Run(Initial(account, takerGateEnabled), ops).orders);
    DefaultCharges(start, h.fills, SwitchOf(account, takerGateEnabled, ops));
    forall f | f in Since(h) ensures Charged(f, DEFAULT_MAKER_RATE) {
      assert f in h.fills;
    }
    FeesAtOneRate(Since(h), DEFAULT_MAKER_RATE);
    BaseIsARenewal(account, takerGateEnabled, ops);
    BaseIsDefault(h, start, SwitchOf(account, takerGateEnabled, ops));
  }

  lemma BaseIsDefault(h: History, start: Time, x: Option<nat>)
    requires RenewalOf(h, DefaultAccountState(start), x)
    ensures h.base.collateralAssets == [CollateralAsset("USDC", 100000.0, 100000.0, 0.0)]
  {
  }

  // ---------------------------------------------------------------- what an order paid

  /** The rate switched while the order was half filled. */
  predicate Straddles(o: PaperOrder, x: Option<nat>) {
    |o.fills| == 2 && x.Some? && o.fills[0].fillId <= x.value < o.fills[1].fillId
  }

  /** What an order with fills has paid, in terms of the rate at its first fill. */
  ghost predicate OrderFeesOk(o: PaperOrder, policies: seq<FeePolicy>, x: Option<nat>)
    requires o.fills != []
  {
    var rate := ChargedRate(o.fills[0], policies, x);
    var half := o.intent.quantity / 2.0 * o.intent.limitPrice;
    && (!Straddles(o, x) ==> TotalFees(o.fills) == o.filledQuantity * o.intent.limitPrice * rate)
    && (Straddles(o, x) ==> TotalFees(o.fills) == half * rate + half * DEFAULT_MAKER_RATE)
    && (o.status == Filled ==>
         (TotalFees(o.fills) == o.intent.Notional() * rate <==> rate == DEFAULT_MAKER_RATE || !Straddles(o, x)))
  }

  lemma TwoFees(fills: seq<PaperFill>)
    ensures |fills| == 1 ==> TotalFees(fills) == fills[0].fee
    ensures |fills| == 2 ==> TotalFees(fills) == fills[0].fee + fills[1].fee
  {
    assert TotalFees([]) == 0.0;
    if |fills| == 1 {
      assert fills[..0] == [];
    } else if |fills| == 2 {
      assert fills[..1] == [fills[0]] && fills[..1][..0] == [];
      assert TotalFees(fills[..1]) == fills[0].fee;
    }
  }

  lemma HalvesMakeWhole(x: real, p: real, rate: real)
    ensures x / 2.0 * p * rate + x / 2.0 * p * rate == x * p * rate
  {
    var half := x / 2.0 * p;
    assert half + half == x * p;
    assert half * rate + half * rate == (half + half) * rate;
  }

  lemma HalvesOf(x: real, p: real, rate: real, other: real, notional: real)
    requires x > 0.0 && p > 0.0 && notional == x * p
    ensures x / 2.0 * p * rate + x / 2.0 * p * other == notional * rate <==> rate == other
  {
    var y := x / 2.0 * p;
    assert x * p == y + y;
    assert y * rate + y * other - (y + y) * rate == y * (other - rate);
  }

  /** An order with one fill, or two halves, as far as fees are concerned. */
  lemma OneOrderFees(o: PaperOrder, policies: seq<FeePolicy>, x: Option<nat>)
    requires OrderOk(o) && o.fills != [] && FeesOk(o.fills, policies, x)
    requires |o.fills| == 2 ==> o.fills[0].fillId < o.fills[1].fillId
    ensures OrderFeesOk(o, policies, x)
  {
    hide MakerRate, TotalFees, TotalOf;
    FilledQuantityByStatus(o);
    TwoFees(o.fills);
    var f := o.fills[0];
    var rate := ChargedRate(f, policies, x);
    assert FillsOrder(f, o) && Charged(f, rate);
    if |o.fills| == 2 {
      var g := o.fills[1];
      assert g in o.fills && FillsOrder(g, o) && Charged(g, ChargedRate(g, policies, x));
      HalvesMakeWhole(o.intent.quantity, o.intent.limitPrice, rate);
      HalvesOf(o.intent.quantity, o.intent.limitPrice, rate, DEFAULT_MAKER_RATE, o.intent.Notional());
    }
  }

  lemma OrderFeesOf(fills: seq<PaperFill>, orders: seq<PaperOrder>, i: nat, policies: seq<FeePolicy>, x: Option<nat>)
    requires FillsOk(fills, orders) && OrdersOk(orders) && FeesOk(fills, policies, x)
    requires i < |orders| && orders[i].fills != []
    ensures OrderFeesOk(orders[i], policies, x)
  {
    hide OrderOk, Charged, ChargedRate, OrderFeesOk, TotalFills;
    forall f | f in orders[i].fills ensures Charged(f, ChargedRate(f, policies, x)) {
      NamingMembers(fills, i + 1, f);
    }
    NamingAscends(fills, i + 1);
    OneOrderFees(orders[i], policies, x);
  }

  /** In every reachable state, an order has paid exactly its filled notional at the rate of its first fill,
      however it was split, unless the rate switched while it was half filled; then it has paid one half
      at each rate.  So a filled order has paid its notional at its first rate if and only if that rate is
      the default one or no flatten switched it in between. */
  lemma OrderFees(account: AccountState, takerGateEnabled: bool, ops: seq<Operation>, i: nat)
    requires i < |Run(Initial(account, takerGateEnabled), ops).orders|
    ensures var o := Run(Initial(account, takerGateEnabled), ops).orders[i];
            if o.fills == [] then TotalFees(o.fills) == 0.0
            else OrderFeesOk(o, account.feePolicies, SwitchOf(account, takerGateEnabled, ops))
  {
    hide Run, HistoryOf, SwitchOf, FillsOk, FeesOk, OrderFeesOk, OrderOk;
    AccountIsReplayable(account, takerGateEnabled, ops);
    EveryFillFee(account, takerGateEnabled, ops);
    var orders := Run(Initial(account, takerGateEnabled), ops).orders;
    if orders[i].fills != [] {
      OrderFeesOf(HistoryOf(account, takerGateEnabled, ops).fills, orders, i, account.feePolicies,
                  SwitchOf(account, takerGateEnabled, ops));
    }
  }

  // ---------------------------------------------------------------- a renewal between two halves

  /** A pass charges an open order `i` one fill at the current maker rate. */
  lemma PassCharges(s: ExchangeState, now: Time, i: nat)
    requires OrdersOk(s.orders) && i < |s.orders| && s.orders[i].IsOpen()
    ensures |Process(s, now).orders| == |s.orders|
    ensures var o := s.orders[i];
            TotalFees(Process(s, now).orders[i].fills)
            == TotalFees(o.fills)
              + Amount(o, now) * o.intent.limitPrice * MakerRate(s.account.feePolicies, o.intent.symbol)
  {
    hide Visit, VisitUpTo, ApplyFills, MakerRate, Amount, OrderOk, AfterFill, TotalFills;
    var o, policies, base := s.orders[i], s.account.feePolicies, TotalFills(s.orders);
    var fillId := FillIdAt(s.orders, i, policies, base, |s.events|, now);
    var eventId := EventIdAt(s.orders, i, policies, base, |s.events|, now);
    PassIsAMap(s.orders, |s.orders|, policies, base, |s.events|, now, i);
    VisitOpen(o, policies, fillId, eventId, now);
    var v := Visit(o, policies, fillId, eventId, now);
    assert [Process(s, now).orders[i]] == v.orders;
    assert v.fills == [v.fills[0]];
    assert v.orders[0].fills[..|o.fills|] == o.fills;
  }

  /** One pass over a half-filled order, or a new one not better than the touch, charges one half. */
  lemma PassChargesHalf(s: ExchangeState, now: Time, i: nat)
    requires OrdersOk(s.orders) && i < |s.orders| && s.orders[i].IsOpen()
    requires s.orders[i].status == New ==>
               PlacementOf(s.orders[i].intent, PreviewQuote(s.orders[i].intent.symbol, now)) != BetterThanTouch
    ensures i < |Process(s, now).orders|
    ensures var o := s.orders[i];
            var after := Process(s, now).orders[i];
            && after.intent == o.intent && after.status == (if o.status == New then PartiallyFilled else Filled)
            && TotalFees(after.fills)
               == TotalFees(o.fills)
                  + o.intent.quantity / 2.0 * o.intent.limitPrice * MakerRate(s.account.feePolicies, o.intent.symbol)
  {
    hide OrdersOk, OrderOk, Process, MakerRate, TotalFees, PlacementOf, PreviewQuote;
    PassProgressAt(s, now, i);
    PassCharges(s, now, i);
  }

  /** Why the rates can differ: flattening between the two halves of an order that joined the
      queue charges the second half at the default rate, so the filled order has paid its notional
      at the first rate exactly if that is the default one. */
  lemma FlattenMidOrder(s: ExchangeState, i: nat, t1: Time, t2: Time, t3: Time)
    requires OrdersOk(s.orders) && i < |s.orders| && s.orders[i].status == New
    requires PlacementOf(s.orders[i].intent, PreviewQuote(s.orders[i].intent.symbol, t1)) != BetterThanTouch
    ensures var done := Process(PanicFlatten(Process(s, t1), t2, t2), t3).orders;
            var o := s.orders[i];
            var rate := MakerRate(s.account.feePolicies, o.intent.symbol);
            var half := o.intent.quantity / 2.0 * o.intent.limitPrice;
            && i < |done| && done[i].status == Filled
            && TotalFees(done[i].fills) == half * rate + half * DEFAULT_MAKER_RATE
            && (TotalFees(done[i].fills) == o.intent.Notional() * rate <==> rate == DEFAULT_MAKER_RATE)
  {
    hide OrdersOk, Process, MakerRate, PlacementOf, PreviewQuote, DefaultAccountState;
    var half := Process(s, t1);
    var renewed := PanicFlatten(half, t2, t2);
    var o := s.orders[i];
    var rate, x, p := MakerRate(s.account.feePolicies, o.intent.symbol), o.intent.quantity, o.intent.limitPrice;
    PassProgressAt(s, t1, i);
    PassChargesHalf(s, t1, i);
    ProcessKeepsOrders(s, t1);
    PassChargesHalf(renewed, t3, i);
    DefaultRates(t2, o.intent.symbol);
    HalvesOf(x, p, rate, DEFAULT_MAKER_RATE, o.intent.Notional());
  }

  lemma PassProgressAt(s: ExchangeState, now: Time, i: nat)
    requires OrdersOk(s.orders) && i < |s.orders|
    ensures i < |Process(s, now).orders| && OrderOk(s.orders[i])
            && Progress(s.orders[i], Process(s, now).orders[i], now)
    ensures s.orders[i].status == New ==> TotalFees(s.orders[i].fills) == 0.0
    ensures s.orders[i].intent.symbol == BTCUSDC || s.orders[i].intent.symbol == ETHUSDC
    ensures s.orders[i].intent.quantity > 0.0 && s.orders[i].intent.limitPrice > 0.0
    ensures QuoteFor(s.orders[i].intent.symbol, now) == Some(PreviewQuote(s.orders[i].intent.symbol, now))
  {
    hide VisitUpTo, ApplyFills, Progress;
    PassProgress(s.orders, s.account.feePolicies, TotalFills(s.orders), |s.events|, now);
  }

  // ---------------------------------------------------------------- books

  /** What a book holds after a run, in terms of the book it was at the last renewal.  A default book
      meets every condition; of a book handed in from outside each law needs what it says. */
  ghost predicate BookFollows(start: PositionBook, fills: seq<PaperFill>, b: PositionBook) {
    && b.symbol == start.symbol && b.side == start.side
    && (start.quantity >= 0.0 ==>
         b.quantity == Running(start, fills) - Least(start, fills) && IsLeast(Least(start, fills), start, fills))
    && (EntryOk(start) ==> EntryInvariant(b, OpeningPrices(start, fills)))
    && (NotionalOk(start) ==> NotionalOk(b))
    && (start.quantity >= 0.0 && (exists f :: f in fills && Touches(start, f)) ==> NotionalOk(b))
    && ((forall f :: f in fills ==> !Touches(start, f)) ==> b == start)
  }

  lemma TouchMarks(b: PositionBook, f: PaperFill)
    requires b.quantity >= 0.0 && Touches(b, f) && f.quantity > 0.0 && f.price > 0.0
    ensures NotionalOk(UpdatedBook(b, f))
  {
  }

  lemma UntouchedStays(b: PositionBook, f: PaperFill)
    requires !Touches(b, f)
    ensures UpdatedBook(b, f) == b
  {
  }

  /** The first fill that touches a book sets its notional right. */
  lemma {:induction false} TouchedBookIsMarked(start: PositionBook, fills: seq<PaperFill>)
    requires start.quantity >= 0.0 && exists f :: f in fills && Touches(start, f)
    requires forall f :: f in fills ==> f.quantity > 0.0 && f.price > 0.0
    ensures NotionalOk(FoldBook(start, fills))
  {
    hide NotionalOk, Touches, UpdatedBook, Running, Least, IsLeast;
    var n := |fills| - 1;
    var b := FoldBook(start, fills[..n]);
    assert fills[n] in fills && fills == fills[..n] + [fills[n]];
    ClampedQuantity(start, fills[..n]);
    LeastAtMostZero(start, fills[..n]);
    FoldKeepsKey(start, fills[..n]);
    SameKeyTouches(start, b, fills[n]);
    if Touches(start, fills[n]) {
      TouchMarks(b, fills[n]);
    } else {
      TouchedBookIsMarked(start, fills[..n]);
      UntouchedStays(b, fills[n]);
    }
  }

  lemma BookFollowsFills(a: AccountState, fills: seq<PaperFill>, i: nat)
    requires i < |a.positionBooks|
    requires forall f :: f in fills ==> f.quantity > 0.0 && f.price > 0.0
    ensures i < |ApplyFills(a, fills).positionBooks|
    ensures BookFollows(a.positionBooks[i], fills, ApplyFills(a, fills).positionBooks[i])
  {
    hide IsLeast, EntryInvariant, NotionalOk, EntryOk, Touches;
    var start := a.positionBooks[i];
    BooksAreIndependent(a, fills, i);
    if EntryOk(start) { EntryPriceInvariant(start, fills); }
    if NotionalOk(start) { NotionalInvariant(start, fills); }
    if start.quantity >= 0.0 {
      ClampedQuantity(start, fills);
      if exists f :: f in fills && Touches(start, f) { TouchedBookIsMarked(start, fills); }
    }
  }

  /** Every book of the default account meets the conditions of all laws. */
  lemma DefaultBooksAreOk(now: Time)
    ensures forall b :: b in DefaultAccountState(now).positionBooks ==> EntryOk(b) && NotionalOk(b)
  {
  }

  /** In every reachable state every book has kept its key, holds the clamped running quantity
      in closed form, has an entry price that is zero exactly when flat and otherwise lies
      between prices paid since it was last flat, and a notional of quantity times mark; a book
      no fill touched is as it was renewed. */
  lemma BooksOverRuns(account: AccountState, takerGateEnabled: bool, ops: seq<Operation>, i: nat)
    requires i < |HistoryOf(account, takerGateEnabled, ops).base.positionBooks|
    ensures var s := Run(Initial(account, takerGateEnabled), ops);
            var h := HistoryOf(account, takerGateEnabled, ops);
            && h.mark <= |h.fills| && |s.account.positionBooks| == |h.base.positionBooks|
            && BookFollows(h.base.positionBooks[i], Since(h), s.account.positionBooks[i])
            && (SwitchOf(account, takerGateEnabled, ops).Some? ==>
                 EntryOk(h.base.positionBooks[i]) && NotionalOk(h.base.positionBooks[i]))
  {
    hide Run, HistoryOf, SwitchOf, ApplyFills, BookFollows, EntryOk, NotionalOk, OrderOk, FillsOk, DefaultAccountState;
    AccountIsReplayable(account, takerGateEnabled, ops);
    BaseIsARenewal(account, takerGateEnabled, ops);
    var s := Run(Initial(account, takerGateEnabled), ops);
    var h := HistoryOf(account, takerGateEnabled, ops);
    if SwitchOf(account, takerGateEnabled, ops).Some? {
      var now :| h.base == DefaultAccountState(now);
      DefaultBooksAreOk(now);
    }
    assert h.base.positionBooks[i] in h.base.positionBooks;
    FillsArePositive(h.fills, s.orders);
    FillsKeepTheRest(h.base, Since(h));
    BookFollowsFills(h.base, Since(h), i);
  }
}
