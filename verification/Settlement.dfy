/** Where the account comes from: over any run the account is its last renewal with every later
    fill applied in order, and those fills are exactly the ones the orders carry. */
module Settlement {
  import opened Schemas
  import opened Accounting
  import opened ExchangeModel
  import opened OrderState
  import opened Lifecycle

  /** What a run leaves behind beside the state: every fill since the last reset in the order
      made, the account as last renewed, and how many fills came before that renewal. */
  datatype History = History(base: AccountState, mark: nat, fills: seq<PaperFill>)

  function Start(account: AccountState): History {
    History(account, 0, [])
  }

  function Advance(s: ExchangeState, h: History, op: Operation): History {
    match op
    case ProcessOp(now) => h.(fills := h.fills + PassOf(s, now).fills)
    case PanicFlattenOp(now, _) => h.(base := DefaultAccountState(now), mark := |h.fills|)
    case ResetOp(now) => Start(DefaultAccountState(now))
    case SubmitOp(_, _) => h
    case CancelOp(_, _, _) => h
    case ExpireOp(_, _) => h
    case PanicCancelOp(_) => h
    case PanicHaltOp => h
  }

  function HistoryOf(account: AccountState, takerGateEnabled: bool, ops: seq<Operation>): History {
    if ops == [] then Start(account)
    else
      var n := |ops| - 1;
      Advance(Run(Initial(account, takerGateEnabled), ops[..n]), HistoryOf(account, takerGateEnabled, ops[..n]), ops[n])
  }

  /** The fills naming an order, in the order made. */
  function Naming(fills: seq<PaperFill>, orderId: nat): seq<PaperFill> {
    if fills == [] then []
    else
      var f := fills[|fills| - 1];
      Naming(fills[..|fills| - 1], orderId) + if f.orderId == orderId then [f] else []
  }

  lemma {:induction false} NamingAppend(fs: seq<PaperFill>, gs: seq<PaperFill>, orderId: nat)
    ensures Naming(fs + gs, orderId) == Naming(fs, orderId) + Naming(gs, orderId)
    decreases |gs|
  {
    if gs == [] {
      assert fs + gs == fs;
    } else {
      var n := |gs| - 1;
      NamingAppend(fs, gs[..n], orderId);
      assert (fs + gs)[..|fs + gs| - 1] == fs + gs[..n];
    }
  }

  lemma NamingOne(f: PaperFill, orderId: nat)
    ensures Naming([f], orderId) == if f.orderId == orderId then [f] else []
  {
    assert [f][..0] == [];
  }

  // ---------------------------------------------------------------- the invariant

  /** Fill numbers follow the history, and every order carries exactly the fills naming it. */
  ghost predicate FillsOk(fills: seq<PaperFill>, orders: seq<PaperOrder>) {
    && |fills| == TotalFills(orders)
    && (forall j :: 0 <= j < |fills| ==> fills[j].fillId == j + 1 && 1 <= fills[j].orderId <= |orders|)
    && (forall i :: 0 <= i < |orders| ==> orders[i].fills == Naming(fills, i + 1))
  }

  ghost predicate HistoryOk(s: ExchangeState, h: History) {
    && h.mark <= |h.fills|
    && s.account == ApplyFills(h.base, h.fills[h.mark..])
    && FillsOk(h.fills, s.orders)
  }

  // ---------------------------------------------------------------- one pass

  /** Fill counts add up over a list whose entries change one by one. */
  lemma {:induction false} FillsUpToSame(a: seq<PaperOrder>, b: seq<PaperOrder>, k: nat)
    requires k <= |a| && k <= |b|
    requires forall i :: 0 <= i < k ==> |a[i].fills| == |b[i].fills|
    ensures FillsUpTo(a, k) == FillsUpTo(b, k)
  {
    if k != 0 { FillsUpToSame(a, b, k - 1); }
  }

  /** The pass fills numbered from `fillBase`, each naming a visited order and appended to it. */
  ghost predicate PassFillsOk(orders: seq<PaperOrder>, k: nat, p: Pass, fillBase: nat)
    requires k <= |orders|
  {
    && |p.orders| == k
    && FillsUpTo(p.orders, k) == FillsUpTo(orders, k) + |p.fills|
    && (forall j :: 0 <= j < |p.fills| ==> p.fills[j].fillId == fillBase + j + 1 && 1 <= p.fills[j].orderId <= k)
    && (forall i :: 0 <= i < k ==> p.orders[i].fills == orders[i].fills + Naming(p.fills, i + 1))
  }

  lemma {:induction false} NamesNone(fills: seq<PaperFill>, orderId: nat)
    requires forall f :: f in fills ==> f.orderId != orderId
    ensures Naming(fills, orderId) == []
  {
    if fills != [] {
      assert fills[|fills| - 1] in fills;
      NamesNone(fills[..|fills| - 1], orderId);
    }
  }

  lemma NamingGrows(fills: seq<PaperFill>, more: seq<PaperFill>, orderId: nat)
    requires |more| <= 1
    ensures Naming(fills + more, orderId)
            == if more != [] && more[0].orderId == orderId then Naming(fills, orderId) + more
               else Naming(fills, orderId)
  {
    NamingAppend(fills, more, orderId);
    if more != [] {
      assert more == [more[0]];
      NamingOne(more[0], orderId);
    }
  }

  lemma CountStep(orders: seq<PaperOrder>, k: nat, done: Pass, v: Pass, fillBase: nat)
    requires k < |orders| && PassFillsOk(orders, k, done, fillBase)
    requires |v.orders| == 1 && v.orders[0].fills == orders[k].fills + v.fills
    ensures FillsUpTo(done.orders + v.orders, k + 1) == FillsUpTo(orders, k + 1) + |done.fills + v.fills|
  {
    hide Naming;
    FillsUpToSame(done.orders + v.orders, done.orders, k);
  }

  lemma NamesStep(orders: seq<PaperOrder>, k: nat, done: Pass, v: Pass, fillBase: nat, i: nat)
    requires i <= k < |orders| && PassFillsOk(orders, k, done, fillBase)
    requires |v.orders| == 1 && v.orders[0].fills == orders[k].fills + v.fills && |v.fills| <= 1
    requires v.fills != [] ==> v.fills[0].orderId == k + 1
    ensures (done.orders + v.orders)[i].fills == orders[i].fills + Naming(done.fills + v.fills, i + 1)
  {
    hide FillsUpTo, Naming;
    NamingGrows(done.fills, v.fills, i + 1);
    if i == k { NamesNone(done.fills, k + 1); }
  }

  lemma PassFillsStep(orders: seq<PaperOrder>, k: nat, done: Pass, v: Pass, fillBase: nat)
    requires k < |orders| && PassFillsOk(orders, k, done, fillBase)
    requires |v.orders| == 1 && v.orders[0].fills == orders[k].fills + v.fills && |v.fills| <= 1
    requires v.fills != [] ==> v.fills[0].fillId == fillBase + |done.fills| + 1 && v.fills[0].orderId == k + 1
    ensures PassFillsOk(orders, k + 1, Pass(done.orders + v.orders, done.fills + v.fills, done.events + v.events),
                        fillBase)
  {
    hide FillsUpTo, Naming;
    CountStep(orders, k, done, v, fillBase);
    forall i | 0 <= i < k + 1
      ensures (done.orders + v.orders)[i].fills == orders[i].fills + Naming(done.fills + v.fills, i + 1)
    {
      NamesStep(orders, k, done, v, fillBase, i);
    }
  }

  lemma {:induction false} PassFills(
    orders: seq<PaperOrder>, k: nat, policies: seq<FeePolicy>, fillBase: nat, eventBase: nat, now: Time)
    requires k <= |orders| && OrdersOk(orders)
    ensures PassFillsOk(orders, k, VisitUpTo(orders, k, policies, fillBase, eventBase, now), fillBase)
  {
    hide Visit, OrderOk, PassFillsOk;
    if k == 0 {
      NoPassFills(orders, fillBase);
    } else {
      var done := VisitUpTo(orders, k - 1, policies, fillBase, eventBase, now);
      var fillId, eventId := fillBase + |done.fills| + 1, eventBase + |done.events| + 1;
      var v := Visit(orders[k - 1], policies, fillId, eventId, now);
      PassFills(orders, k - 1, policies, fillBase, eventBase, now);
      VisitSize(orders[k - 1], policies, fillId, eventId, now);
      VisitAppends(orders[k - 1], policies, fillId, eventId, now);
      PassFillsStep(orders, k - 1, done, v, fillBase);
    }
  }

  lemma NoPassFills(orders: seq<PaperOrder>, fillBase: nat)
    ensures PassFillsOk(orders, 0, Pass([], [], []), fillBase)
  {
  }

  lemma VisitAppends(o: PaperOrder, policies: seq<FeePolicy>, fillId: nat, eventId: nat, now: Time)
    requires OrderOk(o)
    ensures var v := Visit(o, policies, fillId, eventId, now);
            && |v.orders| == 1 && v.orders[0].fills == o.fills + v.fills && |v.fills| <= 1
            && (v.fills != [] ==> v.fills[0].fillId == fillId && v.fills[0].orderId == o.orderId)
  {
    hide Visit, OrderOk;
    if o.IsOpen() {
      VisitOpen(o, policies, fillId, eventId, now);
    } else {
      VisitClosed(o, policies, fillId, eventId, now);
    }
  }

  lemma JoinFills(fills: seq<PaperFill>, orders: seq<PaperOrder>, p: Pass)
    requires FillsOk(fills, orders) && PassFillsOk(orders, |orders|, p, |fills|)
    ensures FillsOk(fills + p.fills, p.orders)
  {
    forall i | 0 <= i < |p.orders| ensures p.orders[i].fills == Naming(fills + p.fills, i + 1) {
      NamingAppend(fills, p.fills, i + 1);
    }
  }

  lemma ProcessSettles(s: ExchangeState, h: History, now: Time)
    requires OrdersOk(s.orders) && HistoryOk(s, h)
    ensures HistoryOk(Process(s, now), Advance(s, h, ProcessOp(now)))
  {
    hide OrdersOk, FillsOk, PassFillsOk, VisitUpTo, ApplyFills;
    var p := PassOf(s, now);
    FillsTotal(h.fills, s.orders);
    PassFills(s.orders, |s.orders|, s.account.feePolicies, TotalFills(s.orders), |s.events|, now);
    JoinFills(h.fills, s.orders, p);
    ApplyFillsAppend(h.base, h.fills[h.mark..], p.fills);
    assert (h.fills + p.fills)[h.mark..] == h.fills[h.mark..] + p.fills;
  }

  lemma FillsTotal(fills: seq<PaperFill>, orders: seq<PaperOrder>)
    requires FillsOk(fills, orders)
    ensures TotalFills(orders) == |fills|
  {
  }

  // ---------------------------------------------------------------- other operations

  /** Operations that touch neither fills nor account keep the history. */
  lemma SameFills(fills: seq<PaperFill>, orders: seq<PaperOrder>, after: seq<PaperOrder>)
    requires FillsOk(fills, orders) && |after| == |orders|
    requires forall i :: 0 <= i < |orders| ==> after[i].fills == orders[i].fills
    ensures FillsOk(fills, after)
  {
    FillsUpToSame(after, orders, |orders|);
  }

  lemma NewOrderHasNoFills(fills: seq<PaperFill>, orders: seq<PaperOrder>, o: PaperOrder)
    requires FillsOk(fills, orders) && o.fills == []
    ensures FillsOk(fills, orders + [o])
  {
    FillsUpToSame(orders + [o], orders, |orders|);
    forall f | f in fills ensures f.orderId != |orders| + 1 {
      var j :| 0 <= j < |fills| && fills[j] == f;
    }
    NamesNone(fills, |orders| + 1);
  }

  lemma SubmitSettles(s: ExchangeState, h: History, intent: PaperOrderIntent, now: Time)
    requires HistoryOk(s, h)
    ensures HistoryOk(Submit(s, intent, now), h)
  {
    hide FillsOk, Vetoes, ApplyFills;
    if Admits(s, intent, now) {
      NewOrderHasNoFills(h.fills, s.orders, NewOrder(|s.orders| + 1, intent, now));
    }
  }

  lemma ClosingSettles(s: ExchangeState, h: History, after: ExchangeState)
    requires HistoryOk(s, h) && after.account == s.account && |after.orders| == |s.orders|
    requires forall i :: 0 <= i < |s.orders| ==> after.orders[i].fills == s.orders[i].fills
    ensures HistoryOk(after, h)
  {
    hide FillsOk, ApplyFills;
    SameFills(h.fills, s.orders, after.orders);
  }

  lemma RenewalSettles(s: ExchangeState, h: History, op: Operation)
    requires HistoryOk(s, h) && (op.PanicFlattenOp? || op.ResetOp?)
    ensures HistoryOk(Step(s, op), Advance(s, h, op))
  {
    hide DefaultAccountState, Submit, Process, Cancel, Expire, PanicCancel, PanicHalt;
    assert h.fills[|h.fills|..] == [];
  }

  lemma StepSettles(s: ExchangeState, h: History, op: Operation)
    requires OrdersOk(s.orders) && HistoryOk(s, h)
    ensures HistoryOk(Step(s, op), Advance(s, h, op))
  {
    hide OrdersOk, HistoryOk, Submit, Process, DefaultAccountState, PassOf;
    match op
    case SubmitOp(intent, now) => SubmitSettles(s, h, intent, now);
    case ProcessOp(now) => ProcessSettles(s, h, now);
    case CancelOp(_, _, _) => ClosingSettles(s, h, Step(s, op));
    case ExpireOp(_, _) => ClosingSettles(s, h, Step(s, op));
    case PanicCancelOp(_) => ClosingSettles(s, h, Step(s, op));
    case PanicFlattenOp(_, _) => RenewalSettles(s, h, op);
    case PanicHaltOp => ClosingSettles(s, h, Step(s, op));
    case ResetOp(_) => RenewalSettles(s, h, op);
  }

  lemma StartSettles(account: AccountState, takerGateEnabled: bool)
    ensures HistoryOk(Initial(account, takerGateEnabled), Start(account))
  {
  }

  /** In every reachable state the account is the last renewal with the fills since then applied
      in order, fills are numbered 1, 2, 3, ... as made, and each order's own list of fills is
      exactly the fills naming it. */
  lemma {:induction false} AccountIsReplayable(account: AccountState, takerGateEnabled: bool, ops: seq<Operation>)
    ensures var s := Run(Initial(account, takerGateEnabled), ops);
            OrdersOk(s.orders) && HistoryOk(s, HistoryOf(account, takerGateEnabled, ops))
  {
    hide OrdersOk, HistoryOk, Step, Advance;
    if ops == [] {
      NoOrdersAreOk();
      StartSettles(account, takerGateEnabled);
    } else {
      var n := |ops| - 1;
      AccountIsReplayable(account, takerGateEnabled, ops[..n]);
      StepKeepsOrders(Run(Initial(account, takerGateEnabled), ops[..n]), ops[n]);
      StepSettles(Run(Initial(account, takerGateEnabled), ops[..n]), HistoryOf(account, takerGateEnabled, ops[..n]),
                  ops[n]);
    }
  }
}
