/** Merging venue order updates that may arrive late, twice or out of order
    (services/execution/reconciliation.py). */
module Reconciliation {
  import Schemas
  import opened Sequences

  type Option<T> = Schemas.Option<T>

  datatype VenueStatus = New | PartiallyFilled | Filled | Canceled | Expired | Rejected

  datatype VenueOrderUpdate = VenueOrderUpdate(
    venueTarget: string, orderId: string, clientOrderId: string, status: VenueStatus, executionType: string,
    eventTime: int)

  datatype Verdict = DuplicateUpdate | RegressiveUpdate | UpdateAccepted

  datatype Decision = Decision(accepted: bool, reason: Verdict, previous: Option<VenueStatus>, update: VenueOrderUpdate)

  type Statuses = map<string, VenueStatus>

  function Rank(status: VenueStatus): nat {
    match status
    case New => 10
    case PartiallyFilled => 20
    case Filled => 90
    case Canceled => 90
    case Expired => 90
    case Rejected => 90
  }

  predicate Terminal(status: VenueStatus) {
    status == Filled || status == Canceled || status == Expired || status == Rejected
  }

  function Lookup(book: Statuses, id: string): Option<VenueStatus> {
    if id in book then Schemas.Some(book[id]) else Schemas.None
  }

  function Decide(book: Statuses, u: VenueOrderUpdate): Decision {
    var previous := Lookup(book, u.orderId);
    if previous == Schemas.Some(u.status) then Decision(false, DuplicateUpdate, previous, u)
    else if previous.Some? && Rank(u.status) < Rank(previous.value) then Decision(false, RegressiveUpdate, previous, u)
    else Decision(true, UpdateAccepted, previous, u)
  }

  function Merged(book: Statuses, u: VenueOrderUpdate): Statuses {
    if Decide(book, u).accepted then book[u.orderId := u.status] else book
  }

  class MonotonicOrderReconciler {
    var statusByOrderId: Statuses

    constructor ()
      ensures statusByOrderId == map[]
    {
      statusByOrderId := map[];
    }

    /** Only the update's own order can change, its rank never drops, and a repeat is refused. */
    method Apply(update: VenueOrderUpdate) returns (decision: Decision)
      modifies this
      ensures decision == Decide(old(statusByOrderId), update)
      ensures statusByOrderId == Merged(old(statusByOrderId), update)
      ensures update.orderId in statusByOrderId
      ensures decision.accepted <==> statusByOrderId != old(statusByOrderId)
      ensures forall id :: id in old(statusByOrderId) ==>
                id in statusByOrderId && Rank(old(statusByOrderId)[id]) <= Rank(statusByOrderId[id])
                && (id != update.orderId ==> statusByOrderId[id] == old(statusByOrderId)[id])
    {
      var previous := Lookup(statusByOrderId, update.orderId);
      if previous == Schemas.Some(update.status) {
        return Decision(false, DuplicateUpdate, previous, update);
      }
      if previous.Some? && Rank(update.status) < Rank(previous.value) {
        return Decision(false, RegressiveUpdate, previous, update);
      }
      assert statusByOrderId[update.orderId := update.status][update.orderId] == update.status;
      statusByOrderId := statusByOrderId[update.orderId := update.status];
      return Decision(true, UpdateAccepted, previous, update);
    }
  }

  /** What each verdict means: a repeat of the stored status is a duplicate, anything else that does not end
      an order, but is no further along than its stored status, is regressive; the rest is accepted. */
  lemma VerdictMeans(book: Statuses, u: VenueOrderUpdate)
    ensures var d := Decide(book, u);
            && d.update == u
            && d.previous == (if u.orderId in book then Schemas.Some(book[u.orderId]) else Schemas.None)
            && (d.accepted <==> d.reason == UpdateAccepted)
            && (d.reason == DuplicateUpdate <==> u.orderId in book && book[u.orderId] == u.status)
            && (d.reason == RegressiveUpdate <==>
                 u.orderId in book && ((u.status == New && book[u.orderId] != New)
                                       || (u.status == PartiallyFilled && Terminal(book[u.orderId]))))
  {
  }

  // ---------------------------------------------------------------- any sequence of updates

  function Final(updates: seq<VenueOrderUpdate>): Statuses {
    if updates == [] then map[] else Merged(Final(updates[..|updates| - 1]), updates[|updates| - 1])
  }

  /** The last terminal status reported for an order. */
  function LastTerminal(updates: seq<VenueOrderUpdate>, id: string): Option<VenueStatus> {
    if updates == [] then Schemas.None
    else
      var u := updates[|updates| - 1];
      if u.orderId == id && Terminal(u.status) then Schemas.Some(u.status)
      else LastTerminal(updates[..|updates| - 1], id)
  }

  predicate Seen(updates: seq<VenueOrderUpdate>, id: string, status: VenueStatus) {
    exists u :: u in updates && u.orderId == id && u.status == status
  }

  /** The last terminal status if there was one, else partially filled if seen, else new. */
  function ClosedForm(updates: seq<VenueOrderUpdate>, id: string): Option<VenueStatus> {
    var terminal := LastTerminal(updates, id);
    if terminal.Some? then terminal
    else if Seen(updates, id, PartiallyFilled) then Schemas.Some(PartiallyFilled)
    else if Seen(updates, id, New) then Schemas.Some(New)
    else Schemas.None
  }

  lemma SeenStep(updates: seq<VenueOrderUpdate>, id: string, status: VenueStatus)
    requires updates != []
    ensures var n := |updates| - 1;
            Seen(updates, id, status)
            <==> Seen(updates[..n], id, status) || (updates[n].orderId == id && updates[n].status == status)
  {
    var n := |updates| - 1;
    assert updates == updates[..n] + [updates[n]];
    if updates[n].orderId == id && updates[n].status == status {
      assert updates[n] in updates;
    }
  }

  /** Convergence: whatever the order of arrival, each order ends at its closed form. */
  lemma {:induction false} FinalIsClosedForm(updates: seq<VenueOrderUpdate>, id: string)
    ensures Lookup(Final(updates), id) == ClosedForm(updates, id)
    ensures LastTerminal(updates, id).Some? ==> Terminal(LastTerminal(updates, id).value)
  {
    if updates != [] {
      var n := |updates| - 1;
      FinalIsClosedForm(updates[..n], id);
      SeenStep(updates, id, PartiallyFilled);
      SeenStep(updates, id, New);
    }
  }

  lemma {:induction false} TerminalIsSeen(updates: seq<VenueOrderUpdate>, id: string)
    ensures match LastTerminal(updates, id)
            case Some(status) => Terminal(status) && Seen(updates, id, status)
            case None => forall u :: u in updates && u.orderId == id ==> !Terminal(u.status)
  {
    if updates != [] {
      var n := |updates| - 1;
      TerminalIsSeen(updates[..n], id);
      assert updates == updates[..n] + [updates[n]];
      if LastTerminal(updates, id).Some? {
        SeenStep(updates, id, LastTerminal(updates, id).value);
      }
    }
  }

  /** The stored status is one that was reported, and none reported ranks higher. */
  lemma StoredRankIsHighest(updates: seq<VenueOrderUpdate>, id: string)
    ensures id in Final(updates) <==> exists u :: u in updates && u.orderId == id
    ensures id in Final(updates) ==> Seen(updates, id, Final(updates)[id])
    ensures id in Final(updates) ==>
              forall u :: u in updates && u.orderId == id ==> Rank(u.status) <= Rank(Final(updates)[id])
  {
    FinalIsClosedForm(updates, id);
    TerminalIsSeen(updates, id);
    forall u | u in updates && u.orderId == id
      ensures Seen(updates, id, u.status)
    {
    }
  }

  function About(updates: seq<VenueOrderUpdate>, id: string): seq<VenueOrderUpdate> {
    if updates == [] then []
    else
      var u := updates[|updates| - 1];
      About(updates[..|updates| - 1], id) + if u.orderId == id then [u] else []
  }

  /** Updates of other orders never interfere. */
  lemma {:induction false} OthersDoNotInterfere(updates: seq<VenueOrderUpdate>, id: string)
    ensures Lookup(Final(updates), id) == Lookup(Final(About(updates, id)), id)
  {
    if updates != [] {
      var n := |updates| - 1;
      OthersDoNotInterfere(updates[..n], id);
      var own := About(updates[..n], id);
      if updates[n].orderId == id {
        assert (own + [updates[n]])[..|own|] == own;
      } else {
        assert own + [] == own;
      }
    }
  }

  // ---------------------------------------------------------------- order of arrival

  /** No order was reported with two different terminal statuses. */
  ghost predicate TerminalsAgree(updates: seq<VenueOrderUpdate>) {
    forall u, v :: u in updates && v in updates && u.orderId == v.orderId && Terminal(u.status) && Terminal(v.status)
      ==> u.status == v.status
  }

  ghost predicate SameReports(us: seq<VenueOrderUpdate>, vs: seq<VenueOrderUpdate>) {
    forall id, status :: Seen(us, id, status) <==> Seen(vs, id, status)
  }

  /** When terminal reports agree, only which reports arrived matters: not their order, not how
      often each was repeated. */
  lemma AgreeingReportsConverge(us: seq<VenueOrderUpdate>, vs: seq<VenueOrderUpdate>)
    requires TerminalsAgree(us) && SameReports(us, vs)
    ensures Final(us) == Final(vs)
  {
    forall id ensures Lookup(Final(us), id) == Lookup(Final(vs), id) {
      FinalIsClosedForm(us, id);
      FinalIsClosedForm(vs, id);
      TerminalIsSeen(us, id);
      TerminalIsSeen(vs, id);
      var a, b := LastTerminal(us, id), LastTerminal(vs, id);
      if a.Some? { assert Seen(vs, id, a.value); }
      if b.Some? { assert Seen(us, id, b.value); }
    }
    SameLookups(Final(us), Final(vs));
  }

  lemma SameLookups(a: Statuses, b: Statuses)
    requires forall id :: Lookup(a, id) == Lookup(b, id)
    ensures a == b
  {
    forall id ensures id in a <==> id in b {
      assert Lookup(a, id) == Lookup(b, id);
    }
    forall id | id in a ensures a[id] == b[id] {
      assert Lookup(a, id) == Lookup(b, id);
    }
  }

  lemma PermutationsReportTheSame(us: seq<VenueOrderUpdate>, vs: seq<VenueOrderUpdate>)
    requires multiset(us) == multiset(vs)
    ensures SameReports(us, vs)
  {
    forall u ensures u in us <==> u in vs {
      assert u in us <==> u in multiset(us);
      assert u in vs <==> u in multiset(vs);
    }
  }

  /** The same updates with one moved to the end. */
  function MovedLast(updates: seq<VenueOrderUpdate>, i: nat): seq<VenueOrderUpdate>
    requires i < |updates|
  {
    Without(updates, i) + [updates[i]]
  }

  lemma LateTerminalWins(updates: seq<VenueOrderUpdate>, i: nat)
    requires i < |updates| && Terminal(updates[i].status)
    ensures multiset(MovedLast(updates, i)) == multiset(updates)
    ensures Lookup(Final(MovedLast(updates, i)), updates[i].orderId) == Schemas.Some(updates[i].status)
  {
    WithoutRemovesOne(updates, i);
    FinalIsClosedForm(MovedLast(updates, i), updates[i].orderId);
  }

  /** Arrival order is irrelevant exactly when no order is reported with two different terminal
      statuses: a later different terminal status replaces an earlier one. */
  lemma OrderIrrelevantIffTerminalsAgree(us: seq<VenueOrderUpdate>)
    ensures (forall vs :: multiset(vs) == multiset(us) ==> Final(vs) == Final(us)) <==> TerminalsAgree(us)
  {
    if TerminalsAgree(us) {
      forall vs | multiset(vs) == multiset(us) ensures Final(vs) == Final(us) {
        PermutationsReportTheSame(us, vs);
        AgreeingReportsConverge(us, vs);
      }
    } else {
      var u, v :| u in us && v in us && u.orderId == v.orderId && Terminal(u.status) && Terminal(v.status)
                  && u.status != v.status;
      var i :| 0 <= i < |us| && us[i] == u;
      var j :| 0 <= j < |us| && us[j] == v;
      LateTerminalWins(us, i);
      LateTerminalWins(us, j);
      assert Final(MovedLast(us, i)) != Final(MovedLast(us, j));
    }
  }
}
