/** The command ledger (services/audit/ledger.py): a list of entries and a dictionary index that
    stay in agreement under idempotent receives and in-place replacements. */
module Ledger {
  import Schemas

  type Option<T> = Schemas.Option<T>

  datatype Lifecycle = Received | Accepted | Rejected | Completed | Failed

  /** `fingerprint` stands for the hash of the payload's shape. */
  datatype Entry = Entry(
    commandId: nat, idempotencyKey: string, commandType: string, actorId: string, fingerprint: string,
    status: Lifecycle, runtime: string, auditRecordId: Option<string>, createdAt: int, updatedAt: int, duplicate: bool)

  datatype Reply = Ok(entry: Entry) | KeyRequired | KeyConflict | UnknownCommand

  /** The request fields of a received command. */
  datatype Command = Command(commandType: string, actorId: string, fingerprint: string, runtime: string, key: string)

  // ---------------------------------------------------------------- the ledger as a list

  /** Linear scan for a key. */
  function Scan(entries: seq<Entry>, key: string): Option<Entry> {
    if entries == [] then Schemas.None
    else if entries[0].idempotencyKey == key then Schemas.Some(entries[0])
    else Scan(entries[1..], key)
  }

  predicate SameRequest(e: Entry, c: Command) {
    e.commandType == c.commandType && e.fingerprint == c.fingerprint
  }

  function NewEntry(entries: seq<Entry>, c: Command, now: int): Entry {
    Entry(|entries| + 1, c.key, c.commandType, c.actorId, c.fingerprint, Received, c.runtime, Schemas.None, now, now,
          false)
  }

  function ReceiveReply(entries: seq<Entry>, c: Command, now: int): Reply {
    if c.key == "" then KeyRequired
    else match Scan(entries, c.key)
      case None => Ok(NewEntry(entries, c, now))
      case Some(existing) => if SameRequest(existing, c) then Ok(existing.(duplicate := true)) else KeyConflict
  }

  function ReceiveEntries(entries: seq<Entry>, c: Command, now: int): seq<Entry> {
    if c.key != "" && Scan(entries, c.key) == Schemas.None then entries + [NewEntry(entries, c, now)] else entries
  }

  function Updated(e: Entry, status: Lifecycle, auditRecordId: Option<string>, now: int): Entry {
    e.(status := status, auditRecordId := if auditRecordId != Schemas.None then auditRecordId else e.auditRecordId,
       updatedAt := now)
  }

  /** Command ids are places in the list. */
  function ReplaceEntries(
    entries: seq<Entry>, commandId: nat, status: Lifecycle, audit: Option<string>, now: int): seq<Entry>
  {
    if 1 <= commandId <= |entries| then entries[commandId - 1 := Updated(entries[commandId - 1], status, audit, now)]
    else entries
  }

  function ReplaceReply(
    entries: seq<Entry>, commandId: nat, status: Lifecycle, audit: Option<string>, now: int): Reply
  {
    if 1 <= commandId <= |entries| then Ok(Updated(entries[commandId - 1], status, audit, now)) else UnknownCommand
  }

  // ---------------------------------------------------------------- agreement of list and index

  ghost predicate EntriesOk(entries: seq<Entry>) {
    && (forall i :: 0 <= i < |entries| ==>
          entries[i].commandId == i + 1 && entries[i].idempotencyKey != "" && !entries[i].duplicate)
    && (forall i, j :: 0 <= i < j < |entries| ==> entries[i].idempotencyKey != entries[j].idempotencyKey)
  }

  ghost predicate IndexOk(entries: seq<Entry>, index: map<string, Entry>) {
    && (forall i :: 0 <= i < |entries| ==>
          entries[i].idempotencyKey in index && index[entries[i].idempotencyKey] == entries[i])
    && (forall key :: key in index ==> exists i :: 0 <= i < |entries| && entries[i].idempotencyKey == key)
  }

  lemma {:induction false} ScanFinds(entries: seq<Entry>, key: string)
    ensures match Scan(entries, key)
            case None => forall i :: 0 <= i < |entries| ==> entries[i].idempotencyKey != key
            case Some(e) => exists i :: 0 <= i < |entries| && entries[i] == e && e.idempotencyKey == key
  {
    if entries != [] && entries[0].idempotencyKey != key {
      ScanFinds(entries[1..], key);
      if Scan(entries, key) == Schemas.None {
        forall i | 0 <= i < |entries| ensures entries[i].idempotencyKey != key {
          if i > 0 { assert entries[i] == entries[1..][i - 1]; }
        }
      } else {
        var e := Scan(entries, key).value;
        var i :| 0 <= i < |entries[1..]| && entries[1..][i] == e;
        assert entries[i + 1] == e;
      }
    }
  }

  /** Dictionary lookup is linear scan. */
  lemma IndexIsScan(entries: seq<Entry>, index: map<string, Entry>, key: string)
    requires EntriesOk(entries) && IndexOk(entries, index)
    ensures Scan(entries, key) == if key in index then Schemas.Some(index[key]) else Schemas.None
  {
    ScanFinds(entries, key);
  }

  lemma AppendAgrees(entries: seq<Entry>, index: map<string, Entry>, entry: Entry)
    requires EntriesOk(entries) && IndexOk(entries, index)
    requires entry.commandId == |entries| + 1 && entry.idempotencyKey != "" && !entry.duplicate
    requires forall i :: 0 <= i < |entries| ==> entries[i].idempotencyKey != entry.idempotencyKey
    ensures EntriesOk(entries + [entry])
    ensures IndexOk(entries + [entry], index[entry.idempotencyKey := entry])
  {
    var after, m := entries + [entry], index[entry.idempotencyKey := entry];
    forall key | key in m ensures exists i :: 0 <= i < |after| && after[i].idempotencyKey == key {
      if key == entry.idempotencyKey {
        assert after[|entries|].idempotencyKey == key;
      } else {
        var i :| 0 <= i < |entries| && entries[i].idempotencyKey == key;
        assert after[i].idempotencyKey == key;
      }
    }
  }

  class InMemoryCommandLedger {
    var entries: seq<Entry>
    var byIdempotencyKey: map<string, Entry>

    ghost predicate Valid()
      reads this
    {
      EntriesOk(entries) && IndexOk(entries, byIdempotencyKey)
    }

    constructor ()
      ensures Valid() && entries == []
    {
      entries := [];
      byIdempotencyKey := map[];
    }

    method RecordReceived(c: Command, now: int) returns (reply: Reply)
      requires Valid()
      modifies this
      ensures Valid()
      ensures entries == ReceiveEntries(old(entries), c, now)
      ensures reply == ReceiveReply(old(entries), c, now)
    {
      hide EntriesOk, IndexOk;
      if c.key == "" {
        return KeyRequired;
      }
      IndexIsScan(entries, byIdempotencyKey, c.key);
      ScanFinds(entries, c.key);
      if c.key in byIdempotencyKey {
        var existing := byIdempotencyKey[c.key];
        if existing.commandType != c.commandType || existing.fingerprint != c.fingerprint {
          return KeyConflict;
        }
        return Ok(existing.(duplicate := true));
      }
      var entry := NewEntry(entries, c, now);
      AppendAgrees(entries, byIdempotencyKey, entry);
      entries := entries + [entry];
      byIdempotencyKey := byIdempotencyKey[c.key := entry];
      return Ok(entry);
    }

    method RecordDecision(commandId: nat, accepted: bool, auditRecordId: Option<string>, now: int)
      returns (reply: Reply)
      requires Valid()
      modifies this
      ensures Valid()
      ensures entries == ReplaceEntries(old(entries), commandId, if accepted then Accepted else Rejected,
                                        auditRecordId, now)
      ensures reply == ReplaceReply(old(entries), commandId, if accepted then Accepted else Rejected, auditRecordId,
                                    now)
    {
      reply := Replace(commandId, if accepted then Accepted else Rejected, auditRecordId, now);
    }

    method RecordCompleted(commandId: nat, now: int) returns (reply: Reply)
      requires Valid()
      modifies this
      ensures Valid()
      ensures entries == ReplaceEntries(old(entries), commandId, Completed, Schemas.None, now)
      ensures reply == ReplaceReply(old(entries), commandId, Completed, Schemas.None, now)
    {
      reply := Replace(commandId, Completed, Schemas.None, now);
    }

    /** Searches the list for the id, then overwrites both the list entry and the index entry. */
    method Replace(commandId: nat, status: Lifecycle, auditRecordId: Option<string>, now: int) returns (reply: Reply)
      requires Valid()
      modifies this
      ensures Valid()
      ensures entries == ReplaceEntries(old(entries), commandId, status, auditRecordId, now)
      ensures reply == ReplaceReply(old(entries), commandId, status, auditRecordId, now)
    {
      hide IndexOk;
      for index := 0 to |entries|
        invariant entries == old(entries) && byIdempotencyKey == old(byIdempotencyKey)
        invariant forall i :: 0 <= i < index ==> entries[i].commandId != commandId
      {
        var entry := entries[index];
        if entry.commandId == commandId {
          var updated := Updated(entry, status, auditRecordId, now);
          ReplacementKeepsEntries(entries, index, updated);
          ReplacementKeepsIndex(entries, byIdempotencyKey, index, updated);
          entries := entries[index := updated];
          byIdempotencyKey := byIdempotencyKey[updated.idempotencyKey := updated];
          return Ok(updated);
        }
      }
      return UnknownCommand;
    }
  }

  /** A replacement keeps the id and key it stands under. */
  predicate Replaces(updated: Entry, e: Entry) {
    updated.commandId == e.commandId && updated.idempotencyKey == e.idempotencyKey && !updated.duplicate
  }

  lemma ReplacementKeepsEntries(entries: seq<Entry>, k: nat, updated: Entry)
    requires EntriesOk(entries) && k < |entries| && Replaces(updated, entries[k])
    ensures EntriesOk(entries[k := updated])
  {
    var after := entries[k := updated];
    forall i | 0 <= i < |after|
      ensures after[i].idempotencyKey == entries[i].idempotencyKey
      ensures after[i].commandId == i + 1 && after[i].idempotencyKey != "" && !after[i].duplicate
    {
    }
    forall i, j | 0 <= i < j < |after| ensures after[i].idempotencyKey != after[j].idempotencyKey {
      assert entries[i].idempotencyKey != entries[j].idempotencyKey;
    }
  }

  lemma ReplacementKeepsIndex(entries: seq<Entry>, index: map<string, Entry>, k: nat, updated: Entry)
    requires EntriesOk(entries) && IndexOk(entries, index) && k < |entries| && Replaces(updated, entries[k])
    ensures IndexOk(entries[k := updated], index[updated.idempotencyKey := updated])
  {
    var after, m := entries[k := updated], index[updated.idempotencyKey := updated];
    forall i | 0 <= i < |after| ensures after[i].idempotencyKey in m && m[after[i].idempotencyKey] == after[i] {
      if i != k {
        assert entries[i].idempotencyKey in index && index[entries[i].idempotencyKey] == entries[i];
        assert entries[i].idempotencyKey != entries[k].idempotencyKey by {
          if i < k {} else {}
        }
      }
    }
    forall key | key in m ensures exists i :: 0 <= i < |after| && after[i].idempotencyKey == key {
      if key == updated.idempotencyKey {
        assert after[k].idempotencyKey == key;
      } else {
        var i :| 0 <= i < |entries| && entries[i].idempotencyKey == key;
        assert after[i].idempotencyKey == key;
      }
    }
  }

  // ---------------------------------------------------------------- any run

  datatype Operation =
    | Receive(command: Command, now: int)
    | Decision(commandId: nat, accepted: bool, audit: Option<string>, now: int)
    | Completion(commandId: nat, now: int)

  function Step(entries: seq<Entry>, op: Operation): seq<Entry> {
    match op
    case Receive(c, now) => ReceiveEntries(entries, c, now)
    case Decision(id, accepted, audit, now) =>
      ReplaceEntries(entries, id, if accepted then Accepted else Rejected, audit, now)
    case Completion(id, now) => ReplaceEntries(entries, id, Completed, Schemas.None, now)
  }

  function Run(entries: seq<Entry>, ops: seq<Operation>): seq<Entry> {
    if ops == [] then entries else Step(Run(entries, ops[..|ops| - 1]), ops[|ops| - 1])
  }

  /** Everything about an entry but its status, audit reference and time of update. */
  predicate SameIdentity(e: Entry, f: Entry) {
    && e.commandId == f.commandId && e.idempotencyKey == f.idempotencyKey && e.commandType == f.commandType
    && e.actorId == f.actorId && e.fingerprint == f.fingerprint && e.runtime == f.runtime
    && e.createdAt == f.createdAt && e.duplicate == f.duplicate
  }

  ghost predicate Extends(later: seq<Entry>, entries: seq<Entry>) {
    |entries| <= |later| && forall i :: 0 <= i < |entries| ==> SameIdentity(entries[i], later[i])
  }

  lemma ReceiveExtends(entries: seq<Entry>, c: Command, now: int)
    requires EntriesOk(entries)
    ensures EntriesOk(ReceiveEntries(entries, c, now)) && Extends(ReceiveEntries(entries, c, now), entries)
  {
    ScanFinds(entries, c.key);
  }

  lemma ReplaceExtends(entries: seq<Entry>, id: nat, status: Lifecycle, audit: Option<string>, now: int)
    requires EntriesOk(entries)
    ensures EntriesOk(ReplaceEntries(entries, id, status, audit, now))
    ensures Extends(ReplaceEntries(entries, id, status, audit, now), entries)
  {
    hide EntriesOk;
    if 1 <= id <= |entries| {
      EntryOkAt(entries, id - 1);
      ReplacementKeepsEntries(entries, id - 1, Updated(entries[id - 1], status, audit, now));
    }
  }

  lemma EntryOkAt(entries: seq<Entry>, i: nat)
    requires EntriesOk(entries) && i < |entries|
    ensures !entries[i].duplicate
  {
  }

  lemma StepExtends(entries: seq<Entry>, op: Operation)
    requires EntriesOk(entries)
    ensures EntriesOk(Step(entries, op)) && Extends(Step(entries, op), entries)
  {
    hide EntriesOk, Extends, ReceiveEntries, ReplaceEntries;
    match op
    case Receive(c, now) => ReceiveExtends(entries, c, now);
    case Decision(id, accepted, audit, now) =>
      ReplaceExtends(entries, id, if accepted then Accepted else Rejected, audit, now);
    case Completion(id, now) => ReplaceExtends(entries, id, Completed, Schemas.None, now);
  }

  /** Over any run the ledger only grows, and an entry's id, key, type, actor, fingerprint,
      runtime and creation time never change. */
  lemma {:induction false} IdentityNeverChanges(entries: seq<Entry>, ops: seq<Operation>)
    requires EntriesOk(entries)
    ensures EntriesOk(Run(entries, ops)) && Extends(Run(entries, ops), entries)
  {
    if ops != [] {
      IdentityNeverChanges(entries, ops[..|ops| - 1]);
      StepExtends(Run(entries, ops[..|ops| - 1]), ops[|ops| - 1]);
    }
  }

  lemma ScanAt(entries: seq<Entry>, i: nat)
    requires EntriesOk(entries) && i < |entries|
    ensures Scan(entries, entries[i].idempotencyKey) == Schemas.Some(entries[i])
  {
    ScanFinds(entries, entries[i].idempotencyKey);
  }

  /** Idempotency for good: once a command is in the ledger, then after any later operations the
      same request gets the same entry back, flagged as a duplicate, a different request under
      its key is refused, and neither changes the ledger. */
  lemma ReceivesAreIdempotent(entries: seq<Entry>, ops: seq<Operation>, c: Command, now: int, i: nat)
    requires EntriesOk(entries) && i < |entries| && entries[i].idempotencyKey == c.key
    ensures var later := Run(entries, ops);
            && i < |later|
            && ReceiveEntries(later, c, now) == later
            && ReceiveReply(later, c, now) ==
               (if SameRequest(entries[i], c) then Ok(later[i].(duplicate := true)) else KeyConflict)
            && SameIdentity(entries[i], later[i])
  {
    IdentityNeverChanges(entries, ops);
    ScanAt(Run(entries, ops), i);
  }

  /** The entry of a command received at `now` and not touched since. */
  predicate Records(e: Entry, c: Command, id: nat, now: int) {
    && e.commandId == id && e.idempotencyKey == c.key && e.commandType == c.commandType && e.actorId == c.actorId
    && e.fingerprint == c.fingerprint && e.runtime == c.runtime && e.status == Received
    && e.auditRecordId == Schemas.None && e.createdAt == now && e.updatedAt == now && !e.duplicate
  }

  /** A command under a new key always gets in, as the last entry, recorded field by field. */
  lemma NewKeysGetIn(entries: seq<Entry>, c: Command, now: int)
    requires EntriesOk(entries) && c.key != "" && forall e :: e in entries ==> e.idempotencyKey != c.key
    ensures var after := ReceiveEntries(entries, c, now);
            && |after| == |entries| + 1 && after[..|entries|] == entries
            && Records(after[|entries|], c, |entries| + 1, now)
            && ReceiveReply(entries, c, now) == Ok(after[|entries|])
  {
    ScanFinds(entries, c.key);
  }

  /** The round trip: receive a command under a new key, do anything else, and receive under that key again.  The
      same type and fingerprint get the first entry back, flagged as a duplicate and with the first command's
      fields; another type or fingerprint is refused; the ledger stays as it was. */
  lemma ReceivedCommandsComeBack(
    entries: seq<Entry>, c: Command, now: int, ops: seq<Operation>, again: Command, later: int)
    requires EntriesOk(entries) && c.key != "" && forall e :: e in entries ==> e.idempotencyKey != c.key
    requires again.key == c.key
    ensures var ledger := Run(ReceiveEntries(entries, c, now), ops);
            && ReceiveEntries(ledger, again, later) == ledger
            && (again.commandType == c.commandType && again.fingerprint == c.fingerprint ==>
                 var reply := ReceiveReply(ledger, again, later);
                 && reply.Ok? && reply.entry.duplicate && reply.entry.commandId == |entries| + 1
                 && reply.entry.idempotencyKey == c.key && reply.entry.commandType == c.commandType
                 && reply.entry.actorId == c.actorId && reply.entry.fingerprint == c.fingerprint
                 && reply.entry.runtime == c.runtime && reply.entry.createdAt == now)
            && (again.commandType != c.commandType || again.fingerprint != c.fingerprint ==>
                 ReceiveReply(ledger, again, later) == KeyConflict)
  {
    hide EntriesOk, Run;
    NewKeysGetIn(entries, c, now);
    ReceiveExtends(entries, c, now);
    ReceivesAreIdempotent(ReceiveEntries(entries, c, now), ops, again, later, |entries|);
  }

  /** A key is required, whatever is stored. */
  lemma EmptyKeysAreRefused(entries: seq<Entry>, c: Command, now: int)
    requires c.key == ""
    ensures ReceiveReply(entries, c, now) == KeyRequired && ReceiveEntries(entries, c, now) == entries
  {
  }

  /** What a replacement changes: status, time of update, and the audit reference if a new one is given. */
  lemma ReplacementRecords(
    entries: seq<Entry>, commandId: nat, status: Lifecycle, audit: Option<string>, now: int, i: nat)
    requires i < |entries|
    ensures var after := ReplaceEntries(entries, commandId, status, audit, now);
            && |after| == |entries|
            && (i + 1 != commandId ==> after[i] == entries[i])
            && (i + 1 == commandId ==>
                 && SameIdentity(entries[i], after[i]) && after[i].status == status && after[i].updatedAt == now
                 && after[i].auditRecordId == (if audit.Some? then audit else entries[i].auditRecordId)
                 && ReplaceReply(entries, commandId, status, audit, now) == Ok(after[i]))
  {
  }

  lemma UnknownIdsAreRefused(entries: seq<Entry>, commandId: nat, status: Lifecycle, audit: Option<string>, now: int)
    requires commandId == 0 || commandId > |entries|
    ensures ReplaceReply(entries, commandId, status, audit, now) == UnknownCommand
    ensures ReplaceEntries(entries, commandId, status, audit, now) == entries
  {
  }
}
