/** Rebuilding the memory tables from the log (memory/materializer.py, _rebuild). */
module Materializer {
  import opened Domain
  import opened Replay
  import opened Projection
  import opened Ledger
  import opened Verifier

  /** What a rebuild returns: the flag and the row counts, a refusal before it, or one after it. */
  datatype Rebuilt =
    | Rebuilt(changed: bool, activeCount: nat, inventoryCount: nat, quarantineCount: nat)
    | UnsafeHistory
    | DidNotVerify

  /** The rest of the ledger beside the memory tables; anchored says that the chain is valid and the head names its end. */
  datatype Surroundings = Surroundings(anchored: bool, tables: Tables, queue: map<Id, QueueRow>)

  /** What verify(verify_view=False) decides: everything but the memory tables. */
  ghost predicate SafeToReplay(log: seq<Envelope>, around: Surroundings) {
    && around.anchored && EvidenceAgrees(log, around.tables.evidence) && QueueAgrees(log, around.queue)
    && PolicyAgrees(log, around.tables.policies) && DetailsAgree(log, around.tables)
  }

  /** The flag compares two of the three tables. */
  predicate Changed(stored: View, replayed: View) {
    stored.active != replayed.active || stored.quarantine != replayed.quarantine
  }

  ghost predicate Keyed(v: View) {
    && (forall m :: m in v.active ==> v.active[m].memoryId == m)
    && (forall m :: m in v.inventory ==> v.inventory[m].memoryId == m)
    && (forall q :: q in v.quarantine ==> v.quarantine[q].candidateId == q)
  }

  /** Replayed records carry the key they are stored under, so reinserting them by record never collides. */
  lemma {:induction false} ReplayKeyed(log: seq<Envelope>)
    ensures Keyed(ReplayLog(log))
  {
    if log != [] {
      ReplayKeyed(log[..|log| - 1]);
      StepKeyed(ReplayLog(log[..|log| - 1]), log[|log| - 1]);
    }
  }

  lemma StepKeyed(v: View, e: Envelope)
    requires Keyed(v)
    ensures Keyed(ReplayStep(v, e))
  {
    hide Admit, Close, Keyed;
    match e.body.payload {
      case MemoryCommitted(o) => AdmitKeyed(v, e, o, false);
      case MemoryRedacted(o) => AdmitKeyed(v, e, o, false);
      case MemoryApproved(o, _, _) => AdmitKeyed(v, e, o, true);
      case MemoryRevoked(m, _, _, _, _) => CloseKeyed(v, e, m, Revoked);
      case MemoryExpired(m, _, _) => CloseKeyed(v, e, m, Expired);
      case MemorySuperseded(m) => CloseKeyed(v, e, m, Superseded);
      case MemoryQuarantined(o) => HoldKeyed(v, QuarantinedRecord(e, o));
      case MemoryBlocked(o) => DropKeyed(v, o.candidateId);
      case OperatorBlocked(c, _, _, _) => DropKeyed(v, c);
      case _ =>
    }
  }

  lemma AdmitKeyed(v: View, e: Envelope, o: Outcome, approved: bool)
    requires Keyed(v)
    ensures Keyed(Admit(v, e, o, approved))
  {
  }

  lemma CloseKeyed(v: View, e: Envelope, named: Id, status: MemoryStatus)
    requires Keyed(v)
    ensures Keyed(Close(v, e, named, status))
  {
  }

  lemma HoldKeyed(v: View, r: QuarantineRecord)
    requires Keyed(v)
    ensures Keyed(v.(quarantine := v.quarantine[r.candidateId := r]))
  {
  }

  lemma DropKeyed(v: View, c: Id)
    requires Keyed(v)
    ensures Keyed(v.(quarantine := v.quarantine - {c}))
  {
  }

  class MemoryView {
    var log: seq<Envelope>
    var active: map<Id, MemoryRecord>
    var inventory: map<Id, MemoryRecord>
    var quarantined: map<Id, QuarantineRecord>

    constructor (log: seq<Envelope>, v: View)
      ensures this.log == log && Stored() == v
    {
      this.log := log;
      active, inventory, quarantined := v.active, v.inventory, v.quarantine;
    }

    function Stored(): View
      reads this
    {
      View(active, inventory, quarantined)
    }

    method InsertMemories(records: map<Id, MemoryRecord>) returns (ok: bool, rows: map<Id, MemoryRecord>)
      requires forall m :: m in records ==> records[m].memoryId == m
      ensures ok && rows == records
    {
      rows := map[];
      var rest := records.Keys;
      while rest != {}
        invariant rest <= records.Keys
        invariant rows == map m | m in records && m !in rest :: records[m]
        decreases rest
      {
        var m :| m in rest;
        if records[m].memoryId in rows {
          return false, rows;
        }
        rows, rest := rows[records[m].memoryId := records[m]], rest - {m};
      }
      ok := true;
    }

    method InsertQuarantines(records: map<Id, QuarantineRecord>) returns (ok: bool, rows: map<Id, QuarantineRecord>)
      requires forall q :: q in records ==> records[q].candidateId == q
      ensures ok && rows == records
    {
      rows := map[];
      var rest := records.Keys;
      while rest != {}
        invariant rest <= records.Keys
        invariant rows == map q | q in records && q !in rest :: records[q]
        decreases rest
      {
        var q :| q in rest;
        if records[q].candidateId in rows {
          return false, rows;
        }
        rows, rest := rows[records[q].candidateId := records[q]], rest - {q};
      }
      ok := true;
    }

    /** The verification, with or without its last check. */
    method Verify(around: Surroundings, verifyView: bool) returns (verified: bool)
      requires around.anchored ==> Contiguous(log)
      ensures verified <==> SafeToReplay(log, around) && (verifyView ==> Stored() == ReplayLog(log))
    {
      hide EvidenceAgrees, QueueAgrees, PolicyAgrees, DetailsAgree, ReplayLog, SignedAgrees;
      if !around.anchored {
        return false;
      }
      var t := around.tables.(view := Stored());
      var failure := VerifyProjections(log, t, around.queue);
      verified := failure.None? || (!verifyView && failure.value.kind == MaterializedViewDrift);
      SameDetails(log, around.tables, t);
    }

    /** All rows are deleted and reinserted from the replay; a dry run only compares. The closing verification
        never refuses what the opening one let through. */
    method Rebuild(dryRun: bool, around: Surroundings) returns (r: Rebuilt)
      requires around.anchored ==> Contiguous(log)
      modifies this`active, this`inventory, this`quarantined
      ensures r.Rebuilt? <==> SafeToReplay(log, around)
      ensures !r.DidNotVerify?
      ensures r.Rebuilt? ==>
                && r.changed == Changed(old(Stored()), ReplayLog(log))
                && r.activeCount == |ReplayLog(log).active| && r.inventoryCount == |ReplayLog(log).inventory|
                && r.quarantineCount == |ReplayLog(log).quarantine|
      ensures Stored() == if SafeToReplay(log, around) && !dryRun then ReplayLog(log) else old(Stored())
    {
      hide SafeToReplay, ReplayLog;
      var verified := Verify(around, false);
      if !verified {
        return UnsafeHistory;
      }
      var newActive, newInventory, newQuarantine := ReplayMemoryState(log);
      ReplayKeyed(log);
      r := Rebuilt(active != newActive || quarantined != newQuarantine, |newActive|, |newInventory|, |newQuarantine|);
      if dryRun {
        return;
      }
      var activeRows, inventoryRows, quarantineRows, ok;
      ok, activeRows := InsertMemories(newActive);
      ok, inventoryRows := InsertMemories(newInventory);
      ok, quarantineRows := InsertQuarantines(newQuarantine);
      active, inventory, quarantined := activeRows, inventoryRows, quarantineRows;
      verified := Verify(around, true);
      if !verified {
        return DidNotVerify;
      }
    }
  }

  lemma SameDetails(log: seq<Envelope>, a: Tables, b: Tables)
    requires b == a.(view := b.view)
    ensures DetailsAgree(log, a) <==> DetailsAgree(log, b)
  {
    hide DetailsSigned, Fold;
  }

  /** When the flag tells whether a rebuild would change anything: unless the inventory alone has drifted. */
  lemma ChangedIsExact(stored: View, log: seq<Envelope>)
    ensures (Changed(stored, ReplayLog(log)) <==> stored != ReplayLog(log)) <==>
            !(stored.inventory != ReplayLog(log).inventory
              && stored.active == ReplayLog(log).active && stored.quarantine == ReplayLog(log).quarantine)
  {
    hide ReplayLog;
  }

  /** A stray inventory row over an empty log is drift that the flag does not report. */
  lemma DriftUnreported(record: MemoryRecord)
    ensures var stored := View(map[], map[record.memoryId := record], map[]);
            stored != ReplayLog([]) && !Changed(stored, ReplayLog([]))
  {
    assert record.memoryId in map[record.memoryId := record];
  }
}
