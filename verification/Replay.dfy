/** The verifier's independent fold of the whole log into the memory view
    (ledger/verify.py, replay_memory_state). */
module Replay {
  import opened Domain

  datatype View = View(
    active: map<Id, MemoryRecord>,
    inventory: map<Id, MemoryRecord>,
    quarantine: map<Id, QuarantineRecord>)

  const EMPTY_VIEW := View(map[], map[], map[])

  function TrustOf(approved: bool, shadow: bool, actual: Action): Trust {
    if approved then ManuallyApproved
    else if shadow then ShadowAdmitted
    else if actual == Redact then RedactedByPolicy
    else Allowed
  }

  function AdmittedRecord(e: Envelope, o: Outcome, approved: bool, memoryId: Id, sessionId: Id): MemoryRecord {
    MemoryRecord(
      memoryId, e.body.eventId, o.candidateId, sessionId, o.content,
      if o.actual == Redact then Redacted else Active,
      TrustOf(approved, o.shadow, o.actual), e.body.policy, o.actual, o.would,
      e.body.occurredAt, o.expiresAt, o.shadow,
      if approved then Some(e.body.eventId) else None,
      e.body.eventId, e.sequence)
  }

  /** An admission without a memory or session identity is skipped. */
  function Admit(v: View, e: Envelope, o: Outcome, approved: bool): View {
    if o.memoryId.None? || e.body.sessionId.None? then v
    else
      var record := AdmittedRecord(e, o, approved, o.memoryId.value, e.body.sessionId.value);
      View(v.active[record.memoryId := record],
           v.inventory[record.memoryId := record],
           if approved then v.quarantine - {o.candidateId} else v.quarantine)
  }

  function Closed(r: MemoryRecord, status: MemoryStatus, e: Envelope): MemoryRecord {
    r.(status := status, lastEventId := e.body.eventId, lastSequence := e.sequence)
  }

  function Close(v: View, e: Envelope, named: Id, status: MemoryStatus): View {
    var id := if e.body.memoryId.Some? then e.body.memoryId.value else named;
    View(v.active - {id},
         if id in v.inventory then v.inventory[id := Closed(v.inventory[id], status, e)] else v.inventory,
         v.quarantine)
  }

  function QuarantinedRecord(e: Envelope, o: Outcome): QuarantineRecord {
    QuarantineRecord(o.candidateId, o.decisionId, o.content, e.body.policy, e.body.eventId, e.body.occurredAt, o.would)
  }

  function ReplayStep(v: View, e: Envelope): View {
    match e.body.payload
    case MemoryCommitted(o) => Admit(v, e, o, false)
    case MemoryRedacted(o) => Admit(v, e, o, false)
    case MemoryApproved(o, _, _) => Admit(v, e, o, true)
    case MemoryQuarantined(o) => v.(quarantine := v.quarantine[o.candidateId := QuarantinedRecord(e, o)])
    case MemoryBlocked(o) => v.(quarantine := v.quarantine - {o.candidateId})
    case OperatorBlocked(c, _, _, _) => v.(quarantine := v.quarantine - {c})
    case MemoryRevoked(m, _, _, _, _) => Close(v, e, m, Revoked)
    case MemoryExpired(m, _, _) => Close(v, e, m, Expired)
    case MemorySuperseded(m) => Close(v, e, m, Superseded)
    case _ => v
  }

  function ReplayLog(log: seq<Envelope>): View {
    if log == [] then EMPTY_VIEW
    else ReplayStep(ReplayLog(log[..|log| - 1]), log[|log| - 1])
  }

  /** The fold as the verifier runs it: three dictionaries updated in place. */
  method ReplayMemoryState(events: seq<Envelope>)
    returns (active: map<Id, MemoryRecord>, inventory: map<Id, MemoryRecord>, quarantine: map<Id, QuarantineRecord>)
    ensures View(active, inventory, quarantine) == ReplayLog(events)
  {
    hide Admit, Close, QuarantinedRecord;
    active, inventory, quarantine := map[], map[], map[];
    for i := 0 to |events|
      invariant View(active, inventory, quarantine) == ReplayLog(events[..i])
    {
      var e := events[i];
      assert events[..i + 1][..i] == events[..i];
      match e.body.payload {
        case MemoryCommitted(o) =>
          active, inventory, quarantine := AdmitInPlace(active, inventory, quarantine, e, o, false);
        case MemoryRedacted(o) =>
          active, inventory, quarantine := AdmitInPlace(active, inventory, quarantine, e, o, false);
        case MemoryApproved(o, _, _) =>
          active, inventory, quarantine := AdmitInPlace(active, inventory, quarantine, e, o, true);
        case MemoryQuarantined(o) =>
          quarantine := quarantine[o.candidateId := QuarantinedRecord(e, o)];
        case MemoryBlocked(o) =>
          quarantine := quarantine - {o.candidateId};
        case OperatorBlocked(c, _, _, _) =>
          quarantine := quarantine - {c};
        case MemoryRevoked(m, _, _, _, _) =>
          active, inventory := CloseInPlace(active, inventory, e, m, Revoked);
        case MemoryExpired(m, _, _) =>
          active, inventory := CloseInPlace(active, inventory, e, m, Expired);
        case MemorySuperseded(m) =>
          active, inventory := CloseInPlace(active, inventory, e, m, Superseded);
        case _ =>
      }
    }
    assert events[..|events|] == events;
  }

  method AdmitInPlace(active0: map<Id, MemoryRecord>, inventory0: map<Id, MemoryRecord>,
                      quarantine0: map<Id, QuarantineRecord>, e: Envelope, o: Outcome, approved: bool)
    returns (active: map<Id, MemoryRecord>, inventory: map<Id, MemoryRecord>, quarantine: map<Id, QuarantineRecord>)
    ensures View(active, inventory, quarantine) == Admit(View(active0, inventory0, quarantine0), e, o, approved)
  {
    active, inventory, quarantine := active0, inventory0, quarantine0;
    if o.memoryId.None? || e.body.sessionId.None? {
      return;
    }
    var record := AdmittedRecord(e, o, approved, o.memoryId.value, e.body.sessionId.value);
    active := active[record.memoryId := record];
    inventory := inventory[record.memoryId := record];
    if approved {
      quarantine := quarantine - {o.candidateId};
    }
  }

  method CloseInPlace(active0: map<Id, MemoryRecord>, inventory0: map<Id, MemoryRecord>, e: Envelope, named: Id, status: MemoryStatus)
    returns (active: map<Id, MemoryRecord>, inventory: map<Id, MemoryRecord>)
    ensures forall q :: View(active, inventory, q) == Close(View(active0, inventory0, q), e, named, status)
  {
    active, inventory := active0, inventory0;
    var id := if e.body.memoryId.Some? then e.body.memoryId.value else named;
    active := active - {id};
    if id in inventory {
      inventory := inventory[id := Closed(inventory[id], status, e)];
    }
  }
}
