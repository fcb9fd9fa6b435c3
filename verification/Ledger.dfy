/** The append machine: what each operation signs, when the store takes it, and the
    state after it. The tables are not part of the state: they are the fold of the log. */
module Ledger {
  import opened Domain
  import opened Projection

  /* ---------- What an evaluation signs (memory/service.py, _build_outcome_commit) ---------- */

  datatype Verdict = Verdict(eventId: Id, result: DetectorResult)

  datatype SemanticVerdict = SemanticVerdict(eventId: Id, assessment: Assessment)

  datatype Plan = Plan(
    candidate: Candidate, verdicts: seq<Verdict>, semantic: Option<SemanticVerdict>, decision: Decision,
    candidateEventId: Id, decisionEventId: Id, outcomeEventId: Id, memoryId: Id,
    occurredAt: Time, expiresAt: Option<Time>, safeStatement: string, risks: seq<string>, provider: string)

  predicate Admits(a: Action) {
    a == Allow || a == Redact
  }

  function PlanMemoryId(p: Plan): Option<Id> {
    if Admits(p.decision.actual) then Some(p.memoryId) else None
  }

  function PlanContent(p: Plan): Content {
    Content(p.safeStatement, p.candidate.namespace, p.candidate.kind, p.candidate.source, p.risks, p.provider)
  }

  function PlanOutcome(p: Plan): Outcome {
    Outcome(p.candidate.candidateId, p.decision.decisionId, PlanMemoryId(p), PlanContent(p),
            p.decision.actual, p.decision.would, p.decision.shadow, p.expiresAt)
  }

  function OutcomePayload(p: Plan): Payload {
    match p.decision.actual
    case Allow => MemoryCommitted(PlanOutcome(p))
    case Redact => MemoryRedacted(PlanOutcome(p))
    case Quarantine => MemoryQuarantined(PlanOutcome(p))
    case Block => MemoryBlocked(PlanOutcome(p))
  }

  function PlanInput(p: Plan, eventId: Id, payload: Payload): EventInput {
    EventInput(eventId, p.candidate.candidateId, PolicyActor, Some(p.candidate.sessionId), p.candidate.taskId,
               Some(p.candidate.source), PlanMemoryId(p), p.candidate.refs, Some(p.decision.policy),
               p.occurredAt, payload)
  }

  function PlanInputs(p: Plan): seq<EventInput> {
    [PlanInput(p, p.candidateEventId, CandidateCreated(p.candidate))]
    + seq(|p.verdicts|, i requires 0 <= i < |p.verdicts| =>
            PlanInput(p, p.verdicts[i].eventId, VerdictRecorded(p.verdicts[i].result)))
    + (if p.semantic.Some?
       then [PlanInput(p, p.semantic.value.eventId, AssessmentRecorded(p.semantic.value.assessment))] else [])
    + [PlanInput(p, p.decisionEventId, DecisionRecorded(p.decision)),
       PlanInput(p, p.outcomeEventId, OutcomePayload(p))]
  }

  function PlansInputs(plans: seq<Plan>): seq<EventInput> {
    if plans == [] then [] else PlansInputs(plans[..|plans| - 1]) + PlanInputs(plans[|plans| - 1])
  }

  function EvaluationInputs(plans: seq<Plan>, terminal: Option<EventInput>): seq<EventInput> {
    PlansInputs(plans) + if terminal.Some? then [terminal.value] else []
  }

  /** What normalisation, the detector runner and the semantic runner check before a plan is built. */
  predicate PlanFor(p: Plan, record: EvidenceRecord) {
    && p.candidate.sessionId == record.sessionId
    && p.candidate.taskId == record.taskId
    && p.candidate.source == record.source
    && p.candidate.refs != []
    && (forall r <- p.candidate.refs :: r == EvidenceRef(record.evidenceId, record.contentDigest))
    && ResultsFor(p.candidate, p.verdicts, p.semantic, p.decision)
  }

  predicate ResultsFor(c: Candidate, verdicts: seq<Verdict>, semantic: Option<SemanticVerdict>, decision: Decision) {
    && (forall v <- verdicts :: v.result.candidateId == c.candidateId)
    && (semantic.Some? ==> semantic.value.assessment.candidateId == c.candidateId)
    && decision.candidateId == c.candidateId
  }

  /* ---------- What a rescan signs (memory/rescan.py) ---------- */

  datatype RescanPlan = RescanPlan(
    target: MemoryRecord, candidate: Candidate, verdicts: seq<Verdict>, semantic: Option<SemanticVerdict>,
    decision: Decision, candidateEventId: Id, decisionEventId: Id, revocationEventId: Id,
    reason: string, occurredAt: Time)

  predicate Revokes(p: RescanPlan) {
    p.decision.actual != Allow
  }

  function RescanInput(p: RescanPlan, eventId: Id, actor: Actor, payload: Payload): EventInput {
    EventInput(eventId, p.candidate.candidateId, actor, Some(p.candidate.sessionId), p.candidate.taskId,
               Some(p.candidate.source), Some(p.target.memoryId), p.candidate.refs, Some(p.decision.policy),
               p.occurredAt, payload)
  }

  function RevocationInput(p: RescanPlan): EventInput {
    RescanInput(p, p.revocationEventId, OperatorActor,
                MemoryRevoked(p.target.memoryId, p.target.commitEventId, p.reason, p.target.status,
                              Some(RescanLink(p.candidate.candidateId, p.candidateEventId, p.decision.decisionId,
                                              p.decision.actual, p.decision.would))))
    .(source := Some(OperatorAction))
  }

  function RescanInputs(p: RescanPlan): seq<EventInput> {
    [RescanInput(p, p.candidateEventId, OperatorActor, CandidateCreated(p.candidate))]
    + seq(|p.verdicts|, i requires 0 <= i < |p.verdicts| =>
            RescanInput(p, p.verdicts[i].eventId, DetectorActor, VerdictRecorded(p.verdicts[i].result)))
    + (if p.semantic.Some?
       then [RescanInput(p, p.semantic.value.eventId, AgentActor, AssessmentRecorded(p.semantic.value.assessment))] else [])
    + [RescanInput(p, p.decisionEventId, PolicyActor, DecisionRecorded(p.decision))]
    + if Revokes(p) then [RevocationInput(p)] else []
  }

  /** The sanitised copy keeps the provenance of the signed candidate it was made from. */
  predicate PreparedFrom(original: Candidate, c: Candidate) {
    && c.sessionId == original.sessionId
    && c.taskId == original.taskId
    && c.source == original.source
    && c.refs == original.refs
    && c.extractor.RescanSanitizer?
  }

  /* ---------- Single-event operations ---------- */

  function CaptureInput(record: EvidenceRecord, eventId: Id, actor: Actor): EventInput {
    EventInput(eventId, record.evidenceId, actor, Some(record.sessionId), record.taskId, Some(record.source), None,
               [EvidenceRef(record.evidenceId, record.contentDigest)], None, record.capturedAt,
               EvidenceCaptured(record))
  }

  function WorkerInput(record: EvidenceRecord, eventId: Id, at: Time, payload: Payload): EventInput {
    EventInput(eventId, record.evidenceId, SystemActor, Some(record.sessionId), record.taskId, Some(record.source), None,
               [EvidenceRef(record.evidenceId, record.contentDigest)], None, at, payload)
  }

  function ApproveInput(target: QuarantineRecord, row: CandidateRow, memoryId: Id, eventId: Id, reason: string, at: Time): EventInput {
    EventInput(eventId, target.candidateId, OperatorActor, Some(row.record.sessionId), row.record.taskId,
               Some(OperatorAction), Some(memoryId), [], target.policy, at,
               MemoryApproved(Outcome(target.candidateId, target.decisionId, Some(memoryId), target.content,
                                      Allow, target.would, false, None),
                              reason, target.quarantineEventId))
  }

  function BlockInput(target: QuarantineRecord, eventId: Id, reason: string, at: Time): EventInput {
    EventInput(eventId, target.candidateId, OperatorActor, None, None, Some(OperatorAction), None, [], None, at,
               OperatorBlocked(target.candidateId, target.decisionId, reason, target.quarantineEventId))
  }

  function RevokeInput(target: MemoryRecord, eventId: Id, reason: string, at: Time): EventInput {
    EventInput(eventId, target.candidateId, OperatorActor, Some(target.sessionId), None, Some(OperatorAction),
               Some(target.memoryId), [], target.policy, at,
               MemoryRevoked(target.memoryId, target.commitEventId, reason, target.status, None))
  }

  function ExpireInput(target: MemoryRecord, eventId: Id, at: Time): EventInput {
    EventInput(eventId, target.candidateId, SystemActor, Some(target.sessionId), None, Some(SystemSource),
               Some(target.memoryId), [], target.policy, at,
               MemoryExpired(target.memoryId, target.commitEventId, target.expiresAt))
  }

  function ExpireInputs(ms: seq<MemoryRecord>, ids: seq<Id>, at: Time): (inputs: seq<EventInput>)
    requires |ms| == |ids|
    ensures |inputs| == |ms|
  {
    seq(|ms|, i requires 0 <= i < |ms| => ExpireInput(ms[i], ids[i], at))
  }

  function ActivateInput(document: PolicyDocument, eventId: Id, at: Time): EventInput {
    EventInput(eventId, Id("policy." + document.ref.policyId + "." + document.ref.version), OperatorActor, None, None,
               Some(OperatorAction), None, [], Some(document.ref), at, PolicyActivated(document))
  }

  function RejectInput(stream: Id, eventId: Id, reason: string, at: Time): EventInput {
    EventInput(eventId, stream, OperatorActor, None, None, Some(OperatorAction), None, [], None, at, PolicyRejected(reason))
  }

  /* ---------- The durable queue ---------- */

  datatype Phase = Pending(content: string) | Failed(failedAt: Time, terminalEventId: Id)

  datatype QueueRow = QueueRow(
    phase: Phase, digest: Digest, enqueuedAt: Time, attempts: nat, nextAttemptAt: Time, lastError: Option<ErrorCode>)

  datatype Limits = Limits(maxItems: nat, maxBytes: nat, maxAttempts: nat, maxAge: nat)

  function CodeUnits(c: char): nat {
    var n := c as int;
    if n < 0x80 then 1 else if n < 0x800 then 2 else if n < 0x1_0000 then 3 else 4
  }

  function Utf8Length(s: string): nat {
    if s == "" then 0 else Utf8Length(s[..|s| - 1]) + CodeUnits(s[|s| - 1])
  }

  lemma {:induction false} Utf8Concat(a: string, b: string)
    ensures Utf8Length(a + b) == Utf8Length(a) + Utf8Length(b)
  {
    if b == "" {
      assert a + b == a;
    } else {
      assert (a + b)[..|a + b| - 1] == a + b[..|b| - 1];
      Utf8Concat(a, b[..|b| - 1]);
    }
  }

  function PendingIds(queue: map<Id, QueueRow>): set<Id> {
    set id | id in queue && queue[id].phase.Pending?
  }

  ghost function SizeOf(queue: map<Id, QueueRow>, ids: set<Id>): nat
    requires forall id <- ids :: id in queue && queue[id].phase.Pending?
  {
    if ids == {} then 0
    else var id :| id in ids; Utf8Length(queue[id].phase.content) + SizeOf(queue, ids - {id})
  }

  ghost function PendingBytes(queue: map<Id, QueueRow>): nat {
    SizeOf(queue, PendingIds(queue))
  }

  ghost predicate HasRoom(queue: map<Id, QueueRow>, limits: Limits, content: string) {
    && |PendingIds(queue)| < limits.maxItems
    && PendingBytes(queue) + Utf8Length(content) <= limits.maxBytes
  }

  function NewRow(record: EvidenceRecord, content: string): QueueRow {
    QueueRow(Pending(content), record.sanitizedDigest, record.capturedAt, 0, record.capturedAt, None)
  }

  predicate EndsRow(row: QueueRow, limits: Limits, now: Time, force: bool) {
    force || row.attempts + 1 >= limits.maxAttempts || now as int - row.enqueuedAt as int >= limits.maxAge * 1_000_000
  }

  function Pow2(n: nat): nat {
    if n == 0 then 1 else 2 * Pow2(n - 1)
  }

  function RetryDelay(attempts: nat): nat {
    var raw := Pow2(if attempts < 8 then attempts else 8);
    if raw < 300 then raw else 300
  }

  function RetriedRow(row: QueueRow, error: ErrorCode, now: Time): QueueRow {
    row.(attempts := row.attempts + 1,
         nextAttemptAt := now + RetryDelay(row.attempts + 1) * 1_000_000,
         lastError := Some(error))
  }

  function FailedRow(row: QueueRow, error: ErrorCode, now: Time, eventId: Id): QueueRow {
    row.(phase := Failed(now, eventId), attempts := row.attempts + 1, nextAttemptAt := now, lastError := Some(error))
  }

  /* ---------- The machine ---------- */

  datatype State = State(
    log: seq<Envelope>,
    queue: map<Id, QueueRow>,
    /** History: every identifier ever put in the queue. */
    enqueued: set<Id>,
    /** Captures whose evaluation runs in the same call and has not committed. */
    direct: set<Id>,
    /** The row the worker is evaluating under its lock. */
    working: Option<Id>,
    /** Records that some operation read and may act on at any later time. */
    memoryReads: set<MemoryRecord>,
    quarantineReads: set<QuarantineRecord>)

  const INITIAL := State([], map[], {}, {}, None, {}, {})

  datatype Command =
    | ReadMemory(memoryId: Id)
    | ReadQuarantine(candidateId: Id)
    | Capture(record: EvidenceRecord, eventId: Id, actor: Actor, queued: Option<string>)
    | Claim(evidenceId: Id)
    | Release
    | Evaluate(evidenceId: Id, plans: seq<Plan>, terminal: Option<EventInput>, drain: bool)
    | Complete(evidenceId: Id, eventId: Id, at: Time)
    | Fail(evidenceId: Id, eventId: Id, error: ErrorCode, at: Time, force: bool)
    | Approve(quarantined: QuarantineRecord, memoryId: Id, eventId: Id, reason: string, at: Time)
    | BlockCandidate(quarantined: QuarantineRecord, eventId: Id, reason: string, at: Time)
    | Revoke(target: MemoryRecord, eventId: Id, reason: string, at: Time)
    | Expire(targets: seq<MemoryRecord>, eventIds: seq<Id>, at: Time)
    | Rescan(rescan: RescanPlan)
    | Activate(document: PolicyDocument, eventId: Id, at: Time)
    | Reject(stream: Id, eventId: Id, reason: string, at: Time)

  function TablesOf(s: State): Tables {
    Fold(EMPTY_TABLES, s.log)
  }

  function RecordOf(s: State, id: Id): EvidenceRecord
    requires id in TablesOf(s).evidence
  {
    TablesOf(s).evidence[id].record
  }

  predicate IsPending(s: State, id: Id) {
    id in s.queue && s.queue[id].phase.Pending?
  }

  predicate StreamEnd(e: EventInput) {
    && (e.payload.StreamCommitted? || e.payload.StreamAborted?)
    && e.refs == [] && e.memoryId == None
  }

  /** What the callers establish before they reach the append: no test here is made by the store. */
  predicate Offered(s: State, c: Command) {
    var t := TablesOf(s);
    match c
    case ReadMemory(m) => m in t.view.active
    case ReadQuarantine(q) => q in t.view.quarantine
    case Capture(r, _, _, queued) => r.retention == DigestOnly && (queued.Some? ==> r.sanitizedDigest == Digest(queued.value))
    case Claim(e) => s.working == None && IsPending(s, e)
    case Release => true
    case Evaluate(e, plans, terminal, drain) =>
      && (if drain then s.working == Some(e) && terminal == None && plans != [] else e in s.direct)
      && (plans != [] || terminal.Some?)
      && (terminal.Some? ==> StreamEnd(terminal.value))
      && e in t.evidence
      && (forall p <- plans :: PlanFor(p, RecordOf(s, e)))
    case Complete(e, _, _) => s.working == Some(e) && e in t.evidence
    case Fail(e, _, _, _, _) => s.working == Some(e) && e in t.evidence
    case Approve(q, _, _, _, _) => q in s.quarantineReads && q.candidateId in t.candidates
    case BlockCandidate(q, _, _, _) => q in s.quarantineReads
    case Revoke(m, _, _, _) => m in s.memoryReads
    case Expire(ms, ids, _) => ms != [] && |ms| == |ids| && (forall m <- ms :: m in s.memoryReads)
    case Rescan(p) =>
      && p.target in s.memoryReads
      && p.target.candidateId in t.candidates
      && PreparedFrom(t.candidates[p.target.candidateId].record, p.candidate)
      && ResultsFor(p.candidate, p.verdicts, p.semantic, p.decision)
    case Activate(_, _, _) => true
    case Reject(_, _, _, _) => true
  }

  /** The events a command appends when the store takes it. */
  function Inputs(s: State, limits: Limits, c: Command): seq<EventInput>
    requires Offered(s, c)
  {
    match c
    case ReadMemory(_) => []
    case ReadQuarantine(_) => []
    case Capture(r, id, actor, _) => [CaptureInput(r, id, actor)]
    case Claim(_) => []
    case Release => []
    case Evaluate(_, plans, terminal, _) => EvaluationInputs(plans, terminal)
    case Complete(e, id, at) => [WorkerInput(RecordOf(s, e), id, at, EvaluationCompleted(e, 0))]
    case Fail(e, id, error, at, force) =>
      if IsPending(s, e) && EndsRow(s.queue[e], limits, at, force)
      then [WorkerInput(RecordOf(s, e), id, at, EvaluationFailed(e, error, s.queue[e].attempts + 1, true))]
      else []
    case Approve(q, m, id, reason, at) => [ApproveInput(q, TablesOf(s).candidates[q.candidateId], m, id, reason, at)]
    case BlockCandidate(q, id, reason, at) => [BlockInput(q, id, reason, at)]
    case Revoke(m, id, reason, at) => [RevokeInput(m, id, reason, at)]
    case Expire(ms, ids, at) => ExpireInputs(ms, ids, at)
    case Rescan(p) => RescanInputs(p)
    case Activate(d, id, at) => [ActivateInput(d, id, at)]
    case Reject(stream, id, reason, at) => [RejectInput(stream, id, reason, at)]
  }

  function Stamp(inputs: seq<EventInput>, after: nat): seq<Envelope> {
    seq(|inputs|, i requires 0 <= i < |inputs| => Envelope(after + 1 + i, inputs[i]))
  }

  predicate Contiguous(log: seq<Envelope>) {
    forall i :: 0 <= i < |log| ==> log[i].sequence == i + 1
  }

  /** The unique index on event_id. */
  predicate FreshEvents(log: seq<Envelope>, inputs: seq<EventInput>) {
    && (forall i, j :: 0 <= i < j < |inputs| ==> inputs[i].eventId != inputs[j].eventId)
    && (forall i, k :: 0 <= i < |inputs| && 0 <= k < |log| ==> inputs[i].eventId != log[k].body.eventId)
  }

  predicate Takes(s: State, inputs: seq<EventInput>) {
    FreshEvents(s.log, inputs) && InsertableAll(TablesOf(s), Stamp(inputs, |s.log|))
  }

  /** The row of the policies table with active = 1; one_active_policy keeps it unique. */
  predicate PolicyIsActive(t: Tables, d: Decision) {
    d.policy in t.policies && t.policies[d.policy].active && t.policies[d.policy].digest == d.policyDigest
  }

  /** Whether the append commits. */
  ghost predicate Accepted(s: State, limits: Limits, c: Command)
    requires Offered(s, c)
  {
    var t := TablesOf(s);
    Takes(s, Inputs(s, limits, c)) &&
    match c
    case Capture(_, _, _, queued) => queued.Some? ==> HasRoom(s.queue, limits, queued.value)
    case Evaluate(e, _, _, drain) => drain ==> e in s.queue
    case Complete(e, _, _) => IsPending(s, e)
    case Fail(e, _, _, _, _) => IsPending(s, e)
    case Rescan(p) =>
      && PolicyIsActive(t, p.decision)
      && p.target.memoryId in t.view.active && t.view.active[p.target.memoryId] == p.target
      && (Revokes(p) ==> p.target.memoryId in t.view.inventory && t.view.inventory[p.target.memoryId] == p.target)
    case _ => true
  }

  function QueueAfter(s: State, limits: Limits, c: Command): map<Id, QueueRow> {
    match c
    case Capture(r, _, _, queued) => if queued.Some? then s.queue[r.evidenceId := NewRow(r, queued.value)] else s.queue
    case Evaluate(e, _, _, drain) => if drain then s.queue - {e} else s.queue
    case Complete(e, _, _) => s.queue - {e}
    case Fail(e, id, error, at, force) =>
      if !IsPending(s, e) then s.queue
      else if EndsRow(s.queue[e], limits, at, force) then s.queue[e := FailedRow(s.queue[e], error, at, id)]
      else s.queue[e := RetriedRow(s.queue[e], error, at)]
    case _ => s.queue
  }

  function WorkingAfter(working: Option<Id>, c: Command): Option<Id> {
    match c
    case Claim(e) => Some(e)
    case Release => None
    case Evaluate(_, _, _, drain) => if drain then None else working
    case Complete(_, _, _) => None
    case Fail(_, _, _, _, _) => None
    case _ => working
  }

  function EnqueuedAfter(s: State, c: Command): set<Id> {
    if c.Capture? && c.queued.Some? then s.enqueued + {c.record.evidenceId} else s.enqueued
  }

  function DirectAfter(s: State, c: Command): set<Id> {
    if c.Capture? && c.queued.None? then s.direct + {c.record.evidenceId}
    else if c.Evaluate? && !c.drain then s.direct - {c.evidenceId}
    else s.direct
  }

  function MemoryReadsAfter(s: State, c: Command): set<MemoryRecord> {
    var active := TablesOf(s).view.active;
    if c.ReadMemory? && c.memoryId in active then s.memoryReads + {active[c.memoryId]} else s.memoryReads
  }

  function QuarantineReadsAfter(s: State, c: Command): set<QuarantineRecord> {
    var quarantine := TablesOf(s).view.quarantine;
    if c.ReadQuarantine? && c.candidateId in quarantine then s.quarantineReads + {quarantine[c.candidateId]} else s.quarantineReads
  }

  function Committed(s: State, limits: Limits, c: Command): State
    requires Offered(s, c)
  {
    State(s.log + Stamp(Inputs(s, limits, c), |s.log|), QueueAfter(s, limits, c), EnqueuedAfter(s, c), DirectAfter(s, c),
          WorkingAfter(s.working, c), MemoryReadsAfter(s, c), QuarantineReadsAfter(s, c))
  }

  /** One step of the service: a refused append changes nothing. */
  ghost function Next(s: State, limits: Limits, c: Command): State {
    if Offered(s, c) && Accepted(s, limits, c) then Committed(s, limits, c) else s
  }

  ghost function Run(s: State, limits: Limits, cs: seq<Command>): State {
    if cs == [] then s else Next(Run(s, limits, cs[..|cs| - 1]), limits, cs[|cs| - 1])
  }

  lemma StampConcat(a: seq<EventInput>, b: seq<EventInput>, after: nat)
    ensures Stamp(a + b, after) == Stamp(a, after) + Stamp(b, after + |a|)
  {
  }

  /** The tables after a step are the old tables with the new events folded in. */
  lemma CommittedTables(s: State, limits: Limits, c: Command)
    requires Offered(s, c)
    ensures TablesOf(Committed(s, limits, c)) == Fold(TablesOf(s), Stamp(Inputs(s, limits, c), |s.log|))
  {
    FoldConcat(EMPTY_TABLES, s.log, Stamp(Inputs(s, limits, c), |s.log|));
  }
}
