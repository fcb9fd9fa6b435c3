/** The values that the ledger, the memory pipeline and the queries exchange. */
module Domain {

  datatype Option<+T> = None | Some(value: T)

  datatype Id = Id(text: string)

  /** SHA-256 as an ideal hash: a digest is known by what was hashed. */
  datatype Digest = Digest(preimage: string)

  /** Microseconds since the epoch; module Timestamps gives the text form. */
  type Time = nat

  datatype Action = Allow | Redact | Quarantine | Block

  datatype MemoryStatus = Active | Redacted | Revoked | Superseded | Expired

  datatype Trust = Allowed | RedactedByPolicy | ManuallyApproved | ShadowAdmitted

  datatype Actor = SystemActor | OperatorActor | CodexActor | ToolActor | AgentActor | PolicyActor | DetectorActor

  datatype Source =
    | UserInput | ToolOutput | AgentOutput | ImportedFile | PriorMemory
    | Compaction | SessionSummary | ExternalEvent | OperatorAction | SystemSource

  datatype ErrorCode = EvaluationError | QueueExpired | QueueIntegrityError

  datatype PolicyRef = PolicyRef(policyId: string, version: string)

  datatype PolicyDocument = PolicyDocument(ref: PolicyRef, shadow: bool, text: string)

  /** The digest of a policy document, ideal like Digest. */
  datatype PolicyDigest = PolicyDigest(document: PolicyDocument)

  datatype EvidenceRef = EvidenceRef(evidenceId: Id, digest: Digest)

  datatype Retention = DigestOnly | ProtectedLocal | ExpiredContent

  datatype EvidenceRecord = EvidenceRecord(
    evidenceId: Id, sessionId: Id, taskId: Option<Id>, source: Source, sourceName: Option<string>,
    safeExcerpt: string, contentDigest: Digest, retention: Retention, capturedAt: Time,
    sanitizedDigest: Digest)

  datatype Extractor = Extraction(provider: string) | RescanSanitizer(version: string)

  datatype Candidate = Candidate(
    candidateId: Id, sessionId: Id, taskId: Option<Id>, namespace: string, kind: string,
    source: Source, statement: string, refs: seq<EvidenceRef>, extractor: Extractor)

  datatype DetectorResult = DetectorResult(resultId: Id, candidateId: Id, detail: string)

  datatype Assessment = Assessment(assessmentId: Id, candidateId: Id, detail: string)

  datatype Decision = Decision(
    decisionId: Id, candidateId: Id, policy: PolicyRef, policyDigest: PolicyDigest,
    actual: Action, would: Action, shadow: bool)

  /** The display fields of a memory, which no operation ever edits. */
  datatype Content = Content(
    safeStatement: string, namespace: string, kind: string, source: Source,
    risks: seq<string>, provider: string)

  datatype MemoryRecord = MemoryRecord(
    memoryId: Id, commitEventId: Id, candidateId: Id, sessionId: Id, content: Content,
    status: MemoryStatus, trust: Trust, policy: Option<PolicyRef>, actual: Action, would: Action,
    committedAt: Time, expiresAt: Option<Time>, shadowAdmitted: bool, approvalEventId: Option<Id>,
    lastEventId: Id, lastSequence: nat)

  datatype QuarantineRecord = QuarantineRecord(
    candidateId: Id, decisionId: Id, content: Content, policy: Option<PolicyRef>,
    quarantineEventId: Id, createdAt: Time, would: Action)

  /** The payload of a memory outcome or a manual approval. */
  datatype Outcome = Outcome(
    candidateId: Id, decisionId: Id, memoryId: Option<Id>, content: Content,
    actual: Action, would: Action, shadow: bool, expiresAt: Option<Time>)

  /** What a rescan's revocation records besides the revoked memory. */
  datatype RescanLink = RescanLink(
    rescanCandidateId: Id, rescanCandidateEventId: Id, rescanDecisionId: Id, actual: Action, would: Action)

  /** One constructor for each event type the pipeline appends, with its payload. */
  datatype Payload =
    | EvidenceCaptured(record: EvidenceRecord)
    | EvaluationCompleted(completedId: Id, candidateCount: nat)
    | EvaluationFailed(failedId: Id, error: ErrorCode, attempts: nat, contentPurged: bool)
    | CandidateCreated(candidate: Candidate)
    | VerdictRecorded(result: DetectorResult)
    | AssessmentRecorded(assessment: Assessment)
    | DecisionRecorded(decision: Decision)
    | MemoryCommitted(outcome: Outcome)
    | MemoryRedacted(outcome: Outcome)
    | MemoryQuarantined(outcome: Outcome)
    | MemoryBlocked(outcome: Outcome)
    | OperatorBlocked(blockedCandidateId: Id, blockedDecisionId: Id, blockReason: string, blockedEventId: Id)
    | MemoryApproved(outcome: Outcome, approvalReason: string, approvedEventId: Id)
    | MemoryRevoked(revokedId: Id, revokedCommit: Id, revokeReason: string, previousStatus: MemoryStatus, rescan: Option<RescanLink>)
    | MemoryExpired(expiredId: Id, expiredCommit: Id, due: Option<Time>)
    | MemorySuperseded(supersededId: Id)
    | PolicyActivated(document: PolicyDocument)
    | PolicyRejected(rejectReason: string)
    | StreamStarted(streamId: Id)
    | StreamAborted(streamId: Id, blocked: bool, abortReason: string)
    | StreamCommitted(streamId: Id, candidateIds: seq<Id>, actions: seq<Action>)

  /** An event before the store assigns its place in the chain. */
  datatype EventInput = EventInput(
    eventId: Id, stream: Id, actor: Actor, sessionId: Option<Id>, taskId: Option<Id>,
    source: Option<Source>, memoryId: Option<Id>, refs: seq<EvidenceRef>, policy: Option<PolicyRef>,
    occurredAt: Time, payload: Payload)

  datatype Envelope = Envelope(sequence: nat, body: EventInput)
}
