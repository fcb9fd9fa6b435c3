/** The event fold for every table that the verifier checks against the log. */
module Projection {
  import opened Domain
  import opened Replay

  datatype EvidenceRow = EvidenceRow(record: EvidenceRecord, protectedContent: Option<string>, captureEventId: Id)

  datatype CandidateRow = CandidateRow(
    record: Candidate, sessionId: Id, namespace: string, kind: string, source: Source, creationEventId: Id)

  datatype VerdictRow = VerdictRow(record: DetectorResult, candidateId: Id, eventId: Id)

  datatype AssessmentRow = AssessmentRow(record: Assessment, candidateId: Id, eventId: Id)

  datatype DecisionRow = DecisionRow(record: Decision, candidateId: Id, eventId: Id)

  datatype PolicyRow = PolicyRow(document: PolicyDocument, digest: PolicyDigest, activationEventId: Id, active: bool)

  datatype Tables = Tables(
    evidence: map<Id, EvidenceRow>,
    candidates: map<Id, CandidateRow>,
    verdicts: map<Id, VerdictRow>,
    assessments: map<Id, AssessmentRow>,
    decisions: map<Id, DecisionRow>,
    policies: map<PolicyRef, PolicyRow>,
    view: View)

  const EMPTY_TABLES := Tables(map[], map[], map[], map[], map[], map[], EMPTY_VIEW)

  function Deactivated(policies: map<PolicyRef, PolicyRow>): map<PolicyRef, PolicyRow> {
    map r | r in policies :: policies[r].(active := false)
  }

  function CandidateRowOf(c: Candidate, eventId: Id): CandidateRow {
    CandidateRow(c, c.sessionId, c.namespace, c.kind, c.source, eventId)
  }

  function EvidenceStep(rows: map<Id, EvidenceRow>, e: EventInput): map<Id, EvidenceRow> {
    if e.payload.EvidenceCaptured?
    then rows[e.payload.record.evidenceId := EvidenceRow(e.payload.record, None, e.eventId)] else rows
  }

  function CandidateStep(rows: map<Id, CandidateRow>, e: EventInput): map<Id, CandidateRow> {
    if e.payload.CandidateCreated?
    then rows[e.payload.candidate.candidateId := CandidateRowOf(e.payload.candidate, e.eventId)] else rows
  }

  function VerdictStep(rows: map<Id, VerdictRow>, e: EventInput): map<Id, VerdictRow> {
    if e.payload.VerdictRecorded?
    then rows[e.payload.result.resultId := VerdictRow(e.payload.result, e.payload.result.candidateId, e.eventId)] else rows
  }

  function AssessmentStep(rows: map<Id, AssessmentRow>, e: EventInput): map<Id, AssessmentRow> {
    if e.payload.AssessmentRecorded?
    then rows[e.payload.assessment.assessmentId := AssessmentRow(e.payload.assessment, e.payload.assessment.candidateId, e.eventId)]
    else rows
  }

  function DecisionStep(rows: map<Id, DecisionRow>, e: EventInput): map<Id, DecisionRow> {
    if e.payload.DecisionRecorded?
    then rows[e.payload.decision.decisionId := DecisionRow(e.payload.decision, e.payload.decision.candidateId, e.eventId)]
    else rows
  }

  function PolicyStep(rows: map<PolicyRef, PolicyRow>, e: EventInput): map<PolicyRef, PolicyRow> {
    if e.payload.PolicyActivated?
    then Deactivated(rows)[e.payload.document.ref := PolicyRow(e.payload.document, PolicyDigest(e.payload.document), e.eventId, true)]
    else rows
  }

  /** What one event adds to the tables, seen from the log alone. */
  function FoldStep(t: Tables, e: Envelope): Tables {
    Tables(
      EvidenceStep(t.evidence, e.body), CandidateStep(t.candidates, e.body), VerdictStep(t.verdicts, e.body),
      AssessmentStep(t.assessments, e.body), DecisionStep(t.decisions, e.body), PolicyStep(t.policies, e.body),
      ReplayStep(t.view, e))
  }

  function Fold(t: Tables, es: seq<Envelope>): Tables {
    if es == [] then t else FoldStep(Fold(t, es[..|es| - 1]), es[|es| - 1])
  }

  /** The key constraints and row-count tests that can make one statement of a projector fail. */
  predicate Insertable(t: Tables, e: Envelope) {
    match e.body.payload
    case EvidenceCaptured(r) => r.evidenceId !in t.evidence
    case CandidateCreated(c) => c.candidateId !in t.candidates
    case VerdictRecorded(r) => r.resultId !in t.verdicts
    case AssessmentRecorded(a) => a.assessmentId !in t.assessments
    case DecisionRecorded(d) => d.decisionId !in t.decisions
    case PolicyActivated(p) => p.ref in t.policies ==> t.policies[p.ref].digest == PolicyDigest(p)
    case MemoryCommitted(o) => Unused(t.view, o)
    case MemoryRedacted(o) => Unused(t.view, o)
    case MemoryApproved(o, _, _) => Unused(t.view, o)
    case MemoryQuarantined(o) => o.candidateId !in t.view.quarantine
    case MemoryRevoked(m, _, _, _, _) => m in t.view.inventory
    case _ => true
  }

  predicate Unused(v: View, o: Outcome) {
    o.memoryId.Some? ==> o.memoryId.value !in v.active && o.memoryId.value !in v.inventory
  }

  predicate InsertableAll(t: Tables, es: seq<Envelope>) {
    es == [] || (InsertableAll(t, es[..|es| - 1]) && Insertable(Fold(t, es[..|es| - 1]), es[|es| - 1]))
  }

  lemma {:induction false} FoldConcat(t: Tables, a: seq<Envelope>, b: seq<Envelope>)
    ensures Fold(t, a + b) == Fold(Fold(t, a), b)
    ensures InsertableAll(t, a + b) <==> InsertableAll(t, a) && InsertableAll(Fold(t, a), b)
  {
    if b == [] {
      assert a + b == a;
    } else {
      var c := b[..|b| - 1];
      assert (a + b)[..|a + b| - 1] == a + c;
      FoldConcat(t, a, c);
    }
  }

  /** The memory part of the fold is the verifier's replay. */
  lemma {:induction false} FoldViewIsReplay(log: seq<Envelope>)
    ensures Fold(EMPTY_TABLES, log).view == ReplayLog(log)
  {
    if log != [] {
      FoldViewIsReplay(log[..|log| - 1]);
    }
  }

  /** A prefix of acceptable statements is acceptable. */
  lemma {:induction false} InsertablePrefix(t: Tables, es: seq<Envelope>, k: nat)
    requires k <= |es| && InsertableAll(t, es)
    ensures InsertableAll(t, es[..k])
  {
    assert es == es[..k] + es[k..];
    FoldConcat(t, es[..k], es[k..]);
  }
}
