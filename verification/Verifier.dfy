/** The ledger verifier's projection checks (ledger/verify.py): what each one decides, as a
    statement about the events and the stored rows, and the loops that decide it. */
module Verifier {
  import opened Domain
  import opened Replay
  import opened Projection
  import opened Ledger
  import opened SignedLog

  datatype FailureClass =
    | EvidenceCaptureIdentityMismatch | EvidenceProjectionDrift | MissingEvidenceReference
    | QueueFailurePayloadInvalid | QueueFailureIdentityMismatch | QueueFailureProjectionDrift
    | PolicyActivationIdentityMismatch | PolicyVersionReused | PolicyDecisionActivationMismatch | PolicyProjectionDrift
    | AuxiliaryEventIdentityMismatch | AuxiliaryProjectionDrift
    | MaterializedViewDrift

  datatype Failure = Failure(kind: FailureClass, eventId: Option<Id>)

  datatype Check = EvidenceCheck | QueueCheck | PolicyCheck | DetailCheck | ViewCheck

  /** The check that reports a failure class. */
  function CheckOf(k: FailureClass): Check {
    match k
    case EvidenceCaptureIdentityMismatch => EvidenceCheck
    case EvidenceProjectionDrift => EvidenceCheck
    case MissingEvidenceReference => EvidenceCheck
    case QueueFailurePayloadInvalid => QueueCheck
    case QueueFailureIdentityMismatch => QueueCheck
    case QueueFailureProjectionDrift => QueueCheck
    case PolicyActivationIdentityMismatch => PolicyCheck
    case PolicyVersionReused => PolicyCheck
    case PolicyDecisionActivationMismatch => PolicyCheck
    case PolicyProjectionDrift => PolicyCheck
    case AuxiliaryEventIdentityMismatch => DetailCheck
    case AuxiliaryProjectionDrift => DetailCheck
    case MaterializedViewDrift => ViewCheck
  }

  /* ---------- Evidence ---------- */

  predicate CapturesSigned(events: seq<Envelope>) {
    forall i :: 0 <= i < |events| ==> CaptureSound(CapturesOf(events[..i]), events[i].body)
  }

  predicate CaptureSound(captures: map<Id, EvidenceRow>, e: EventInput) {
    e.payload.EvidenceCaptured? ==>
      CaptureIdentity(e.payload.record, e) && e.payload.record.evidenceId !in captures
  }

  predicate EvidenceRowMatches(row: EvidenceRow, signed: EvidenceRow) {
    && row.record == signed.record && row.captureEventId == signed.captureEventId
    && if signed.record.retention.ProtectedLocal?
       then row.protectedContent.Some? && Digest(row.protectedContent.value) == signed.record.contentDigest
       else row.protectedContent == None
  }

  predicate ReferencesResolve(rows: map<Id, EvidenceRow>, e: EventInput) {
    forall r <- e.refs :: Resolves(rows, r)
  }

  predicate EvidenceAgrees(events: seq<Envelope>, rows: map<Id, EvidenceRow>) {
    var signed := CapturesOf(events);
    && CapturesSigned(events)
    && rows.Keys == signed.Keys
    && (forall id <- signed.Keys :: EvidenceRowMatches(rows[id], signed[id]))
    && (forall e <- events :: ReferencesResolve(rows, e.body))
  }

  lemma CapturesNext(events: seq<Envelope>, i: nat)
    requires i < |events|
    ensures CapturesOf(events[..i + 1]) == EvidenceStep(CapturesOf(events[..i]), events[i].body)
  {
    assert events[..i + 1][..i] == events[..i];
  }

  method VerifyEvidenceReferences(events: seq<Envelope>, rows: map<Id, EvidenceRow>) returns (failure: Option<Failure>)
    ensures failure.None? <==> EvidenceAgrees(events, rows)
    ensures failure.Some? ==> CheckOf(failure.value.kind) == EvidenceCheck
  {
    hide CapturesOf, CaptureIdentity, EvidenceRowMatches, Resolves;
    var captures: map<Id, EvidenceRow> := map[];
    assert CapturesOf([]) == map[] by { NoCaptures(); }
    for i := 0 to |events|
      invariant captures == CapturesOf(events[..i])
      invariant forall k :: 0 <= k < i ==> CaptureSound(CapturesOf(events[..k]), events[k].body)
    {
      var e := events[i].body;
      CapturesNext(events, i);
      if e.payload.EvidenceCaptured? {
        if !CaptureIdentity(e.payload.record, e) || e.payload.record.evidenceId in captures {
          return Some(Failure(EvidenceCaptureIdentityMismatch, Some(e.eventId)));
        }
        captures := captures[e.payload.record.evidenceId := EvidenceRow(e.payload.record, None, e.eventId)];
      }
    }
    assert events[..|events|] == events;
    if rows.Keys != captures.Keys {
      return Some(Failure(EvidenceProjectionDrift, None));
    }
    var rest := captures.Keys;
    while rest != {}
      invariant rest <= captures.Keys
      invariant forall id <- captures.Keys - rest :: EvidenceRowMatches(rows[id], captures[id])
      decreases rest
    {
      var id :| id in rest;
      if !EvidenceRowMatches(rows[id], captures[id]) {
        return Some(Failure(EvidenceProjectionDrift, Some(captures[id].captureEventId)));
      }
      rest := rest - {id};
    }
    for i := 0 to |events|
      invariant forall k :: 0 <= k < i ==> ReferencesResolve(rows, events[k].body)
    {
      var resolved := CheckReferences(rows, events[i].body);
      if !resolved {
        return Some(Failure(MissingEvidenceReference, Some(events[i].body.eventId)));
      }
    }
    failure := None;
  }

  lemma NoCaptures()
    ensures CapturesOf([]) == map[]
  {
  }

  method CheckReferences(rows: map<Id, EvidenceRow>, e: EventInput) returns (ok: bool)
    ensures ok <==> ReferencesResolve(rows, e)
  {
    for j := 0 to |e.refs|
      invariant forall k :: 0 <= k < j ==> Resolves(rows, e.refs[k])
    {
      assert e.refs[j] in e.refs;
      if e.refs[j].evidenceId !in rows || rows[e.refs[j].evidenceId].record.contentDigest != e.refs[j].digest {
        return false;
      }
    }
    ok := true;
  }

  /* ---------- Policies ---------- */

  /** The policy of the latest activation. */
  function ActiveAt(events: seq<Envelope>): Option<PolicyDocument> {
    if events == [] then None
    else if events[|events| - 1].body.payload.PolicyActivated? then Some(events[|events| - 1].body.payload.document)
    else ActiveAt(events[..|events| - 1])
  }

  predicate ActivationSound(policies: map<PolicyRef, PolicyRow>, e: EventInput) {
    e.payload.PolicyActivated? ==>
      var d := e.payload.document;
      && e.policy == Some(d.ref) && e.stream == Id("policy." + d.ref.policyId + "." + d.ref.version)
      && (d.ref in policies ==> policies[d.ref].digest == PolicyDigest(d))
  }

  predicate DecisionTimely(active: Option<PolicyDocument>, e: EventInput) {
    e.payload.DecisionRecorded? ==>
      var d := e.payload.decision;
      && d.candidateId == e.stream && e.policy == Some(d.policy)
      && active.Some? && d.policy == active.value.ref && d.policyDigest == PolicyDigest(active.value)
  }

  ghost predicate ActivationsSigned(events: seq<Envelope>) {
    forall i :: 0 <= i < |events| ==> ActivationSound(PoliciesOf(events[..i]), events[i].body)
  }

  /** Each decision names the policy active at its place in the log. */
  ghost predicate DecisionsTimely(events: seq<Envelope>) {
    forall i :: 0 <= i < |events| ==> DecisionTimely(ActiveAt(events[..i]), events[i].body)
  }

  ghost predicate PolicyAgrees(events: seq<Envelope>, rows: map<PolicyRef, PolicyRow>) {
    ActivationsSigned(events) && DecisionsTimely(events) && rows == PoliciesOf(events)
  }

  lemma PoliciesNext(events: seq<Envelope>, i: nat)
    requires i < |events|
    ensures PoliciesOf(events[..i + 1]) == PolicyStep(PoliciesOf(events[..i]), events[i].body)
    ensures ActiveAt(events[..i + 1]) ==
            if events[i].body.payload.PolicyActivated? then Some(events[i].body.payload.document) else ActiveAt(events[..i])
  {
    assert events[..i + 1][..i] == events[..i];
  }

  /** The active row is the row of the latest activation, and there is exactly one once any activation exists. */
  lemma {:induction false} ActiveRow(events: seq<Envelope>)
    ensures forall r :: r in PoliciesOf(events) ==>
              && PoliciesOf(events)[r].document.ref == r && PoliciesOf(events)[r].digest == PolicyDigest(PoliciesOf(events)[r].document)
              && (PoliciesOf(events)[r].active <==> ActiveAt(events).Some? && ActiveAt(events).value.ref == r)
              && (PoliciesOf(events)[r].active ==> PoliciesOf(events)[r].document == ActiveAt(events).value)
    ensures ActiveAt(events).Some? ==> ActiveAt(events).value.ref in PoliciesOf(events)
  {
    if events != [] {
      ActiveRow(events[..|events| - 1]);
    }
  }

  datatype Activation = Activation(sequence: nat, ref: PolicyRef)

  /** The dictionary of activations, all inactive, and the activation with the greatest sequence number. */
  method CollectActivations(events: seq<Envelope>)
    returns (failure: Option<Failure>, expected: map<PolicyRef, PolicyRow>, latest: Option<Activation>)
    requires Contiguous(events)
    ensures failure.None? <==> ActivationsSigned(events)
    ensures failure.Some? ==> CheckOf(failure.value.kind) == PolicyCheck
    ensures failure.None? ==> expected == Deactivated(PoliciesOf(events))
    ensures failure.None? ==> (latest.Some? <==> ActiveAt(events).Some?)
    ensures failure.None? && latest.Some? ==> latest.value.ref == ActiveAt(events).value.ref
  {
    hide PoliciesOf, ActiveAt;
    expected, latest := map[], None;
    assert PoliciesOf([]) == map[] && ActiveAt([]) == None by { NoPolicies(); }
    for i := 0 to |events|
      invariant expected == Deactivated(PoliciesOf(events[..i]))
      invariant forall k :: 0 <= k < i ==> ActivationSound(PoliciesOf(events[..k]), events[k].body)
      invariant latest.Some? <==> ActiveAt(events[..i]).Some?
      invariant latest.Some? ==> latest.value.sequence <= i && latest.value.ref == ActiveAt(events[..i]).value.ref
    {
      var e := events[i].body;
      PoliciesNext(events, i);
      if e.payload.PolicyActivated? {
        var d := e.payload.document;
        if e.policy != Some(d.ref) || e.stream != Id("policy." + d.ref.policyId + "." + d.ref.version) {
          return Some(Failure(PolicyActivationIdentityMismatch, Some(e.eventId))), expected, latest;
        }
        if d.ref in expected && expected[d.ref].digest != PolicyDigest(d) {
          return Some(Failure(PolicyVersionReused, Some(e.eventId))), expected, latest;
        }
        expected := expected[d.ref := PolicyRow(d, PolicyDigest(d), e.eventId, false)];
        if latest.None? || latest.value.sequence < events[i].sequence {
          latest := Some(Activation(events[i].sequence, d.ref));
        }
      }
    }
    assert events[..|events|] == events;
    failure := None;
  }

  lemma NoPolicies()
    ensures PoliciesOf([]) == map[] && ActiveAt([]) == None
  {
  }

  method CheckDecisions(events: seq<Envelope>) returns (failure: Option<Failure>)
    ensures failure.None? <==> DecisionsTimely(events)
    ensures failure.Some? ==> failure.value.kind == PolicyDecisionActivationMismatch
  {
    hide ActiveAt;
    var active: Option<PolicyDocument> := None;
    assert ActiveAt([]) == None by { NoPolicies(); }
    for i := 0 to |events|
      invariant active == ActiveAt(events[..i])
      invariant forall k :: 0 <= k < i ==> DecisionTimely(ActiveAt(events[..k]), events[k].body)
    {
      var e := events[i].body;
      PoliciesNext(events, i);
      if e.payload.PolicyActivated? {
        active := Some(e.payload.document);
      } else if e.payload.DecisionRecorded? {
        var d := e.payload.decision;
        if d.candidateId != e.stream || e.policy != Some(d.policy) || active.None?
           || d.policy != active.value.ref || d.policyDigest != PolicyDigest(active.value) {
          return Some(Failure(PolicyDecisionActivationMismatch, Some(e.eventId)));
        }
      }
    }
    failure := None;
  }

  /** Setting the latest activation's row active turns the dictionary into the projected table. */
  lemma ActivatingLatest(events: seq<Envelope>)
    ensures ActiveAt(events).None? ==> PoliciesOf(events) == Deactivated(PoliciesOf(events))
    ensures ActiveAt(events).Some? ==>
              var ref := ActiveAt(events).value.ref;
              && ref in PoliciesOf(events)
              && PoliciesOf(events) == Deactivated(PoliciesOf(events))[ref := PoliciesOf(events)[ref].(active := true)]
  {
    ActiveRow(events);
  }

  method VerifyPolicyProjection(events: seq<Envelope>, rows: map<PolicyRef, PolicyRow>) returns (failure: Option<Failure>)
    requires Contiguous(events)
    ensures failure.None? <==> PolicyAgrees(events, rows)
    ensures failure.Some? ==> CheckOf(failure.value.kind) == PolicyCheck
    ensures failure.Some? && ActivationsSigned(events) ==>
              (failure.value.kind == PolicyDecisionActivationMismatch <==> !DecisionsTimely(events))
  {
    hide PoliciesOf, ActiveAt, ActivationsSigned, DecisionsTimely;
    var expected, latest;
    failure, expected, latest := CollectActivations(events);
    if failure.Some? { return; }
    failure := CheckDecisions(events);
    if failure.Some? { return; }
    ActivatingLatest(events);
    if latest.Some? {
      expected := expected[latest.value.ref := expected[latest.value.ref].(active := true)];
    }
    var same := SameRows(expected, rows);
    if !same {
      failure := Some(Failure(PolicyProjectionDrift, None));
    }
  }

  /** Key sets first, then each row. */
  method SameRows<K(==), V(==)>(expected: map<K, V>, observed: map<K, V>) returns (ok: bool)
    ensures ok <==> expected == observed
  {
    if expected.Keys != observed.Keys {
      return false;
    }
    var rest := expected.Keys;
    while rest != {}
      invariant rest <= expected.Keys
      invariant forall k <- expected.Keys - rest :: expected[k] == observed[k]
      decreases rest
    {
      var k :| k in rest;
      if expected[k] != observed[k] {
        return false;
      }
      rest := rest - {k};
    }
    ok := true;
  }

  /* ---------- Terminal queue rows ---------- */

  function FailuresOf(events: seq<Envelope>): map<Id, Envelope> {
    if events == [] then map[]
    else
      var e := events[|events| - 1];
      var init := FailuresOf(events[..|events| - 1]);
      if e.body.payload.EvaluationFailed? then init[e.body.payload.failedId := e] else init
  }

  predicate FailureSound(captures: map<Id, EvidenceRow>, failures: map<Id, Envelope>, e: EventInput) {
    e.payload.EvaluationFailed? ==>
      && e.payload.attempts >= 1 && e.payload.contentPurged && e.payload.failedId !in failures
      && e.payload.failedId in captures && e.stream == e.payload.failedId
      && WorkIdentity(captures[e.payload.failedId].record, e)
  }

  ghost predicate FailuresSigned(events: seq<Envelope>) {
    forall i :: 0 <= i < |events| ==> FailureSound(CapturesOf(events[..i]), FailuresOf(events[..i]), events[i].body)
  }

  function FailedIds(queue: map<Id, QueueRow>): set<Id> {
    set id | id in queue && queue[id].phase.Failed?
  }

  predicate FailedRowMatches(row: QueueRow, e: EventInput, record: EvidenceRecord)
    requires row.phase.Failed? && e.payload.EvaluationFailed?
  {
    && row.digest == record.sanitizedDigest && row.enqueuedAt == record.capturedAt
    && row.attempts == e.payload.attempts && row.lastError == Some(e.payload.error)
    && row.nextAttemptAt == row.phase.failedAt == e.occurredAt
    && row.phase.terminalEventId == e.eventId
  }

  lemma {:induction false} FailuresTyped(events: seq<Envelope>)
    ensures forall id <- FailuresOf(events) ::
              FailuresOf(events)[id].body.payload.EvaluationFailed? && FailuresOf(events)[id].body.payload.failedId == id
    ensures FailuresSigned(events) ==> FailuresOf(events).Keys <= CapturesOf(events).Keys
  {
    if events != [] {
      var last := |events| - 1;
      FailuresTyped(events[..last]);
      hide CaptureIdentity, WorkIdentity, EvidenceStep;
      assert CapturesOf(events) == EvidenceStep(CapturesOf(events[..last]), events[last].body);
      StepGrows(CapturesOf(events[..last]), events[last].body);
      if FailuresSigned(events) {
        assert forall i :: 0 <= i < last ==> events[..last][..i] == events[..i];
        assert events[..last] == events[..last];
        assert FailuresSigned(events[..last]);
        assert FailureSound(CapturesOf(events[..last]), FailuresOf(events[..last]), events[last].body);
      }
    }
  }

  lemma StepGrows(rows: map<Id, EvidenceRow>, e: EventInput)
    ensures rows.Keys <= EvidenceStep(rows, e).Keys
  {
  }

  ghost predicate QueueAgrees(events: seq<Envelope>, queue: map<Id, QueueRow>) {
    FailuresTyped(events);
    && FailuresSigned(events)
    && FailedIds(queue) == FailuresOf(events).Keys
    && forall id <- FailuresOf(events).Keys ::
         FailedRowMatches(queue[id], FailuresOf(events)[id].body, CapturesOf(events)[id].record)
  }

  lemma FailuresNext(events: seq<Envelope>, i: nat)
    requires i < |events|
    ensures FailuresOf(events[..i + 1]) ==
            if events[i].body.payload.EvaluationFailed?
            then FailuresOf(events[..i])[events[i].body.payload.failedId := events[i]] else FailuresOf(events[..i])
  {
    assert events[..i + 1][..i] == events[..i];
  }

  method CollectFailures(events: seq<Envelope>)
    returns (failure: Option<Failure>, captures: map<Id, EvidenceRow>, failures: map<Id, Envelope>)
    ensures failure.None? <==> FailuresSigned(events)
    ensures failure.Some? ==> CheckOf(failure.value.kind) == QueueCheck
    ensures failure.None? ==> captures == CapturesOf(events) && failures == FailuresOf(events)
  {
    hide CapturesOf, FailuresOf, WorkIdentity;
    captures, failures := map[], map[];
    assert CapturesOf([]) == map[] && FailuresOf([]) == map[] by { NoCaptures(); NoFailures(); }
    for i := 0 to |events|
      invariant captures == CapturesOf(events[..i]) && failures == FailuresOf(events[..i])
      invariant forall k :: 0 <= k < i ==> FailureSound(CapturesOf(events[..k]), FailuresOf(events[..k]), events[k].body)
    {
      var e := events[i].body;
      CapturesNext(events, i);
      FailuresNext(events, i);
      if e.payload.EvidenceCaptured? {
        captures := captures[e.payload.record.evidenceId := EvidenceRow(e.payload.record, None, e.eventId)];
      } else if e.payload.EvaluationFailed? {
        var id := e.payload.failedId;
        if e.payload.attempts < 1 || !e.payload.contentPurged || id in failures {
          return Some(Failure(QueueFailurePayloadInvalid, Some(e.eventId))), captures, failures;
        }
        if id !in captures || e.stream != id || !WorkIdentity(captures[id].record, e) {
          return Some(Failure(QueueFailureIdentityMismatch, Some(e.eventId))), captures, failures;
        }
        failures := failures[id := events[i]];
      }
    }
    assert events[..|events|] == events;
    failure := None;
  }

  lemma NoFailures()
    ensures FailuresOf([]) == map[]
  {
  }

  method VerifyTerminalQueue(events: seq<Envelope>, queue: map<Id, QueueRow>) returns (failure: Option<Failure>)
    ensures failure.None? <==> QueueAgrees(events, queue)
    ensures failure.Some? ==> CheckOf(failure.value.kind) == QueueCheck
  {
    hide CapturesOf, FailuresOf, FailuresSigned, FailedRowMatches;
    var captures, failures;
    failure, captures, failures := CollectFailures(events);
    if failure.Some? { return; }
    FailuresTyped(events);
    if FailedIds(queue) != failures.Keys {
      return Some(Failure(QueueFailureProjectionDrift, None));
    }
    var rest := failures.Keys;
    while rest != {}
      invariant rest <= failures.Keys
      invariant forall id <- failures.Keys - rest :: FailedRowMatches(queue[id], failures[id].body, captures[id].record)
      decreases rest
    {
      var id :| id in rest;
      if !FailedRowMatches(queue[id], failures[id].body, captures[id].record) {
        return Some(Failure(QueueFailureProjectionDrift, Some(failures[id].body.eventId)));
      }
      rest := rest - {id};
    }
  }

  /* ---------- Candidate detail tables ---------- */

  /** The identity of a candidate-detail event is its stream, and its row's key is new. */
  predicate DetailSound(t: Tables, e: EventInput) {
    && (e.payload.CandidateCreated? ==>
          e.payload.candidate.candidateId == e.stream && e.payload.candidate.candidateId !in t.candidates)
    && (e.payload.VerdictRecorded? ==> e.payload.result.candidateId == e.stream && e.payload.result.resultId !in t.verdicts)
    && (e.payload.AssessmentRecorded? ==>
          e.payload.assessment.candidateId == e.stream && e.payload.assessment.assessmentId !in t.assessments)
    && (e.payload.DecisionRecorded? ==>
          e.payload.decision.candidateId == e.stream && e.payload.decision.decisionId !in t.decisions)
  }

  ghost predicate DetailsSigned(events: seq<Envelope>) {
    forall i :: 0 <= i < |events| ==> DetailSound(Fold(EMPTY_TABLES, events[..i]), events[i].body)
  }

  ghost predicate DetailsAgree(events: seq<Envelope>, t: Tables) {
    var signed := Fold(EMPTY_TABLES, events);
    && DetailsSigned(events)
    && t.candidates == signed.candidates && t.verdicts == signed.verdicts
    && t.assessments == signed.assessments && t.decisions == signed.decisions
  }

  lemma DetailNext(events: seq<Envelope>, i: nat)
    requires i < |events|
    ensures var before, after := Fold(EMPTY_TABLES, events[..i]), Fold(EMPTY_TABLES, events[..i + 1]);
            && after.candidates == CandidateStep(before.candidates, events[i].body)
            && after.verdicts == VerdictStep(before.verdicts, events[i].body)
            && after.assessments == AssessmentStep(before.assessments, events[i].body)
            && after.decisions == DecisionStep(before.decisions, events[i].body)
  {
    hide CandidateStep, VerdictStep, AssessmentStep, DecisionStep, EvidenceStep, PolicyStep, ReplayStep;
    assert events[..i + 1][..i] == events[..i];
  }

  method CollectDetails(events: seq<Envelope>)
    returns (failure: Option<Failure>, candidates: map<Id, CandidateRow>, verdicts: map<Id, VerdictRow>,
             assessments: map<Id, AssessmentRow>, decisions: map<Id, DecisionRow>)
    ensures failure.None? <==> DetailsSigned(events)
    ensures failure.Some? ==> failure.value.kind == AuxiliaryEventIdentityMismatch
    ensures failure.None? ==>
              var signed := Fold(EMPTY_TABLES, events);
              && candidates == signed.candidates && verdicts == signed.verdicts
              && assessments == signed.assessments && decisions == signed.decisions
  {
    hide Fold, CandidateStep, VerdictStep, AssessmentStep, DecisionStep;
    candidates, verdicts, assessments, decisions := map[], map[], map[], map[];
    assert Fold(EMPTY_TABLES, []) == EMPTY_TABLES by { EmptyFold(); }
    for i := 0 to |events|
      invariant var signed := Fold(EMPTY_TABLES, events[..i]);
                && candidates == signed.candidates && verdicts == signed.verdicts
                && assessments == signed.assessments && decisions == signed.decisions
      invariant forall k :: 0 <= k < i ==> DetailSound(Fold(EMPTY_TABLES, events[..k]), events[k].body)
    {
      DetailNext(events, i);
      var e := events[i].body;
      var sound := CheckDetail(e, candidates, verdicts, assessments, decisions, Fold(EMPTY_TABLES, events[..i]));
      if !sound {
        return Some(Failure(AuxiliaryEventIdentityMismatch, Some(e.eventId))), candidates, verdicts, assessments, decisions;
      }
      candidates, verdicts := CandidateStep(candidates, e), VerdictStep(verdicts, e);
      assessments, decisions := AssessmentStep(assessments, e), DecisionStep(decisions, e);
    }
    assert events[..|events|] == events;
    failure := None;
  }

  lemma EmptyFold()
    ensures Fold(EMPTY_TABLES, []) == EMPTY_TABLES
  {
  }

  method CheckDetail(e: EventInput, candidates: map<Id, CandidateRow>, verdicts: map<Id, VerdictRow>,
                     assessments: map<Id, AssessmentRow>, decisions: map<Id, DecisionRow>, ghost signed: Tables) returns (ok: bool)
    requires candidates == signed.candidates && verdicts == signed.verdicts
    requires assessments == signed.assessments && decisions == signed.decisions
    ensures ok <==> DetailSound(signed, e)
  {
    match e.payload {
      case CandidateCreated(c) => ok := c.candidateId == e.stream && c.candidateId !in candidates;
      case VerdictRecorded(r) => ok := r.candidateId == e.stream && r.resultId !in verdicts;
      case AssessmentRecorded(a) => ok := a.candidateId == e.stream && a.assessmentId !in assessments;
      case DecisionRecorded(d) => ok := d.candidateId == e.stream && d.decisionId !in decisions;
      case _ => ok := true;
    }
  }

  method VerifyAuxiliaryProjections(events: seq<Envelope>, t: Tables) returns (failure: Option<Failure>)
    ensures failure.None? <==> DetailsAgree(events, t)
    ensures failure.Some? ==>
              failure.value.kind == if DetailsSigned(events) then AuxiliaryProjectionDrift else AuxiliaryEventIdentityMismatch
  {
    hide Fold, DetailsSigned;
    var candidates, verdicts, assessments, decisions;
    failure, candidates, verdicts, assessments, decisions := CollectDetails(events);
    if failure.Some? { return; }
    var sameCandidates := SameRows(candidates, t.candidates);
    var sameVerdicts := SameRows(verdicts, t.verdicts);
    var sameAssessments := SameRows(assessments, t.assessments);
    var sameDecisions := SameRows(decisions, t.decisions);
    if !sameCandidates || !sameVerdicts || !sameAssessments || !sameDecisions {
      failure := Some(Failure(AuxiliaryProjectionDrift, None));
    }
  }

  /* ---------- All projections ---------- */

  ghost predicate ProjectionsAgree(events: seq<Envelope>, t: Tables, queue: map<Id, QueueRow>) {
    && EvidenceAgrees(events, t.evidence)
    && QueueAgrees(events, queue)
    && PolicyAgrees(events, t.policies)
    && DetailsAgree(events, t)
    && t.view == ReplayLog(events)
  }

  /** What the log alone decides, and the tables that no reader may do without. */
  ghost predicate SignedAgrees(events: seq<Envelope>, t: Tables, queue: map<Id, QueueRow>) {
    EvidenceAgrees(events, t.evidence) && QueueAgrees(events, queue) && PolicyAgrees(events, t.policies) && DetailsSigned(events)
  }

  /** The failures after which the signed history may still be read. */
  predicate DriftOnly(k: FailureClass) {
    k.AuxiliaryProjectionDrift? || k.MaterializedViewDrift?
  }

  /** The first check that fails, in the verifier's order. */
  ghost function FirstFailing(events: seq<Envelope>, t: Tables, queue: map<Id, QueueRow>): Option<Check> {
    if !EvidenceAgrees(events, t.evidence) then Some(EvidenceCheck)
    else if !QueueAgrees(events, queue) then Some(QueueCheck)
    else if !PolicyAgrees(events, t.policies) then Some(PolicyCheck)
    else if !DetailsAgree(events, t) then Some(DetailCheck)
    else if t.view != ReplayLog(events) then Some(ViewCheck)
    else None
  }

  /** The checks in the order the verifier makes them, on a chain already found valid. */
  method VerifyProjections(events: seq<Envelope>, t: Tables, queue: map<Id, QueueRow>) returns (failure: Option<Failure>)
    requires Contiguous(events)
    ensures failure.None? <==> ProjectionsAgree(events, t, queue)
    ensures failure.Some? ==> FirstFailing(events, t, queue) == Some(CheckOf(failure.value.kind))
    ensures failure.Some? ==> (DriftOnly(failure.value.kind) <==> SignedAgrees(events, t, queue))
  {
    hide EvidenceAgrees, QueueAgrees, PolicyAgrees, DetailsSigned, ReplayLog;
    failure := VerifyEvidenceReferences(events, t.evidence);
    if failure.Some? { return; }
    failure := VerifyTerminalQueue(events, queue);
    if failure.Some? { return; }
    failure := VerifyPolicyProjection(events, t.policies);
    if failure.Some? { return; }
    failure := VerifyAuxiliaryProjections(events, t);
    if failure.Some? { return; }
    var active, inventory, quarantine := ReplayMemoryState(events);
    if t.view != View(active, inventory, quarantine) {
      failure := Some(Failure(MaterializedViewDrift, None));
    }
  }

  /** Nothing slips through: tables that pass hold exactly the fold of the log, protected bytes aside. */
  lemma PassingTablesAreTheFold(events: seq<Envelope>, t: Tables, queue: map<Id, QueueRow>)
    requires ProjectionsAgree(events, t, queue)
    requires forall e <- events :: e.body.payload.EvidenceCaptured? ==> !e.body.payload.record.retention.ProtectedLocal?
    ensures t == Fold(EMPTY_TABLES, events)
  {
    hide CapturesSigned, ActivationsSigned, DecisionsTimely, DetailsSigned, QueueAgrees, ReferencesResolve, CapturesOf, Fold;
    FoldParts(events);
    UnprotectedRows(events);
    assert t.evidence == CapturesOf(events);
  }

  lemma {:induction false} UnprotectedRows(events: seq<Envelope>)
    requires forall e <- events :: e.body.payload.EvidenceCaptured? ==> !e.body.payload.record.retention.ProtectedLocal?
    ensures forall id <- CapturesOf(events) ::
              CapturesOf(events)[id].protectedContent == None && !CapturesOf(events)[id].record.retention.ProtectedLocal?
  {
    if events != [] {
      UnprotectedRows(events[..|events| - 1]);
      assert events[|events| - 1] in events;
    }
  }
}
