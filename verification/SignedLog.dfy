/** What every event in the log carries, whatever operation appended it: its identity columns
    repeat its payload and every evidence reference resolves to an earlier capture. */
module SignedLog {
  import opened Domain
  import opened Replay
  import opened Projection
  import opened Ledger

  /* ---------- The dictionaries the verifier builds from the log, one per table ---------- */

  function CapturesOf(log: seq<Envelope>): map<Id, EvidenceRow> {
    if log == [] then map[] else EvidenceStep(CapturesOf(log[..|log| - 1]), log[|log| - 1].body)
  }

  function CandidatesOf(log: seq<Envelope>): map<Id, CandidateRow> {
    if log == [] then map[] else CandidateStep(CandidatesOf(log[..|log| - 1]), log[|log| - 1].body)
  }

  function VerdictsOf(log: seq<Envelope>): map<Id, VerdictRow> {
    if log == [] then map[] else VerdictStep(VerdictsOf(log[..|log| - 1]), log[|log| - 1].body)
  }

  function AssessmentsOf(log: seq<Envelope>): map<Id, AssessmentRow> {
    if log == [] then map[] else AssessmentStep(AssessmentsOf(log[..|log| - 1]), log[|log| - 1].body)
  }

  function DecisionsOf(log: seq<Envelope>): map<Id, DecisionRow> {
    if log == [] then map[] else DecisionStep(DecisionsOf(log[..|log| - 1]), log[|log| - 1].body)
  }

  function PoliciesOf(log: seq<Envelope>): map<PolicyRef, PolicyRow> {
    if log == [] then map[] else PolicyStep(PoliciesOf(log[..|log| - 1]), log[|log| - 1].body)
  }

  /** The fold of the log is these dictionaries and the replayed view. */
  lemma {:induction false} FoldParts(log: seq<Envelope>)
    ensures Fold(EMPTY_TABLES, log) ==
            Tables(CapturesOf(log), CandidatesOf(log), VerdictsOf(log), AssessmentsOf(log), DecisionsOf(log), PoliciesOf(log), ReplayLog(log))
  {
    hide EvidenceStep, CandidateStep, VerdictStep, AssessmentStep, DecisionStep, PolicyStep, ReplayStep;
    if log != [] {
      FoldParts(log[..|log| - 1]);
    }
  }

  /* ---------- The identity rules of one event ---------- */

  predicate Resolves(rows: map<Id, EvidenceRow>, r: EvidenceRef) {
    r.evidenceId in rows && rows[r.evidenceId].record.contentDigest == r.digest
  }

  predicate CaptureIdentity(r: EvidenceRecord, e: EventInput) {
    && e.stream == r.evidenceId && e.sessionId == Some(r.sessionId) && e.taskId == r.taskId && e.source == Some(r.source)
    && e.occurredAt == r.capturedAt && e.refs == [EvidenceRef(r.evidenceId, r.contentDigest)]
  }

  /** An event about one piece of evidence repeats the capture's identity. */
  predicate WorkIdentity(r: EvidenceRecord, e: EventInput) {
    && e.stream == r.evidenceId && e.sessionId == Some(r.sessionId) && e.taskId == r.taskId && e.source == Some(r.source)
    && e.refs == [EvidenceRef(r.evidenceId, r.contentDigest)]
  }

  /** A candidate comes from one captured evidence record and repeats its provenance. */
  predicate SourcedFrom(rows: map<Id, EvidenceRow>, c: Candidate) {
    && c.refs != []
    && c.refs[0].evidenceId in rows
    && var record := rows[c.refs[0].evidenceId].record;
       && c.sessionId == record.sessionId && c.taskId == record.taskId && c.source == record.source
       && forall r <- c.refs :: r == EvidenceRef(c.refs[0].evidenceId, record.contentDigest)
  }

  predicate CandidateIdentity(c: Candidate, e: EventInput) {
    && e.stream == c.candidateId && e.sessionId == Some(c.sessionId) && e.taskId == c.taskId && e.source == Some(c.source)
    && e.refs == c.refs
  }

  predicate Signed(rows: map<Id, EvidenceRow>, e: EventInput) {
    && (forall r <- e.refs :: Resolves(EvidenceStep(rows, e), r))
    && (e.payload.EvidenceCaptured? ==>
          CaptureIdentity(e.payload.record, e) && e.payload.record.evidenceId !in rows && e.payload.record.retention == DigestOnly)
    && (e.payload.CandidateCreated? ==> CandidateIdentity(e.payload.candidate, e) && SourcedFrom(rows, e.payload.candidate))
    && (e.payload.VerdictRecorded? ==> e.payload.result.candidateId == e.stream)
    && (e.payload.AssessmentRecorded? ==> e.payload.assessment.candidateId == e.stream)
    && (e.payload.DecisionRecorded? ==> e.payload.decision.candidateId == e.stream && e.policy == Some(e.payload.decision.policy))
    && (e.payload.EvaluationFailed? ==>
          && e.payload.failedId in rows && WorkIdentity(rows[e.payload.failedId].record, e)
          && e.payload.failedId == e.stream && e.payload.attempts >= 1 && e.payload.contentPurged)
    && (e.payload.EvaluationCompleted? ==>
          && e.payload.completedId in rows && WorkIdentity(rows[e.payload.completedId].record, e)
          && e.payload.completedId == e.stream && e.payload.candidateCount == 0)
    && (e.payload.PolicyActivated? ==>
          e.policy == Some(e.payload.document.ref)
          && e.stream == Id("policy." + e.payload.document.ref.policyId + "." + e.payload.document.ref.version))
  }

  ghost predicate SignedAll(log: seq<Envelope>) {
    forall i :: 0 <= i < |log| ==> Signed(CapturesOf(log[..i]), log[i].body)
  }

  /** A batch signed against the captures before it, when it captures nothing itself. */
  predicate SignedBatch(rows: map<Id, EvidenceRow>, inputs: seq<EventInput>) {
    forall e <- inputs :: !e.payload.EvidenceCaptured? && Signed(rows, e)
  }

  lemma {:induction false} QuietCaptures(log: seq<Envelope>, es: seq<Envelope>)
    requires forall e <- es :: !e.body.payload.EvidenceCaptured?
    ensures CapturesOf(log + es) == CapturesOf(log)
  {
    hide Signed;
    if es == [] {
      assert log + es == log;
    } else {
      var init := es[..|es| - 1];
      QuietCaptures(log, init);
      assert (log + es)[..|log + es| - 1] == log + init;
      assert es[|es| - 1] in es;
    }
  }

  lemma {:induction false} BatchSigned(log: seq<Envelope>, inputs: seq<EventInput>)
    requires SignedAll(log) && SignedBatch(CapturesOf(log), inputs)
    ensures SignedAll(log + Stamp(inputs, |log|))
  {
    hide CapturesOf, Signed;
    var es := Stamp(inputs, |log|);
    var log' := log + es;
    forall i | 0 <= i < |log'|
      ensures Signed(CapturesOf(log'[..i]), log'[i].body)
    {
      if i < |log| {
        assert log'[..i] == log[..i];
      } else {
        var k := i - |log|;
        assert log'[..i] == log + es[..k];
        assert forall e <- es[..k] :: e.body in inputs;
        QuietCaptures(log, es[..k]);
        assert log'[i].body == inputs[k];
      }
    }
  }

  lemma {:induction false} CaptureSigned(log: seq<Envelope>, record: EvidenceRecord, eventId: Id, actor: Actor)
    requires SignedAll(log) && record.evidenceId !in CapturesOf(log) && record.retention == DigestOnly
    ensures SignedAll(log + Stamp([CaptureInput(record, eventId, actor)], |log|))
  {
    var log' := log + Stamp([CaptureInput(record, eventId, actor)], |log|);
    forall i | 0 <= i < |log'|
      ensures Signed(CapturesOf(log'[..i]), log'[i].body)
    {
      assert log'[..i] == log[..i];
      if i == |log| {
        assert log[..i] == log;
      }
    }
  }

  /* ---------- Rows keyed and sourced ---------- */

  ghost predicate RowsKeyed(rows: map<Id, EvidenceRow>) {
    forall id :: id in rows ==> rows[id].record.evidenceId == id && rows[id].protectedContent == None
  }

  ghost predicate CandidatesSourced(candidates: map<Id, CandidateRow>, rows: map<Id, EvidenceRow>) {
    forall c :: c in candidates ==> candidates[c].record.candidateId == c && SourcedFrom(rows, candidates[c].record)
  }

  lemma {:induction false} RowsSound(log: seq<Envelope>)
    requires SignedAll(log)
    ensures RowsKeyed(CapturesOf(log))
    ensures CandidatesSourced(CandidatesOf(log), CapturesOf(log))
  {
    if log != [] {
      var init, e := log[..|log| - 1], log[|log| - 1].body;
      SignedPrefix(log, |log| - 1);
      RowsSound(init);
      SourcesGrow(CandidatesOf(init), CapturesOf(init), e);
    }
  }

  lemma SignedPrefix(log: seq<Envelope>, k: nat)
    requires SignedAll(log) && k <= |log|
    ensures SignedAll(log[..k])
    ensures k < |log| ==> Signed(CapturesOf(log[..k]), log[k].body)
  {
    hide Signed, CapturesOf;
    assert forall i :: 0 <= i < k ==> log[..k][..i] == log[..i];
  }

  lemma {:induction false} CapturesPrefix(log: seq<Envelope>, k: nat, id: Id)
    requires SignedAll(log) && k <= |log| && id in CapturesOf(log[..k])
    ensures id in CapturesOf(log) && CapturesOf(log)[id] == CapturesOf(log[..k])[id]
  {
    hide Signed, SignedAll, EvidenceStep;
    if k == |log| {
      assert log[..k] == log;
    } else {
      var init := log[..|log| - 1];
      assert log[..k] == init[..k];
      SignedPrefix(log, |log| - 1);
      CapturesPrefix(init, k, id);
      EvidenceStays(CapturesOf(init), log[|log| - 1].body, id);
    }
  }

  lemma EvidenceStays(rows: map<Id, EvidenceRow>, e: EventInput, id: Id)
    requires Signed(rows, e) && id in rows
    ensures id in EvidenceStep(rows, e) && EvidenceStep(rows, e)[id] == rows[id]
  {
  }

  lemma SourcesGrow(candidates: map<Id, CandidateRow>, rows: map<Id, EvidenceRow>, e: EventInput)
    requires CandidatesSourced(candidates, rows) && Signed(rows, e)
    ensures CandidatesSourced(CandidateStep(candidates, e), EvidenceStep(rows, e))
  {
  }

  /* ---------- Every operation signs such events ---------- */

  lemma PlanSigned(rows: map<Id, EvidenceRow>, p: Plan, evidenceId: Id)
    requires evidenceId in rows && rows[evidenceId].record.evidenceId == evidenceId && PlanFor(p, rows[evidenceId].record)
    ensures SignedBatch(rows, PlanInputs(p))
  {
    assert p.candidate.refs[0] in p.candidate.refs;
    forall e | e in PlanInputs(p)
      ensures !e.payload.EvidenceCaptured? && Signed(rows, e)
    {
      assert e.refs == p.candidate.refs && e.stream == p.candidate.candidateId;
      assert e.policy == Some(p.decision.policy);
      assert forall r <- e.refs :: Resolves(rows, r);
    }
  }

  lemma {:induction false} PlansSigned(rows: map<Id, EvidenceRow>, plans: seq<Plan>, evidenceId: Id)
    requires evidenceId in rows && rows[evidenceId].record.evidenceId == evidenceId
    requires forall p <- plans :: PlanFor(p, rows[evidenceId].record)
    ensures SignedBatch(rows, PlansInputs(plans))
  {
    hide PlanFor, PlanInputs, Signed;
    if plans != [] {
      PlansSigned(rows, plans[..|plans| - 1], evidenceId);
      PlanSigned(rows, plans[|plans| - 1], evidenceId);
    }
  }

  lemma RescanSigned(rows: map<Id, EvidenceRow>, p: RescanPlan, original: Candidate)
    requires SourcedFrom(rows, original) && PreparedFrom(original, p.candidate)
    requires ResultsFor(p.candidate, p.verdicts, p.semantic, p.decision)
    ensures SignedBatch(rows, RescanInputs(p))
  {
    assert SourcedFrom(rows, p.candidate);
    forall e | e in RescanInputs(p)
      ensures !e.payload.EvidenceCaptured? && Signed(rows, e)
    {
      assert e.refs == p.candidate.refs && e.stream == p.candidate.candidateId;
      assert e.policy == Some(p.decision.policy);
      assert forall r <- e.refs :: Resolves(rows, r);
    }
  }

  /** What every run keeps about its log: signed identities, acceptable keys, no gaps. */
  ghost predicate LogInv(s: State) {
    SignedAll(s.log) && InsertableAll(EMPTY_TABLES, s.log) && Contiguous(s.log) && DistinctEvents(s.log)
  }

  predicate DistinctEvents(log: seq<Envelope>) {
    forall i, j :: 0 <= i < j < |log| ==> log[i].body.eventId != log[j].body.eventId
  }

  lemma FreshStaysDistinct(log: seq<Envelope>, inputs: seq<EventInput>)
    requires DistinctEvents(log) && FreshEvents(log, inputs)
    ensures DistinctEvents(log + Stamp(inputs, |log|))
  {
    var log' := log + Stamp(inputs, |log|);
    forall i, j | 0 <= i < j < |log'|
      ensures log'[i].body.eventId != log'[j].body.eventId
    {
      assert j >= |log| ==> log'[j].body == inputs[j - |log|];
      assert i >= |log| ==> log'[i].body == inputs[i - |log|];
    }
  }

  lemma LogRows(s: State)
    requires LogInv(s)
    ensures TablesOf(s).evidence == CapturesOf(s.log) && TablesOf(s).candidates == CandidatesOf(s.log)
    ensures RowsKeyed(CapturesOf(s.log)) && CandidatesSourced(CandidatesOf(s.log), CapturesOf(s.log))
  {
    FoldParts(s.log);
    RowsSound(s.log);
  }

  lemma EvaluationSigned(s: State, limits: Limits, c: Command)
    requires LogInv(s) && Offered(s, c) && c.Evaluate?
    ensures SignedBatch(CapturesOf(s.log), Inputs(s, limits, c))
  {
    LogRows(s);
    hide TablesOf, SignedAll, LogInv, PlanFor, Fold, PlansInputs;
    PlansSigned(CapturesOf(s.log), c.plans, c.evidenceId);
  }

  predicate Unreferenced(p: Payload) {
    p.MemoryApproved? || p.OperatorBlocked? || p.MemoryRevoked? || p.MemoryExpired? || p.PolicyRejected?
  }

  lemma UnreferencedSigned(rows: map<Id, EvidenceRow>, inputs: seq<EventInput>)
    requires forall e <- inputs :: e.refs == [] && Unreferenced(e.payload)
    ensures SignedBatch(rows, inputs)
  {
    hide CaptureIdentity, CandidateIdentity, SourcedFrom, WorkIdentity, EvidenceStep;
  }

  lemma WorkerSigned(s: State, limits: Limits, c: Command)
    requires LogInv(s) && Offered(s, c) && (c.Complete? || c.Fail?)
    ensures SignedBatch(CapturesOf(s.log), Inputs(s, limits, c))
  {
    LogRows(s);
    hide TablesOf, SignedAll, LogInv, EndsRow;
  }

  lemma OperatorInputs(s: State, limits: Limits, c: Command)
    requires Offered(s, c)
    requires c.Approve? || c.BlockCandidate? || c.Revoke? || c.Expire? || c.Reject?
    ensures forall e <- Inputs(s, limits, c) :: e.refs == [] && Unreferenced(e.payload)
  {
    hide TablesOf, Offered;
  }

  lemma SingleSigned(s: State, limits: Limits, c: Command)
    requires LogInv(s) && Offered(s, c) && !c.Capture? && !c.Evaluate? && !c.Rescan?
    ensures SignedBatch(CapturesOf(s.log), Inputs(s, limits, c))
  {
    hide TablesOf, SignedAll, LogInv, EndsRow, Offered;
    if c.Complete? || c.Fail? {
      WorkerSigned(s, limits, c);
    } else if c.Approve? || c.BlockCandidate? || c.Revoke? || c.Expire? || c.Reject? {
      OperatorInputs(s, limits, c);
      UnreferencedSigned(CapturesOf(s.log), Inputs(s, limits, c));
    }
  }

  lemma InputsSigned(s: State, limits: Limits, c: Command)
    requires LogInv(s) && Offered(s, c) && !c.Capture?
    ensures SignedBatch(CapturesOf(s.log), Inputs(s, limits, c))
  {
    hide TablesOf, SignedAll, LogInv, SignedBatch, RescanInputs, PlansInputs;
    if c.Evaluate? {
      EvaluationSigned(s, limits, c);
    } else if c.Rescan? {
      LogRows(s);
      RescanSigned(CapturesOf(s.log), c.rescan, CandidatesOf(s.log)[c.rescan.target.candidateId].record);
    } else {
      SingleSigned(s, limits, c);
    }
  }

  lemma CaptureIsNew(s: State, limits: Limits, c: Command)
    requires Offered(s, c) && Accepted(s, limits, c) && c.Capture?
    ensures c.record.evidenceId !in TablesOf(s).evidence && c.record.retention == DigestOnly
    ensures Inputs(s, limits, c) == [CaptureInput(c.record, c.eventId, c.actor)]
  {
    hide TablesOf;
    var es := Stamp(Inputs(s, limits, c), |s.log|);
    assert es[..0] == [];
    assert Insertable(TablesOf(s), es[0]);
  }

  /** Every step keeps the log signed, whatever the command and whether or not the store took it. */
  lemma StepKeepsLogInv(s: State, limits: Limits, c: Command)
    requires LogInv(s)
    ensures LogInv(Next(s, limits, c))
  {
    hide Offered, Accepted, Inputs, SignedAll, SignedBatch, Fold, InsertableAll, DistinctEvents, FreshEvents, QueueAfter;
    if Offered(s, c) && Accepted(s, limits, c) {
      var inputs := Inputs(s, limits, c);
      StepKeepsKeys(s, limits, c);
      if c.Capture? {
        CaptureIsNew(s, limits, c);
        LogRows(s);
        CaptureSigned(s.log, c.record, c.eventId, c.actor);
      } else {
        InputsSigned(s, limits, c);
        BatchSigned(s.log, inputs);
      }
    }
  }

  lemma StepKeepsKeys(s: State, limits: Limits, c: Command)
    requires LogInv(s) && Offered(s, c) && Accepted(s, limits, c)
    ensures InsertableAll(EMPTY_TABLES, s.log + Stamp(Inputs(s, limits, c), |s.log|))
    ensures DistinctEvents(s.log + Stamp(Inputs(s, limits, c), |s.log|))
  {
    hide Offered, Inputs, SignedAll, DistinctEvents, FreshEvents, Stamp;
    FreshStaysDistinct(s.log, Inputs(s, limits, c));
    FoldConcat(EMPTY_TABLES, s.log, Stamp(Inputs(s, limits, c), |s.log|));
  }

  lemma {:induction false} RunKeepsLogInv(s: State, limits: Limits, cs: seq<Command>)
    requires LogInv(s)
    ensures LogInv(Run(s, limits, cs))
  {
    hide LogInv, Next;
    if cs != [] {
      RunKeepsLogInv(s, limits, cs[..|cs| - 1]);
      StepKeepsLogInv(Run(s, limits, cs[..|cs| - 1]), limits, cs[|cs| - 1]);
    }
  }
}
