/** A concrete run in which the verifier refuses a ledger that the service itself wrote, and the status of queued
    evidence is lost with it: the policy is replaced while the worker evaluates the queue row. */
module StalePolicy {
  import opened Domain
  import opened Replay
  import opened Projection
  import opened Ledger
  import opened Status
  import opened StatusTruth
  import opened Verifier
  import opened NoFalseAlarm
  import opened Database
  import opened EvidenceQuery

  const EVIDENCE := EvidenceRecord(
    Id("evidence"), Id("session"), None, UserInput, None, "", Digest("text"), DigestOnly, 1, Digest("text"))
  const OLD_POLICY := PolicyDocument(PolicyRef("policy", "1"), false, "old")
  const NEW_POLICY := PolicyDocument(PolicyRef("policy", "2"), false, "new")
  const CANDIDATE := Candidate(
    Id("candidate"), Id("session"), None, "notes", "fact", UserInput, "text", [EvidenceRef(Id("evidence"), Digest("text"))],
    Extraction("deterministic"))
  const STALE_PLAN := Plan(
    CANDIDATE, [], None,
    Decision(Id("decision"), Id("candidate"), OLD_POLICY.ref, PolicyDigest(OLD_POLICY), Block, Block, false),
    Id("4"), Id("5"), Id("6"), Id("memory"), 3, None, "", [], "deterministic")

  const FIRST := Activate(OLD_POLICY, Id("1"), 0)
  const SECOND := Capture(EVIDENCE, Id("2"), CodexActor, Some("text"))
  const THIRD := Claim(Id("evidence"))
  const FOURTH := Activate(NEW_POLICY, Id("3"), 2)
  const FIFTH := Evaluate(Id("evidence"), [STALE_PLAN], None, true)

  /** Room for the one queued text. */
  predicate Roomy(limits: Limits) {
    limits.maxItems >= 1 && limits.maxBytes >= 4
  }

  function After(s: State, event: EventInput): State {
    s.(log := s.log + [Envelope(|s.log| + 1, event)])
  }

  const S1 := After(INITIAL, ActivateInput(OLD_POLICY, Id("1"), 0))
  const S2 := After(S1, CaptureInput(EVIDENCE, Id("2"), CodexActor)).(
    queue := map[Id("evidence") := NewRow(EVIDENCE, "text")], enqueued := {Id("evidence")})
  const S3 := S2.(working := Some(Id("evidence")))
  const S4 := After(S3, ActivateInput(NEW_POLICY, Id("3"), 2))

  const POLICY_ROWS := map[
    OLD_POLICY.ref := PolicyRow(OLD_POLICY, PolicyDigest(OLD_POLICY), Id("1"), false),
    NEW_POLICY.ref := PolicyRow(NEW_POLICY, PolicyDigest(NEW_POLICY), Id("3"), true)]

  lemma OldActivated(limits: Limits)
    ensures Next(INITIAL, limits, FIRST) == S1
    ensures TablesOf(S1) == EMPTY_TABLES.(policies := map[OLD_POLICY.ref := PolicyRow(OLD_POLICY, PolicyDigest(OLD_POLICY), Id("1"), true)])
  {
    ActivateTaking(INITIAL, limits, OLD_POLICY, Id("1"), 0);
    CommittedTables(INITIAL, limits, FIRST);
    OneEvent(EMPTY_TABLES, ActivateInput(OLD_POLICY, Id("1"), 0), 0);
    assert Committed(INITIAL, limits, FIRST) == S1;
  }

  lemma TextFits(limits: Limits)
    requires Roomy(limits)
    ensures HasRoom(map[], limits, "text")
  {
    assert PendingIds(map[]) == {};
    assert Utf8Length("text") == 4 by {
      assert "text"[..3] == "tex" && "tex"[..2] == "te" && "te"[..1] == "t" && "t"[..0] == "";
    }
  }

  lemma EvidenceCapturedNext(limits: Limits)
    requires Roomy(limits)
    ensures Next(S1, limits, SECOND) == S2
    ensures TablesOf(S2) == TablesOf(S1).(evidence := map[Id("evidence") := EvidenceRow(EVIDENCE, None, Id("2"))])
  {
    hide TablesOf, Fold, HasRoom;
    TextFits(limits);
    OldActivated(limits);
    CaptureTaking(S1, limits, EVIDENCE, Id("2"), CodexActor, Some("text"));
    CommittedTables(S1, limits, SECOND);
    assert Stamp([CaptureInput(EVIDENCE, Id("2"), CodexActor)], 1) == [Envelope(2, CaptureInput(EVIDENCE, Id("2"), CodexActor))];
    assert S1.log[0].body.eventId == Id("1");
    assert Committed(S1, limits, SECOND) == S2;
  }

  lemma EvidenceClaimed(limits: Limits)
    ensures Next(S2, limits, THIRD) == S3
  {
    hide TablesOf, Fold;
    EmptyBatch(TablesOf(S2), S2.log);
    assert Committed(S2, limits, THIRD) == S3;
  }

  lemma NewTaken(limits: Limits)
    requires NEW_POLICY.ref !in TablesOf(S3).policies
    ensures Next(S3, limits, FOURTH) == S4
    ensures TablesOf(S4) == TablesOf(S3).(policies :=
              Deactivated(TablesOf(S3).policies)[NEW_POLICY.ref := PolicyRow(NEW_POLICY, PolicyDigest(NEW_POLICY), Id("3"), true)])
  {
    hide TablesOf, Fold, Deactivated;
    ActivateTaking(S3, limits, NEW_POLICY, Id("3"), 2);
    CommittedTables(S3, limits, FOURTH);
    assert Stamp([ActivateInput(NEW_POLICY, Id("3"), 2)], 2) == [Envelope(3, ActivateInput(NEW_POLICY, Id("3"), 2))];
    assert S3.log[0].body.eventId == Id("1") && S3.log[1].body.eventId == Id("2");
    assert Committed(S3, limits, FOURTH) == S4;
  }

  lemma SameTables()
    ensures TablesOf(S3) == TablesOf(S2)
  {
    hide Fold;
  }

  lemma NewActivated(limits: Limits)
    requires Roomy(limits)
    ensures Next(S3, limits, FOURTH) == S4
    ensures TablesOf(S4) == EMPTY_TABLES.(evidence := map[Id("evidence") := EvidenceRow(EVIDENCE, None, Id("2"))], policies := POLICY_ROWS)
  {
    hide TablesOf, Next, S2, S3, S4;
    OldActivated(limits);
    EvidenceCapturedNext(limits);
    SameTables();
    NewTaken(limits);
  }

  lemma StalePlanFits()
    ensures PlanFor(STALE_PLAN, EVIDENCE)
  {
  }

  lemma StaleOffered(limits: Limits)
    requires Roomy(limits)
    ensures Offered(S4, FIFTH) && !Timely(S4, FIFTH)
  {
    hide TablesOf, PlanFor, STALE_PLAN;
    NewActivated(limits);
    StalePlanFits();
    assert STALE_PLAN in [STALE_PLAN];
    StaleDecision();
  }

  lemma StaleDecision()
    ensures STALE_PLAN.decision.policy == OLD_POLICY.ref && !POLICY_ROWS[OLD_POLICY.ref].active
  {
  }

  function StaleInput(k: nat): EventInput
    requires k < 3
  {
    if k == 0 then PlanInput(STALE_PLAN, Id("4"), CandidateCreated(CANDIDATE))
    else if k == 1 then PlanInput(STALE_PLAN, Id("5"), DecisionRecorded(STALE_PLAN.decision))
    else PlanInput(STALE_PLAN, Id("6"), MemoryBlocked(PlanOutcome(STALE_PLAN)))
  }

  lemma StaleInputs()
    ensures EvaluationInputs([STALE_PLAN], None) == PlansInputs([STALE_PLAN]) == [StaleInput(0), StaleInput(1), StaleInput(2)]
  {
    assert [STALE_PLAN][..0] == [];
  }

  lemma StaleInserts(t: Tables)
    requires Id("candidate") !in t.candidates && Id("decision") !in t.decisions
    ensures InsertableAll(t, Stamp([StaleInput(0), StaleInput(1), StaleInput(2)], 3))
  {
    var es := Stamp([StaleInput(0), StaleInput(1), StaleInput(2)], 3);
    StaleStep(t, es[0], es[1]);
    hide Insertable, FoldStep, StaleInput;
    assert es[..0] == [] && es[..3] == es;
    FoldNone(t);
    FoldNext(t, es, 0);
    FoldNext(t, es, 1);
    FoldNext(t, es, 2);
  }

  lemma StaleStep(t: Tables, first: Envelope, second: Envelope)
    requires Id("candidate") !in t.candidates && Id("decision") !in t.decisions
    requires first.body == StaleInput(0) && second.body == StaleInput(1)
    ensures Insertable(t, first) && Insertable(FoldStep(t, first), second)
    ensures forall e: Envelope :: e.body == StaleInput(2) ==> Insertable(FoldStep(FoldStep(t, first), second), e)
  {
    hide ReplayStep;
  }

  lemma StaleEvents(t: Tables)
    requires Id("candidate") !in t.candidates && Id("decision") !in t.decisions
    ensures |EvaluationInputs([STALE_PLAN], None)| == 3
    ensures InsertableAll(t, Stamp(PlansInputs([STALE_PLAN]), 3))
    ensures forall i :: 0 <= i < 3 ==> EvaluationInputs([STALE_PLAN], None)[i].eventId == [Id("4"), Id("5"), Id("6")][i]
  {
    hide InsertableAll, PlansInputs, EvaluationInputs, Stamp;
    StaleInputs();
    StaleInserts(t);
  }

  lemma StaleFresh(t: Tables)
    requires Id("candidate") !in t.candidates && Id("decision") !in t.decisions
    ensures FreshEvents(S4.log, EvaluationInputs([STALE_PLAN], None))
  {
    hide Stamp, PlansInputs, EvaluationInputs, InsertableAll;
    StaleEvents(t);
    var log := S4.log;
    assert |log| == 3;
    assert log[0].body.eventId == Id("1") && log[1].body.eventId == Id("2") && log[2].body.eventId == Id("3");
  }

  lemma StaleAccepted(limits: Limits)
    requires Roomy(limits)
    ensures Offered(S4, FIFTH) && Accepted(S4, limits, FIFTH)
  {
    hide TablesOf, Offered, Accepted, Fold, InsertableAll, PlansInputs, EvaluationInputs, Stamp, FreshEvents;
    StaleOffered(limits);
    NewActivated(limits);
    EvaluateTaking(S4, limits, Id("evidence"), [STALE_PLAN], None, true);
    StaleFresh(TablesOf(S4));
    StaleEvents(TablesOf(S4));
  }

  const STALE_RUN := [FIRST, SECOND, THIRD, FOURTH, FIFTH]

  /** The verifier refuses the ledger after this run, although the store accepted every append. */
  lemma StalePolicyIsRefused(limits: Limits)
    requires Roomy(limits)
    ensures var s := Run(INITIAL, limits, STALE_RUN);
            && Offered(S4, FIFTH) && Accepted(S4, limits, FIFTH) && s == Committed(S4, limits, FIFTH)
            && !ProjectionsAgree(s.log, TablesOf(s), s.queue) && !TimelyRun(limits, STALE_RUN)
  {
    hide Offered, Accepted, Committed, ProjectionsAgree, Timely, TablesOf;
    StaleOffered(limits);
    StaleAccepted(limits);
    RunSteps(limits);
    assert Offered(S4, STALE_RUN[4]) && Accepted(S4, limits, STALE_RUN[4]) && !Timely(S4, STALE_RUN[4]);
    VerifierAcceptsRun(limits, STALE_RUN);
  }

  /** The evidence of this run was queued and drained with a complete, coherent history; the query raises an error. */
  lemma StatusIsLost(a: Anchor, limits: Limits)
    requires Roomy(limits)
    ensures var s, id := Run(INITIAL, limits, STALE_RUN), Id("evidence");
            && id in s.enqueued && !IsPending(s, id)
            && Query(a, s.log, TablesOf(s), s.queue, id) == LedgerError
            && Examine(s.log, s.queue, id).Found? && Examine(s.log, s.queue, id).status.outcome == Some(CompletedOutcome)
  {
    hide Offered, Accepted, ProjectionsAgree, TimelyRun, TablesOf, Examine, Query, Inputs, Decided;
    StalePolicyIsRefused(limits);
    var s, id := Run(INITIAL, limits, STALE_RUN), Id("evidence");
    assert s.enqueued == {id} && s.queue == map[];
    StatusIsTrue(a, limits, STALE_RUN, id);
    HistoryIsTrue(limits, STALE_RUN, id);
    OutcomeCases(Examine(s.log, s.queue, id).status.outcome);
  }

  lemma OutcomeCases(outcome: Option<TerminalOutcome>)
    ensures outcome == None || outcome == Some(FailedOutcome) || outcome == Some(CompletedOutcome)
  {
    if outcome.Some? {
      match outcome.value
      case FailedOutcome =>
      case CompletedOutcome =>
    }
  }

  lemma RunSteps(limits: Limits)
    requires Roomy(limits)
    ensures Run(INITIAL, limits, STALE_RUN[..4]) == S4 && Run(INITIAL, limits, STALE_RUN) == Next(S4, limits, FIFTH)
  {
    hide Next, S1, S2, S3, S4;
    OldActivated(limits);
    EvidenceCapturedNext(limits);
    EvidenceClaimed(limits);
    NewActivated(limits);
    var cs := STALE_RUN;
    assert cs[..1][..0] == [] && cs[..2][..1] == cs[..1] && cs[..3][..2] == cs[..2] && cs[..4][..3] == cs[..3];
    assert cs[..|cs| - 1] == cs[..4];
    assert Run(INITIAL, limits, cs[..1]) == S1;
    assert Run(INITIAL, limits, cs[..2]) == S2;
    assert Run(INITIAL, limits, cs[..3]) == S3;
  }
}
