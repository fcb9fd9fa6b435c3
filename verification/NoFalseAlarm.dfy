/** Every reachable state passes the verifier's projection checks, except for decisions whose policy was
    replaced between the evaluation and the append. */
module NoFalseAlarm {
  import opened Domain
  import opened Projection
  import opened Ledger
  import opened SignedLog
  import opened Conservation
  import opened Verifier

  /* ---------- Evidence ---------- */

  lemma ReferencesStay(log: seq<Envelope>, e: Envelope)
    requires SignedAll(log) && e in log
    ensures ReferencesResolve(CapturesOf(log), e.body)
  {
    hide CapturesOf, Signed, SignedAll;
    var k :| 0 <= k < |log| && log[k] == e;
    SignedPrefix(log, k);
    if k + 1 == |log| { assert log[..k + 1] == log; }
    assert log[..k + 1][..k] == log[..k];
    CapturesNext(log, k);
    forall r | r in e.body.refs
      ensures Resolves(CapturesOf(log), r)
    {
      ResolvedNow(CapturesOf(log[..k]), e.body, r);
      CapturesPrefix(log, k + 1, r.evidenceId);
    }
  }

  lemma ResolvedNow(rows: map<Id, EvidenceRow>, e: EventInput, r: EvidenceRef)
    requires Signed(rows, e) && r in e.refs
    ensures Resolves(EvidenceStep(rows, e), r)
  {
  }

  lemma SignedCapture(rows: map<Id, EvidenceRow>, e: EventInput)
    requires Signed(rows, e)
    ensures CaptureSound(rows, e)
    ensures e.payload.EvidenceCaptured? ==> !e.payload.record.retention.ProtectedLocal?
  {
  }

  lemma EvidencePasses(log: seq<Envelope>)
    requires SignedAll(log)
    ensures EvidenceAgrees(log, CapturesOf(log))
  {
    hide CapturesOf, Signed, SignedAll, CaptureSound, ReferencesResolve;
    forall i | 0 <= i < |log|
      ensures CaptureSound(CapturesOf(log[..i]), log[i].body)
      ensures log[i].body.payload.EvidenceCaptured? ==> !log[i].body.payload.record.retention.ProtectedLocal?
    {
      SignedPrefix(log, i);
      SignedCapture(CapturesOf(log[..i]), log[i].body);
    }
    UnprotectedRows(log);
    forall e | e in log
      ensures ReferencesResolve(CapturesOf(log), e.body)
    {
      ReferencesStay(log, e);
    }
  }

  /* ---------- Candidate details and policy activations ---------- */

  lemma SignedDetail(t: Tables, e: Envelope)
    requires Signed(t.evidence, e.body) && Insertable(t, e)
    ensures DetailSound(t, e.body)
  {
  }

  lemma SignedActivation(t: Tables, e: Envelope)
    requires Signed(t.evidence, e.body) && Insertable(t, e)
    ensures ActivationSound(t.policies, e.body)
  {
  }

  lemma PrefixFacts(log: seq<Envelope>, i: nat)
    requires SignedAll(log) && InsertableAll(EMPTY_TABLES, log) && i < |log|
    ensures Signed(Fold(EMPTY_TABLES, log[..i]).evidence, log[i].body) && Insertable(Fold(EMPTY_TABLES, log[..i]), log[i])
    ensures Fold(EMPTY_TABLES, log[..i]).policies == PoliciesOf(log[..i])
  {
    hide Signed, SignedAll, Fold;
    FoldParts(log[..i]);
    SignedPrefix(log, i);
    InsertablePrefix(EMPTY_TABLES, log, i + 1);
    assert log[..i + 1][..i] == log[..i];
  }

  lemma DetailsPass(log: seq<Envelope>)
    requires SignedAll(log) && InsertableAll(EMPTY_TABLES, log)
    ensures DetailsAgree(log, Fold(EMPTY_TABLES, log)) && ActivationsSigned(log)
  {
    hide Signed, SignedAll, Fold, InsertableAll, DetailSound, ActivationSound, Insertable, PoliciesOf;
    forall i | 0 <= i < |log|
      ensures DetailSound(Fold(EMPTY_TABLES, log[..i]), log[i].body) && ActivationSound(PoliciesOf(log[..i]), log[i].body)
    {
      PrefixFacts(log, i);
      SignedDetail(Fold(EMPTY_TABLES, log[..i]), log[i]);
      SignedActivation(Fold(EMPTY_TABLES, log[..i]), log[i]);
    }
  }

  /* ---------- The terminal queue rows ---------- */

  lemma {:induction false} FailuresUntouched(log: seq<Envelope>, es: seq<Envelope>)
    requires forall e <- es :: !e.body.payload.EvaluationFailed?
    ensures FailuresOf(log + es) == FailuresOf(log)
    ensures FailuresSigned(log) ==> FailuresSigned(log + es)
  {
    if es == [] {
      assert log + es == log;
    } else {
      var init, e := es[..|es| - 1], es[|es| - 1];
      assert (log + es)[..|log + es| - 1] == log + init;
      FailuresUntouched(log, init);
      FailuresSignedNext(log + init, e);
      assert log + es == log + init + [e];
    }
  }

  lemma {:induction false} FailuresSignedNext(log: seq<Envelope>, e: Envelope)
    requires FailuresSigned(log) ==> FailureSound(CapturesOf(log), FailuresOf(log), e.body)
    ensures FailuresSigned(log) ==> FailuresSigned(log + [e])
    ensures FailuresOf(log + [e]) ==
            if e.body.payload.EvaluationFailed? then FailuresOf(log)[e.body.payload.failedId := e] else FailuresOf(log)
  {
    var log' := log + [e];
    assert log'[..|log|] == log;
    hide CapturesOf, FailureSound;
    if FailuresSigned(log) {
      forall i | 0 <= i < |log'|
        ensures FailureSound(CapturesOf(log'[..i]), FailuresOf(log'[..i]), log'[i].body)
      {
        assert log'[..i] == log[..i];
        if i == |log| { assert log[..i] == log; }
      }
    }
  }

  lemma {:induction false} PlansNeverFail(plans: seq<Plan>)
    ensures forall e <- PlansInputs(plans) :: !e.payload.EvaluationFailed?
  {
    PlansSpeak(plans);
    hide PlansInputs;
  }

  lemma OnlyFailFails(s: State, limits: Limits, c: Command)
    requires Offered(s, c) && !c.Fail?
    ensures forall e <- Inputs(s, limits, c) :: !e.payload.EvaluationFailed?
  {
    hide TablesOf, RescanInputs, PlansInputs;
    if c.Evaluate? {
      PlansNeverFail(c.plans);
    } else if c.Rescan? {
      RescanSpeaks(c.rescan);
    }
  }

  lemma QueueRowsUntouched(s: State, limits: Limits, c: Command)
    requires QueueStory(s, limits) && QueueAgrees(s.log, s.queue) && Offered(s, c) && Accepted(s, limits, c) && !c.Fail?
    ensures FailedIds(QueueAfter(s, limits, c)) == FailedIds(s.queue)
    ensures forall id <- FailedIds(s.queue) :: QueueAfter(s, limits, c)[id] == s.queue[id]
  {
    hide LogInv, AllAccounted, CapturesOf, WithinLimits, RowOk, QueueAgrees, TablesOf, Inputs, HasRoom;
    if c.Capture? {
      CaptureNotKnown(s, limits, c);
    }
  }

  lemma CapturedRecordsStay(s: State, limits: Limits, c: Command, id: Id)
    requires LogInv(s) && Offered(s, c) && Accepted(s, limits, c) && id in CapturesOf(s.log)
    ensures id in CapturesOf(Committed(s, limits, c).log) && CapturesOf(Committed(s, limits, c).log)[id] == CapturesOf(s.log)[id]
  {
    hide LogInv, Offered, Accepted, CapturesOf, Inputs;
    CapturesGrow(s, limits, c);
  }

  lemma QuietQueueAgrees(s: State, limits: Limits, c: Command)
    requires QueueStory(s, limits) && QueueAgrees(s.log, s.queue) && Offered(s, c) && Accepted(s, limits, c) && !c.Fail?
    ensures QueueAgrees(Committed(s, limits, c).log, QueueAfter(s, limits, c))
  {
    hide LogInv, QueueInv, AllAccounted, Offered, Accepted, CapturesOf, FailuresOf, FailedIds, FailuresSigned, Inputs, QueueAfter,
         FailedRowMatches;
    var es := Stamp(Inputs(s, limits, c), |s.log|);
    OnlyFailFails(s, limits, c);
    assert forall e <- es :: e.body in Inputs(s, limits, c);
    FailuresUntouched(s.log, es);
    QueueRowsUntouched(s, limits, c);
    FailuresTyped(s.log);
    FailuresTyped(s.log + es);
    forall id | id in FailuresOf(s.log).Keys
      ensures id in CapturesOf(s.log + es) && CapturesOf(s.log + es)[id] == CapturesOf(s.log)[id]
    {
      CapturedRecordsStay(s, limits, c, id);
    }
  }

  lemma FailEvent(s: State, limits: Limits, c: Command)
    requires QueueStory(s, limits) && Offered(s, c) && Accepted(s, limits, c) && c.Fail?
    ensures IsPending(s, c.evidenceId) && c.evidenceId in CapturesOf(s.log) && CapturesOf(s.log)[c.evidenceId].record.evidenceId == c.evidenceId
    ensures var row, record := s.queue[c.evidenceId], CapturesOf(s.log)[c.evidenceId].record;
            && row.digest == record.sanitizedDigest && row.enqueuedAt == record.capturedAt
            && Inputs(s, limits, c) ==
               if EndsRow(row, limits, c.at, c.force)
               then [WorkerInput(record, c.eventId, c.at, EvaluationFailed(c.evidenceId, c.error, row.attempts + 1, true))] else []
  {
    hide LogInv, AllAccounted, CapturesOf, WithinLimits, TablesOf, EndsRow, Takes, RowsKeyed, CandidatesSourced, RowOk;
    LogRows(s);
    PendingRowOk(s, limits, c.evidenceId);
    RowKeyed(CapturesOf(s.log), c.evidenceId);
  }

  lemma PendingRowOk(s: State, limits: Limits, id: Id)
    requires QueueInv(s, limits) && id in s.queue
    ensures id in CapturesOf(s.log)
    ensures s.queue[id].digest == CapturesOf(s.log)[id].record.sanitizedDigest
    ensures s.queue[id].enqueuedAt == CapturesOf(s.log)[id].record.capturedAt
  {
    hide CapturesOf, WithinLimits;
  }

  lemma RowKeyed(rows: map<Id, EvidenceRow>, id: Id)
    requires RowsKeyed(rows) && id in rows
    ensures rows[id].record.evidenceId == id
  {
  }

  lemma FailingQueueAgrees(s: State, limits: Limits, c: Command)
    requires QueueStory(s, limits) && QueueAgrees(s.log, s.queue) && Offered(s, c) && Accepted(s, limits, c) && c.Fail?
    ensures QueueAgrees(Committed(s, limits, c).log, QueueAfter(s, limits, c))
  {
    hide QueueStory, Offered, Accepted, CapturesOf, FailuresOf, FailuresSigned, Inputs, EndsRow;
    FailEvent(s, limits, c);
    var row, record := s.queue[c.evidenceId], CapturesOf(s.log)[c.evidenceId].record;
    FailuresTyped(s.log);
    assert c.evidenceId !in FailedIds(s.queue);
    if EndsRow(row, limits, c.at, c.force) {
      var e := Envelope(|s.log| + 1, WorkerInput(record, c.eventId, c.at, EvaluationFailed(c.evidenceId, c.error, row.attempts + 1, true)));
      assert Stamp(Inputs(s, limits, c), |s.log|) == [e];
      FailuresSignedNext(s.log, e);
      CapturedRow(s.log, e);
      FailuresTyped(s.log + [e]);
      assert FailedIds(QueueAfter(s, limits, c)) == FailedIds(s.queue) + {c.evidenceId};
    } else {
      assert s.log + Stamp(Inputs(s, limits, c), |s.log|) == s.log;
      assert FailedIds(QueueAfter(s, limits, c)) == FailedIds(s.queue);
    }
  }

  lemma StepKeepsQueueAgrees(s: State, limits: Limits, c: Command)
    requires QueueStory(s, limits) && QueueAgrees(s.log, s.queue)
    ensures QueueAgrees(Next(s, limits, c).log, Next(s, limits, c).queue)
  {
    hide QueueStory, QueueAgrees, Offered, Accepted, QueueAfter, Inputs;
    if Offered(s, c) && Accepted(s, limits, c) {
      if c.Fail? {
        FailingQueueAgrees(s, limits, c);
      } else {
        QuietQueueAgrees(s, limits, c);
      }
    }
  }

  lemma {:induction false} RunKeepsQueueAgrees(limits: Limits, cs: seq<Command>)
    ensures QueueAgrees(Run(INITIAL, limits, cs).log, Run(INITIAL, limits, cs).queue)
  {
    if cs == [] {
      EmptyQueueAgrees();
    } else {
      hide QueueAgrees, Next, QueueStory;
      RunKeepsQueueAgrees(limits, cs[..|cs| - 1]);
      RunKeepsStory(limits, cs[..|cs| - 1]);
      StepKeepsQueueAgrees(Run(INITIAL, limits, cs[..|cs| - 1]), limits, cs[|cs| - 1]);
    }
  }

  lemma EmptyQueueAgrees()
    ensures QueueAgrees([], map[])
  {
    FailuresTyped([]);
  }

  /* ---------- All checks together ---------- */

  /** The verifier accepts a reachable state exactly when each decision was timely. */
  lemma NoOtherAlarm(limits: Limits, cs: seq<Command>)
    ensures var s := Run(INITIAL, limits, cs);
            ProjectionsAgree(s.log, TablesOf(s), s.queue) <==> DecisionsTimely(s.log)
  {
    hide SignedAll, InsertableAll, QueueInv, AllAccounted, EvidenceAgrees, QueueAgrees, DetailsAgree, DecisionsTimely, ActivationsSigned,
         Fold, Contiguous, DistinctEvents;
    var s := Run(INITIAL, limits, cs);
    hide Run;
    RunKeepsStory(limits, cs);
    FoldParts(s.log);
    EvidencePasses(s.log);
    DetailsPass(s.log);
    RunKeepsQueueAgrees(limits, cs);
  }

  /* ---------- When decisions are timely ---------- */

  /** The test that the rescan projector makes and the ordinary evaluation's projector does not. */
  predicate Timely(s: State, c: Command) {
    c.Evaluate? ==> forall p <- c.plans :: PolicyIsActive(TablesOf(s), p.decision)
  }

  lemma ActiveMeansLatest(s: State, d: Decision)
    ensures PolicyIsActive(TablesOf(s), d) <==>
            && ActiveAt(s.log).Some? && d.policy == ActiveAt(s.log).value.ref && d.policyDigest == PolicyDigest(ActiveAt(s.log).value)
  {
    hide Fold;
    FoldParts(s.log);
    ActiveRow(s.log);
    hide PoliciesOf;
  }

  lemma {:induction false} ActiveUntouched(log: seq<Envelope>, es: seq<Envelope>)
    requires forall e <- es :: !e.body.payload.PolicyActivated?
    ensures ActiveAt(log + es) == ActiveAt(log)
  {
    if es == [] {
      assert log + es == log;
    } else {
      assert (log + es)[..|log + es| - 1] == log + es[..|es| - 1];
      ActiveUntouched(log, es[..|es| - 1]);
      assert es[|es| - 1] in es;
    }
  }

  /** In a batch without activations, all decisions are judged by the policy active before it. */
  lemma {:induction false} BatchTimely(log: seq<Envelope>, inputs: seq<EventInput>)
    requires forall e <- inputs :: !e.payload.PolicyActivated?
    ensures DecisionsTimely(log + Stamp(inputs, |log|)) <==>
            DecisionsTimely(log) && forall e <- inputs :: DecisionTimely(ActiveAt(log), e)
  {
    hide ActiveAt, DecisionTimely;
    var es := Stamp(inputs, |log|);
    var log' := log + es;
    forall i | 0 <= i < |log'|
      ensures i < |log| ==> log'[..i] == log[..i] && log'[i] == log[i]
      ensures i >= |log| ==> ActiveAt(log'[..i]) == ActiveAt(log) && log'[i].body == inputs[i - |log|]
    {
      if i < |log| {
        assert log'[..i] == log[..i];
      } else {
        assert log'[..i] == log + es[..i - |log|];
        assert forall e <- es[..i - |log|] :: e.body in inputs;
        ActiveUntouched(log, es[..i - |log|]);
      }
    }
    if DecisionsTimely(log') {
      forall i | 0 <= i < |log|
        ensures DecisionTimely(ActiveAt(log[..i]), log[i].body)
      {
        assert DecisionTimely(ActiveAt(log'[..i]), log'[i].body);
      }
      forall e | e in inputs
        ensures DecisionTimely(ActiveAt(log), e)
      {
        var k :| 0 <= k < |inputs| && inputs[k] == e;
        assert DecisionTimely(ActiveAt(log'[..|log| + k]), log'[|log| + k].body);
      }
    }
    if DecisionsTimely(log) && forall e <- inputs :: DecisionTimely(ActiveAt(log), e) {
      forall i | 0 <= i < |log'|
        ensures DecisionTimely(ActiveAt(log'[..i]), log'[i].body)
      {
        if i < |log| {
          assert DecisionTimely(ActiveAt(log[..i]), log[i].body);
        }
      }
    }
  }

  lemma PlansDecide(plans: seq<Plan>)
    ensures forall e <- PlansInputs(plans) :: !e.payload.PolicyActivated?
    ensures forall e <- PlansInputs(plans) :: e.payload.DecisionRecorded? ==> exists p :: p in plans && p.decision == e.payload.decision
    ensures forall p <- plans :: exists e :: e in PlansInputs(plans) && e.payload == DecisionRecorded(p.decision)
  {
    hide PlansInputs;
    DecisionsHavePlans(plans);
    PlansHaveDecisions(plans);
  }

  lemma {:induction false} PlansHaveDecisions(plans: seq<Plan>)
    ensures forall p <- plans :: exists e :: e in PlansInputs(plans) && e.payload == DecisionRecorded(p.decision)
  {
    hide PlanInputs, PlanInput, PlansInputs;
    if plans != [] {
      PlansHaveDecisions(plans[..|plans| - 1]);
      PlanDecides(plans[|plans| - 1]);
      PlansInputsLast(plans);
      DecisionsJoined(plans[..|plans| - 1], plans[|plans| - 1]);
    }
  }

  lemma {:induction false} DecisionsHavePlans(plans: seq<Plan>)
    ensures forall e <- PlansInputs(plans) :: !e.payload.PolicyActivated?
    ensures forall e <- PlansInputs(plans) :: e.payload.DecisionRecorded? ==> exists p :: p in plans && p.decision == e.payload.decision
  {
    hide PlanInputs, PlanInput, PlansInputs;
    if plans == [] {
      NoPlans();
    } else {
      DecisionsHavePlans(plans[..|plans| - 1]);
      PlanDecides(plans[|plans| - 1]);
      PlansInputsLast(plans);
    }
  }

  lemma PlansInputsLast(plans: seq<Plan>)
    requires plans != []
    ensures PlansInputs(plans) == PlansInputs(plans[..|plans| - 1]) + PlanInputs(plans[|plans| - 1])
    ensures plans == plans[..|plans| - 1] + [plans[|plans| - 1]]
  {
    hide PlanInputs;
  }

  lemma NoPlans()
    ensures PlansInputs([]) == []
  {
  }

  lemma DecisionsJoined(init: seq<Plan>, last: Plan)
    requires forall p <- init :: exists e :: e in PlansInputs(init) && e.payload == DecisionRecorded(p.decision)
    requires exists e :: e in PlanInputs(last) && e.payload == DecisionRecorded(last.decision)
    ensures forall p <- init + [last] ::
              exists e :: e in PlansInputs(init) + PlanInputs(last) && e.payload == DecisionRecorded(p.decision)
  {
    hide PlanInputs, PlansInputs;
    forall p | p in init + [last]
      ensures exists e :: e in PlansInputs(init) + PlanInputs(last) && e.payload == DecisionRecorded(p.decision)
    {
      if p == last {
        var e :| e in PlanInputs(last) && e.payload == DecisionRecorded(p.decision);
        assert e in PlansInputs(init) + PlanInputs(last);
      } else {
        var e :| e in PlansInputs(init) && e.payload == DecisionRecorded(p.decision);
        assert e in PlansInputs(init) + PlanInputs(last);
      }
    }
  }

  lemma PlanDecides(p: Plan)
    ensures exists e :: e in PlanInputs(p) && e.payload == DecisionRecorded(p.decision)
    ensures forall e <- PlanInputs(p) :: !e.payload.PolicyActivated? && (e.payload.DecisionRecorded? ==> e.payload.decision == p.decision)
  {
    var n := |PlanInputs(p)|;
    assert PlanInputs(p)[n - 2] == PlanInput(p, p.decisionEventId, DecisionRecorded(p.decision));
  }

  lemma RescanDecides(p: RescanPlan)
    ensures forall e <- RescanInputs(p) :: !e.payload.PolicyActivated? && (e.payload.DecisionRecorded? ==> e.payload.decision == p.decision)
  {
  }

  /** A signed decision is timely exactly when its policy's row is active. */
  lemma SignedDecisionTimely(s: State, e: EventInput)
    requires Signed(CapturesOf(s.log), e) && e.payload.DecisionRecorded?
    ensures DecisionTimely(ActiveAt(s.log), e) <==> PolicyIsActive(TablesOf(s), e.payload.decision)
  {
    hide CapturesOf, TablesOf, PolicyIsActive, ActiveAt;
    ActiveMeansLatest(s, e.payload.decision);
  }

  lemma EvaluationDecisions(s: State, limits: Limits, c: Command)
    requires LogInv(s) && Offered(s, c) && c.Evaluate?
    ensures forall e <- Inputs(s, limits, c) :: Signed(CapturesOf(s.log), e) && !e.payload.PolicyActivated?
    ensures forall e <- Inputs(s, limits, c) :: e.payload.DecisionRecorded? ==> exists p :: p in c.plans && p.decision == e.payload.decision
    ensures forall p <- c.plans :: exists e :: e in Inputs(s, limits, c) && e.payload == DecisionRecorded(p.decision)
  {
    hide LogInv, CapturesOf, PlansInputs, Signed, TablesOf;
    InputsSigned(s, limits, c);
    PlansDecide(c.plans);
  }

  lemma EvaluationTimely(s: State, limits: Limits, c: Command)
    requires LogInv(s) && Offered(s, c) && c.Evaluate?
    ensures (forall e <- Inputs(s, limits, c) :: DecisionTimely(ActiveAt(s.log), e)) <==> Timely(s, c)
    ensures forall e <- Inputs(s, limits, c) :: !e.payload.PolicyActivated?
  {
    hide LogInv, Offered, Inputs, CapturesOf, PolicyIsActive, ActiveAt, Signed, TablesOf;
    EvaluationDecisions(s, limits, c);
    forall e | e in Inputs(s, limits, c) && e.payload.DecisionRecorded?
      ensures DecisionTimely(ActiveAt(s.log), e) <==> PolicyIsActive(TablesOf(s), e.payload.decision)
    {
      SignedDecisionTimely(s, e);
    }
  }

  lemma RescanTimely(s: State, limits: Limits, c: Command)
    requires LogInv(s) && Offered(s, c) && Accepted(s, limits, c) && c.Rescan?
    ensures forall e <- Inputs(s, limits, c) :: DecisionTimely(ActiveAt(s.log), e) && !e.payload.PolicyActivated?
  {
    hide LogInv, CapturesOf, PolicyIsActive, RescanInputs, ActiveAt, Signed, TablesOf, Takes;
    InputsSigned(s, limits, c);
    RescanDecides(c.rescan);
    forall e | e in Inputs(s, limits, c) && e.payload.DecisionRecorded?
      ensures DecisionTimely(ActiveAt(s.log), e)
    {
      SignedDecisionTimely(s, e);
    }
  }

  lemma OthersDecideNothing(s: State, limits: Limits, c: Command)
    requires Offered(s, c) && !c.Evaluate? && !c.Rescan?
    ensures forall e <- Inputs(s, limits, c) :: !e.payload.DecisionRecorded?
    ensures !c.Activate? ==> forall e <- Inputs(s, limits, c) :: !e.payload.PolicyActivated?
  {
    hide TablesOf, Offered, EndsRow;
  }

  /** One event that is not a decision is always timely. */
  lemma {:induction false} ActivationTimely(log: seq<Envelope>, e: Envelope)
    requires !e.body.payload.DecisionRecorded?
    ensures DecisionsTimely(log + [e]) <==> DecisionsTimely(log)
  {
    hide ActiveAt;
    var log' := log + [e];
    assert forall i :: 0 <= i < |log| ==> log'[..i] == log[..i] && log'[i] == log[i];
    if DecisionsTimely(log') {
      forall i | 0 <= i < |log|
        ensures DecisionTimely(ActiveAt(log[..i]), log[i].body)
      {
        assert DecisionTimely(ActiveAt(log'[..i]), log'[i].body);
      }
    }
  }

  /** The exact condition: an append leaves the verifier satisfied if and only if it was satisfied before and,
      for an ordinary evaluation, every policy used is still the active one. */
  lemma TimelyStep(s: State, limits: Limits, c: Command)
    requires LogInv(s) && Offered(s, c) && Accepted(s, limits, c)
    ensures DecisionsTimely(Committed(s, limits, c).log) <==> DecisionsTimely(s.log) && Timely(s, c)
  {
    hide LogInv, Offered, Accepted, Inputs, DecisionsTimely, PolicyIsActive, TablesOf, ActiveAt;
    var inputs := Inputs(s, limits, c);
    if c.Activate? {
      ActivationInputs(s, limits, c);
      ActivationTimely(s.log, Stamp(inputs, |s.log|)[0]);
      assert Stamp(inputs, |s.log|) == [Stamp(inputs, |s.log|)[0]];
    } else if c.Evaluate? {
      EvaluationTimely(s, limits, c);
      BatchTimely(s.log, inputs);
    } else if c.Rescan? {
      RescanTimely(s, limits, c);
      BatchTimely(s.log, inputs);
    } else {
      OthersDecideNothing(s, limits, c);
      BatchTimely(s.log, inputs);
    }
  }

  lemma ActivationInputs(s: State, limits: Limits, c: Command)
    requires Offered(s, c) && c.Activate?
    ensures |Inputs(s, limits, c)| == 1 && !Inputs(s, limits, c)[0].payload.DecisionRecorded?
  {
    hide TablesOf, Offered;
  }

  ghost predicate TimelyRun(limits: Limits, cs: seq<Command>) {
    forall k :: 0 <= k < |cs| ==>
      var s := Run(INITIAL, limits, cs[..k]);
      Offered(s, cs[k]) && Accepted(s, limits, cs[k]) ==> Timely(s, cs[k])
  }

  lemma TimelyRunNext(limits: Limits, cs: seq<Command>)
    requires cs != []
    ensures var init := cs[..|cs| - 1];
            var s := Run(INITIAL, limits, init);
            TimelyRun(limits, cs) <==>
            TimelyRun(limits, init) && (Offered(s, cs[|cs| - 1]) && Accepted(s, limits, cs[|cs| - 1]) ==> Timely(s, cs[|cs| - 1]))
  {
    hide Run, Offered, Accepted, Timely;
    var init := cs[..|cs| - 1];
    assert forall k :: 0 <= k < |init| ==> init[..k] == cs[..k] && init[k] == cs[k];
  }

  lemma {:induction false} DecisionsOfRun(limits: Limits, cs: seq<Command>)
    ensures DecisionsTimely(Run(INITIAL, limits, cs).log) <==> TimelyRun(limits, cs)
  {
    hide Offered, Accepted, Timely, Committed, LogInv, QueueStory;
    if cs != [] {
      var init, c := cs[..|cs| - 1], cs[|cs| - 1];
      var s := Run(INITIAL, limits, init);
      DecisionsOfRun(limits, init);
      TimelyRunNext(limits, cs);
      assert LogInv(s) by { StoryLog(limits, init); }
      if Offered(s, c) && Accepted(s, limits, c) {
        TimelyStep(s, limits, c);
      }
    }
  }

  lemma StoryLog(limits: Limits, cs: seq<Command>)
    ensures LogInv(Run(INITIAL, limits, cs))
  {
    hide Run, LogInv, QueueInv, AllAccounted;
    RunKeepsStory(limits, cs);
  }

  /** No false alarm: after any run, whatever was read before other appends landed, the verifier accepts the
      tables and the queue if and only if every accepted evaluation used the policy active at its append. */
  lemma VerifierAcceptsRun(limits: Limits, cs: seq<Command>)
    ensures var s := Run(INITIAL, limits, cs);
            ProjectionsAgree(s.log, TablesOf(s), s.queue) <==> TimelyRun(limits, cs)
  {
    hide Run, ProjectionsAgree, DecisionsTimely, TimelyRun, TablesOf;
    NoOtherAlarm(limits, cs);
    DecisionsOfRun(limits, cs);
  }
}
