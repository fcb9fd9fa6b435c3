/** The tables as the service edits them: every projector issues its statements one at a
    time, a failed statement rolls the whole append back, and the result is the event fold. */
module Database {
  import opened Domain
  import opened Replay
  import opened Projection
  import opened Ledger
  import opened Invariants
  import opened Queue

  datatype Snapshot = Snapshot(log: seq<Envelope>, tables: Tables, queue: map<Id, QueueRow>)

  lemma FoldNext(t: Tables, es: seq<Envelope>, k: nat)
    requires k < |es|
    ensures Fold(t, es[..k + 1]) == FoldStep(Fold(t, es[..k]), es[k])
    ensures InsertableAll(t, es[..k + 1]) <==> InsertableAll(t, es[..k]) && Insertable(Fold(t, es[..k]), es[k])
  {
    assert es[..k + 1][..k] == es[..k];
  }

  lemma FreshNext(log: seq<Envelope>, inputs: seq<EventInput>, i: nat)
    requires i < |inputs|
    ensures FreshEvents(log, inputs[..i + 1]) <==>
            && FreshEvents(log, inputs[..i])
            && forall k :: 0 <= k < |log| + i ==> (log + Stamp(inputs[..i], |log|))[k].body.eventId != inputs[i].eventId
  {
    var rows := log + Stamp(inputs[..i], |log|);
    assert forall k :: 0 <= k < |log| ==> rows[k] == log[k];
    assert forall j :: 0 <= j < i ==> rows[|log| + j].body == inputs[j];
  }

  lemma NoneStamped(log: seq<Envelope>)
    ensures Stamp([], |log|) == [] && FreshEvents(log, [])
  {
  }

  lemma StampNext(inputs: seq<EventInput>, i: nat, after: nat)
    requires i < |inputs|
    ensures |Stamp(inputs[..i], after)| == i
    ensures Stamp(inputs[..i + 1], after) == Stamp(inputs[..i], after) + [Envelope(after + i + 1, inputs[i])]
  {
  }

  lemma FreshPrefix(log: seq<Envelope>, inputs: seq<EventInput>, i: nat)
    requires i <= |inputs| && FreshEvents(log, inputs)
    ensures FreshEvents(log, inputs[..i])
  {
  }

  predicate FindingEvents(es: seq<Envelope>, c: Candidate, eventId: Id, verdictList: seq<Verdict>) {
    && |es| == 1 + |verdictList|
    && es[0].body.eventId == eventId && es[0].body.payload == CandidateCreated(c)
    && (forall i :: 0 <= i < |verdictList| ==>
          es[1 + i].body.payload == VerdictRecorded(verdictList[i].result)
          && es[1 + i].body.eventId == verdictList[i].eventId
          && verdictList[i].result.candidateId == c.candidateId)
  }

  predicate JudgementEvents(es: seq<Envelope>, c: Candidate, semantic: Option<SemanticVerdict>, d: Decision, eventId: Id) {
    && |es| == (if semantic.Some? then 2 else 1)
    && (semantic.Some? ==>
          es[0].body.payload == AssessmentRecorded(semantic.value.assessment)
          && es[0].body.eventId == semantic.value.eventId
          && semantic.value.assessment.candidateId == c.candidateId)
    && es[|es| - 1].body.payload == DecisionRecorded(d) && es[|es| - 1].body.eventId == eventId
    && d.candidateId == c.candidateId
  }

  predicate EvaluationEvents(es: seq<Envelope>, c: Candidate, candidateEventId: Id, verdictList: seq<Verdict>,
                             semantic: Option<SemanticVerdict>, d: Decision, decisionEventId: Id) {
    && |es| > 1 + |verdictList|
    && FindingEvents(es[..1 + |verdictList|], c, candidateEventId, verdictList)
    && JudgementEvents(es[1 + |verdictList|..], c, semantic, d, decisionEventId)
  }

  /** The events of one plan: its evaluation rows, then its outcome. */
  predicate PlanSlice(es: seq<Envelope>, p: Plan) {
    && |es| >= 3
    && EvaluationEvents(es[..|es| - 1], p.candidate, p.candidateEventId, p.verdicts, p.semantic, p.decision, p.decisionEventId)
    && es[|es| - 1].body == PlanInput(p, p.outcomeEventId, OutcomePayload(p))
  }

  lemma PlanFindings(p: Plan, after: nat)
    requires ResultsFor(p.candidate, p.verdicts, p.semantic, p.decision)
    ensures var es := Stamp(PlanInputs(p), after);
            |es| >= 3 + |p.verdicts| && FindingEvents(es[..1 + |p.verdicts|], p.candidate, p.candidateEventId, p.verdicts)
  {
    var es := Stamp(PlanInputs(p), after);
    assert forall i :: 0 <= i < |p.verdicts| ==> es[1 + i].body == PlanInput(p, p.verdicts[i].eventId, VerdictRecorded(p.verdicts[i].result));
  }

  lemma PlanJudgement(p: Plan, after: nat)
    requires ResultsFor(p.candidate, p.verdicts, p.semantic, p.decision)
    ensures var es := Stamp(PlanInputs(p), after);
            && |es| == |p.verdicts| + (if p.semantic.Some? then 4 else 3)
            && JudgementEvents(es[1 + |p.verdicts|..|es| - 1], p.candidate, p.semantic, p.decision, p.decisionEventId)
            && es[|es| - 1].body == PlanInput(p, p.outcomeEventId, OutcomePayload(p))
  {
    var es, n := Stamp(PlanInputs(p), after), 1 + |p.verdicts|;
    assert es[|es| - 2].body == PlanInput(p, p.decisionEventId, DecisionRecorded(p.decision));
    assert es[n..|es| - 1][|es| - 2 - n] == es[|es| - 2];
    assert p.semantic.Some? ==> es[n..|es| - 1][0] == es[n];
  }

  lemma PlanEvents(p: Plan, after: nat)
    requires ResultsFor(p.candidate, p.verdicts, p.semantic, p.decision)
    ensures PlanSlice(Stamp(PlanInputs(p), after), p)
  {
    hide Stamp, PlanInputs, FindingEvents, JudgementEvents;
    PlanFindings(p, after);
    PlanJudgement(p, after);
    var es, n := Stamp(PlanInputs(p), after), 1 + |p.verdicts|;
    assert es[..|es| - 1][..n] == es[..n] && es[..|es| - 1][n..] == es[n..|es| - 1];
  }

  /** The first insert of an evaluation needs a candidate identifier not used before. */
  lemma FirstInsert(t: Tables, es: seq<Envelope>)
    requires es != [] && es[0].body.payload.CandidateCreated?
    ensures InsertableAll(t, es) ==> es[0].body.payload.candidate.candidateId !in t.candidates
  {
    if InsertableAll(t, es) {
      InsertablePrefix(t, es, 1);
      assert es[..1][..0] == [];
      assert Insertable(Fold(t, es[..1][..0]), es[0]);
    }
  }

  /** The tables after a committed append are again the fold of the log. */
  lemma Lands(s: State, limits: Limits, c: Command, tables: Tables)
    requires ViewInv(s) && QueueKeysOk(s) && Contiguous(s.log)
    requires Offered(s, c) && Accepted(s, limits, c)
    requires tables == Fold(TablesOf(s), Stamp(Inputs(s, limits, c), |s.log|))
    ensures tables == TablesOf(Committed(s, limits, c))
    ensures Contiguous(Committed(s, limits, c).log)
    ensures ViewInv(Committed(s, limits, c)) && QueueKeysOk(Committed(s, limits, c))
  {
    hide TablesOf, Offered, Accepted, Inputs, ViewInv, QueueKeysOk, QueueAfter;
    CommittedTables(s, limits, c);
    StepKeepsViewInv(s, limits, c);
    StepKeepsQueueKeys(s, limits, c);
  }

  lemma FoldNone(t: Tables)
    ensures Fold(t, []) == t && InsertableAll(t, [])
  {
  }

  lemma SplitFirst(t: Tables, es: seq<Envelope>)
    requires es != []
    ensures InsertableAll(t, es) <==> Insertable(t, es[0]) && InsertableAll(FoldStep(t, es[0]), es[1..])
    ensures Fold(t, es) == Fold(FoldStep(t, es[0]), es[1..])
  {
    hide FoldStep, Insertable;
    assert es[..0] == [] && es[..1] + es[1..] == es;
    FoldNext(t, es, 0);
    FoldConcat(t, es[..1], es[1..]);
  }

  lemma SplitLast(t: Tables, es: seq<Envelope>)
    requires es != []
    ensures InsertableAll(t, es) <==> InsertableAll(t, es[..|es| - 1]) && Insertable(Fold(t, es[..|es| - 1]), es[|es| - 1])
    ensures Fold(t, es) == FoldStep(Fold(t, es[..|es| - 1]), es[|es| - 1])
  {
  }

  lemma {:induction false} PlansPrefix(plans: seq<Plan>, j: nat)
    requires j <= |plans|
    ensures PlansInputs(plans[..j]) <= PlansInputs(plans)
  {
    hide PlanInputs;
    if j == |plans| {
      assert plans[..j] == plans;
    } else {
      var init := plans[..|plans| - 1];
      PlansPrefix(init, j);
      assert init[..j] == plans[..j];
    }
  }

  lemma PlansSplit(plans: seq<Plan>, j: nat)
    requires j < |plans|
    ensures PlansInputs(plans[..j + 1]) == PlansInputs(plans[..j]) + PlanInputs(plans[j])
    ensures PlansInputs(plans[..j + 1]) <= PlansInputs(plans)
    ensures PlanInputs(plans[j]) != []
  {
    hide PlanInputs;
    var more := plans[..j + 1];
    assert more[..|more| - 1] == plans[..j] && more[|more| - 1] == plans[j];
    PlansPrefix(plans, j + 1);
    PlanNotEmpty(plans[j]);
  }

  lemma PlanNotEmpty(p: Plan)
    ensures PlanInputs(p) != []
  {
  }

  /** Plan j owns one slice of the batch. */
  lemma PlanAt(plans: seq<Plan>, j: nat, after: nat)
    requires j < |plans|
    ensures var es, from, to := Stamp(PlansInputs(plans), after), |PlansInputs(plans[..j])|, |PlansInputs(plans[..j + 1])|;
            from < to <= |es| && es[from..to] == Stamp(PlanInputs(plans[j]), after + from)
  {
    PlansSplit(plans, j);
    var done, own, all := PlansInputs(plans[..j]), PlanInputs(plans[j]), PlansInputs(plans);
    hide PlanInputs, PlansInputs;
    var rest := all[|done| + |own|..];
    assert all == done + own + rest;
    StampSlice(done, own, rest, after);
  }

  lemma StampSlice(a: seq<EventInput>, b: seq<EventInput>, c: seq<EventInput>, after: nat)
    ensures |Stamp(a + b + c, after)| == |a| + |b| + |c|
    ensures Stamp(a + b + c, after)[|a|..|a| + |b|] == Stamp(b, after + |a|)
  {
  }

  lemma FoldSlice(t: Tables, es: seq<Envelope>, from: nat, to: nat)
    requires from <= to <= |es|
    ensures Fold(t, es[..to]) == Fold(Fold(t, es[..from]), es[from..to])
    ensures InsertableAll(t, es[..to]) <==> InsertableAll(t, es[..from]) && InsertableAll(Fold(t, es[..from]), es[from..to])
    ensures GroundedAll(t, es[..to]) <==> GroundedAll(t, es[..from]) && GroundedAll(Fold(t, es[..from]), es[from..to])
    ensures InsertableAll(t, es) ==> InsertableAll(t, es[..to])
    ensures GroundedAll(t, es) ==> GroundedAll(t, es[..to])
  {
    assert es[..to] == es[..from] + es[from..to];
    assert es == es[..to] + es[to..];
    FoldConcat(t, es[..from], es[from..to]);
    GroundedConcat(t, es[..from], es[from..to]);
    FoldConcat(t, es[..to], es[to..]);
    GroundedConcat(t, es[..to], es[to..]);
  }

  /** One turn of the loop over plans: where plan j's events are, and what taking them means. */
  lemma PlanTurn(t: Tables, plans: seq<Plan>, j: nat, after: nat, envelopes: seq<Envelope>) returns (es: seq<Envelope>)
    requires j < |plans| && ResultsFor(plans[j].candidate, plans[j].verdicts, plans[j].semantic, plans[j].decision)
    requires Stamp(PlansInputs(plans), after) <= envelopes
    requires ViewOk(Fold(t, Taken(plans, j, after)))
    ensures PlanSlice(es, plans[j])
    ensures |Taken(plans, j, after)| + |es| <= |envelopes| && envelopes[|Taken(plans, j, after)| + |es| - 1] == es[|es| - 1]
    ensures Fold(t, Taken(plans, j + 1, after)) == Fold(Fold(t, Taken(plans, j, after)), es)
    ensures InsertableAll(t, Taken(plans, j + 1, after)) <==>
            InsertableAll(t, Taken(plans, j, after)) && InsertableAll(Fold(t, Taken(plans, j, after)), es)
    ensures InsertableAll(t, Stamp(PlansInputs(plans), after)) ==> InsertableAll(t, Taken(plans, j + 1, after))
    ensures InsertableAll(t, Taken(plans, j + 1, after)) ==> ViewOk(Fold(t, Taken(plans, j + 1, after)))
  {
    hide Stamp, PlanInputs, PlansInputs, FoldStep, PlanSlice, ViewOk, Fold, InsertableAll, GroundedAll, ResultsFor;
    var all := Stamp(PlansInputs(plans), after);
    var from, to := |PlansInputs(plans[..j])|, |PlansInputs(plans[..j + 1])|;
    PlanAt(plans, j, after);
    es := all[from..to];
    PlanEvents(plans[j], after + from);
    PlanGrounded(Fold(t, all[..from]), plans[j], after + from);
    FoldSlice(t, all, from, to);
    assert envelopes[to - 1] == all[to - 1];
    if InsertableAll(t, all[..to]) {
      FoldKeepsView(Fold(t, all[..from]), es);
    }
  }

  /** The events of the first j plans of a batch. */
  function Taken(plans: seq<Plan>, j: nat, after: nat): seq<Envelope>
    requires j <= |plans|
  {
    PlansPrefix(plans, j);
    Stamp(PlansInputs(plans), after)[..|PlansInputs(plans[..j])|]
  }

  lemma TakenEnds(t: Tables, plans: seq<Plan>, after: nat)
    ensures Fold(t, Taken(plans, 0, after)) == t && InsertableAll(t, Taken(plans, 0, after))
    ensures Taken(plans, |plans|, after) == Stamp(PlansInputs(plans), after)
  {
    assert plans[..|plans|] == plans;
  }

  /** An append of one event. */
  lemma OneEvent(t: Tables, input: EventInput, after: nat)
    ensures Stamp([input], after) == [Envelope(after + 1, input)]
    ensures Fold(t, Stamp([input], after)) == FoldStep(t, Envelope(after + 1, input))
    ensures InsertableAll(t, Stamp([input], after)) <==> Insertable(t, Envelope(after + 1, input))
  {
    var es := Stamp([input], after);
    assert es[..0] == [] && es == [Envelope(after + 1, input)];
  }

  lemma Taking(s: State, limits: Limits, c: Command)
    requires Offered(s, c)
    ensures Next(s, limits, c) == if Accepted(s, limits, c) then Committed(s, limits, c) else s
  {
    hide Offered, Accepted, Committed;
  }

  lemma CaptureTaking(s: State, limits: Limits, record: EvidenceRecord, eventId: Id, actor: Actor, queued: Option<string>)
    requires QueueKeysOk(s)
    requires Offered(s, Capture(record, eventId, actor, queued))
    ensures var c, t, input := Capture(record, eventId, actor, queued), TablesOf(s), CaptureInput(record, eventId, actor);
            && Inputs(s, limits, c) == [input]
            && (Accepted(s, limits, c) <==>
                && FreshEvents(s.log, [input])
                && record.evidenceId !in t.evidence
                && (queued.Some? ==> HasRoom(s.queue, limits, queued.value) && record.evidenceId !in s.queue))
            && Fold(t, Stamp([input], |s.log|)) == t.(evidence := t.evidence[record.evidenceId := EvidenceRow(record, None, eventId)])
  {
    hide TablesOf, HasRoom, FreshEvents;
    OneEvent(TablesOf(s), CaptureInput(record, eventId, actor), |s.log|);
    hide Fold, InsertableAll, Stamp, ReplayStep;
    assert ReplayStep(TablesOf(s).view, Envelope(|s.log| + 1, CaptureInput(record, eventId, actor))) == TablesOf(s).view by {
      QuietReplay(TablesOf(s).view, Envelope(|s.log| + 1, CaptureInput(record, eventId, actor)));
    }
  }

  /** Events that are not about memories leave the view alone. */
  predicate Quiet(p: Payload) {
    Neutral(p) && !p.MemoryBlocked? && !p.OperatorBlocked? && !p.MemoryRevoked? && !p.MemoryExpired? && !p.MemorySuperseded?
  }

  lemma QuietReplay(v: View, e: Envelope)
    requires Quiet(e.body.payload)
    ensures ReplayStep(v, e) == v
  {
  }

  /** A stream's terminal event adds nothing to these tables. */
  lemma EvaluationFold(t: Tables, plans: seq<Plan>, terminal: Option<EventInput>, after: nat)
    requires terminal.Some? ==> StreamEnd(terminal.value)
    ensures Fold(t, Stamp(EvaluationInputs(plans, terminal), after)) == Fold(t, Stamp(PlansInputs(plans), after))
    ensures InsertableAll(t, Stamp(EvaluationInputs(plans, terminal), after)) <==> InsertableAll(t, Stamp(PlansInputs(plans), after))
    ensures Stamp(PlansInputs(plans), after) <= Stamp(EvaluationInputs(plans, terminal), after)
  {
    hide PlansInputs, Fold, InsertableAll, FoldStep;
    var own, more := PlansInputs(plans), if terminal.Some? then [terminal.value] else [];
    StampConcat(own, more, after);
    if terminal.Some? {
      var u := Fold(t, Stamp(own, after));
      OneEvent(u, terminal.value, after + |own|);
      FoldConcat(t, Stamp(own, after), Stamp(more, after + |own|));
      QuietFold(u, Envelope(after + |own| + 1, terminal.value));
    } else {
      assert own + more == own;
    }
  }

  lemma QuietFold(t: Tables, e: Envelope)
    requires e.body.payload.StreamCommitted? || e.body.payload.StreamAborted? || e.body.payload.PolicyRejected?
             || e.body.payload.EvaluationCompleted? || e.body.payload.EvaluationFailed?
    ensures FoldStep(t, e) == t && Insertable(t, e)
  {
    hide ReplayStep;
    QuietReplay(t.view, e);
  }

  lemma EvaluateTaking(s: State, limits: Limits, evidenceId: Id, plans: seq<Plan>, terminal: Option<EventInput>, drain: bool)
    requires Offered(s, Evaluate(evidenceId, plans, terminal, drain))
    ensures var c, t, es := Evaluate(evidenceId, plans, terminal, drain), TablesOf(s), Stamp(PlansInputs(plans), |s.log|);
            && Inputs(s, limits, c) == EvaluationInputs(plans, terminal)
            && (Accepted(s, limits, c) <==>
                && FreshEvents(s.log, EvaluationInputs(plans, terminal))
                && InsertableAll(t, es)
                && (drain ==> evidenceId in s.queue))
            && Fold(t, Stamp(EvaluationInputs(plans, terminal), |s.log|)) == Fold(t, es)
            && es <= Stamp(EvaluationInputs(plans, terminal), |s.log|)
    ensures forall p <- plans :: ResultsFor(p.candidate, p.verdicts, p.semantic, p.decision)
  {
    hide TablesOf, FreshEvents, EvaluationInputs, PlansInputs, Fold, InsertableAll, Stamp;
    EvaluationFold(TablesOf(s), plans, terminal, |s.log|);
  }

  lemma EmptyBatch(t: Tables, log: seq<Envelope>)
    ensures Stamp([], |log|) == [] && log + Stamp([], |log|) == log
    ensures Fold(t, Stamp([], |log|)) == t && InsertableAll(t, Stamp([], |log|)) && FreshEvents(log, [])
  {
  }

  lemma NothingFolded(t: Tables, es: seq<Envelope>)
    ensures Fold(t, es[..0]) == t
  {
  }

  lemma StampLength(inputs: seq<EventInput>, after: nat)
    ensures |Stamp(inputs, after)| == |inputs| && Stamp(inputs, after)[..|inputs|] == Stamp(inputs, after)
  {
  }

  lemma FreshStamped(log: seq<Envelope>, inputs: seq<EventInput>)
    requires FreshEvents(log, inputs)
    ensures var es := Stamp(inputs, |log|);
            forall i, j :: 0 <= i < j < |es| ==> es[i].body.eventId != es[j].body.eventId
  {
  }

  lemma WorkerTaking(s: State, limits: Limits, c: Command, input: EventInput)
    requires Offered(s, c) && Inputs(s, limits, c) == [input]
    requires input.payload.EvaluationCompleted? || input.payload.EvaluationFailed? || input.payload.PolicyRejected?
    ensures Takes(s, [input]) <==> FreshEvents(s.log, [input])
    ensures Fold(TablesOf(s), Stamp([input], |s.log|)) == TablesOf(s)
  {
    hide TablesOf, Offered, Inputs, FreshEvents, FoldStep, Insertable;
    OneEvent(TablesOf(s), input, |s.log|);
    QuietFold(TablesOf(s), Envelope(|s.log| + 1, input));
  }

  /** One event whose only effect is on the view. */
  lemma ViewTaking(s: State, limits: Limits, c: Command, input: EventInput)
    requires Offered(s, c) && Inputs(s, limits, c) == [input]
    requires !input.payload.EvidenceCaptured? && !input.payload.CandidateCreated? && !input.payload.VerdictRecorded?
             && !input.payload.AssessmentRecorded? && !input.payload.DecisionRecorded? && !input.payload.PolicyActivated?
    ensures var t, e := TablesOf(s), Envelope(|s.log| + 1, input);
            && (Takes(s, [input]) <==> FreshEvents(s.log, [input]) && Insertable(t, e))
            && Fold(t, Stamp([input], |s.log|)) == t.(view := ReplayStep(t.view, e))
            && Stamp([input], |s.log|) == [e]
  {
    hide TablesOf, Offered, Inputs, FreshEvents, ReplayStep, Insertable;
    OneEvent(TablesOf(s), input, |s.log|);
    hide Fold, InsertableAll;
  }

  lemma ActivateTaking(s: State, limits: Limits, document: PolicyDocument, eventId: Id, at: Time)
    requires Offered(s, Activate(document, eventId, at))
    ensures var c, t, input := Activate(document, eventId, at), TablesOf(s), ActivateInput(document, eventId, at);
            && Inputs(s, limits, c) == [input]
            && (Accepted(s, limits, c) <==>
                FreshEvents(s.log, [input]) && (document.ref in t.policies ==> t.policies[document.ref].digest == PolicyDigest(document)))
            && (document.ref in t.policies && t.policies[document.ref].digest == PolicyDigest(document)
                ==> t.policies[document.ref].document == document)
            && Fold(t, Stamp([input], |s.log|))
               == t.(policies := Deactivated(t.policies)[document.ref := PolicyRow(document, PolicyDigest(document), eventId, true)])
  {
    var input := ActivateInput(document, eventId, at);
    var e := Envelope(|s.log| + 1, input);
    assert PolicyRowsOk(TablesOf(s).policies) by { PolicyRowsFold(s.log); }
    hide TablesOf, FreshEvents, ReplayStep, Deactivated;
    OneEvent(TablesOf(s), input, |s.log|);
    QuietReplay(TablesOf(s).view, e);
    hide Fold, InsertableAll;
  }

  lemma ApproveTaking(s: State, limits: Limits, target: QuarantineRecord, memoryId: Id, eventId: Id, reason: string, at: Time)
    requires Offered(s, Approve(target, memoryId, eventId, reason, at))
    ensures var c, t := Approve(target, memoryId, eventId, reason, at), TablesOf(s);
            var row := t.candidates[target.candidateId];
            var input := ApproveInput(target, row, memoryId, eventId, reason, at);
            var record := MemoryRecord(
              memoryId, eventId, target.candidateId, row.record.sessionId, target.content, Active, ManuallyApproved,
              target.policy, Allow, target.would, at, None, false, Some(eventId), eventId, |s.log| + 1);
            && Inputs(s, limits, c) == [input]
            && (Accepted(s, limits, c) <==>
                FreshEvents(s.log, [input]) && memoryId !in t.view.active && memoryId !in t.view.inventory)
            && Fold(t, Stamp([input], |s.log|))
               == t.(view := View(t.view.active[memoryId := record], t.view.inventory[memoryId := record],
                                  t.view.quarantine - {target.candidateId}))
            && Stamp([input], |s.log|) == [Envelope(|s.log| + 1, input)]
  {
    var row := TablesOf(s).candidates[target.candidateId];
    hide TablesOf, FreshEvents;
    ViewTaking(s, limits, Approve(target, memoryId, eventId, reason, at), ApproveInput(target, row, memoryId, eventId, reason, at));
    hide Fold, InsertableAll, Stamp, Insertable;
    assert Insertable(TablesOf(s), Envelope(|s.log| + 1, ApproveInput(target, row, memoryId, eventId, reason, at)))
           <==> memoryId !in TablesOf(s).view.active && memoryId !in TablesOf(s).view.inventory by {
      ApprovalInsertable(TablesOf(s), Envelope(|s.log| + 1, ApproveInput(target, row, memoryId, eventId, reason, at)));
    }
  }

  lemma ApprovalInsertable(t: Tables, e: Envelope)
    requires e.body.payload.MemoryApproved?
    ensures Insertable(t, e) <==> Unused(t.view, e.body.payload.outcome)
  {
  }

  lemma ExpireEventAt(ms: seq<MemoryRecord>, ids: seq<Id>, at: Time, after: nat, i: nat)
    requires |ms| == |ids| && i < |ms|
    ensures |Stamp(ExpireInputs(ms, ids, at), after)| == |ms|
    ensures Stamp(ExpireInputs(ms, ids, at), after)[i] == Envelope(after + 1 + i, ExpireInput(ms[i], ids[i], at))
  {
  }

  lemma ExpiryStep(t: Tables, e: Envelope, m: MemoryRecord, id: Id, at: Time)
    requires e.body == ExpireInput(m, id, at)
    ensures FoldStep(t, e) == t.(view := Close(t.view, e, m.memoryId, Expired))
    ensures Insertable(t, e)
  {
    hide Close, Deactivated;
  }

  /** The batch of an expiry sweep: every statement can run, and event i closes memory i. */
  lemma ExpireTaking(t: Tables, ms: seq<MemoryRecord>, ids: seq<Id>, at: Time, after: nat, i: nat)
    requires |ms| == |ids| && i < |ms|
    ensures var es := Stamp(ExpireInputs(ms, ids, at), after);
            && |es| == |ms|
            && es[i] == Envelope(after + 1 + i, ExpireInput(ms[i], ids[i], at))
            && Fold(t, es[..i + 1]) == Fold(t, es[..i]).(view := Close(Fold(t, es[..i]).view, es[i], ms[i].memoryId, Expired))
            && (InsertableAll(t, es[..i + 1]) <==> InsertableAll(t, es[..i]))
  {
    hide FoldStep, Insertable, Stamp, ExpireInputs, ExpireInput, Fold, InsertableAll, Close;
    var es := Stamp(ExpireInputs(ms, ids, at), after);
    ExpireEventAt(ms, ids, at, after, i);
    ExpiryStep(Fold(t, es[..i]), es[i], ms[i], ids[i], at);
    FoldNext(t, es, i);
  }

  lemma {:induction false} ExpireInsertable(t: Tables, ms: seq<MemoryRecord>, ids: seq<Id>, at: Time, after: nat, i: nat)
    requires |ms| == |ids| && i <= |ms|
    ensures |Stamp(ExpireInputs(ms, ids, at), after)| == |ms|
    ensures InsertableAll(t, Stamp(ExpireInputs(ms, ids, at), after)[..i])
  {
    if i > 0 {
      hide FoldStep, Insertable, ExpireInput, Fold, Close;
      ExpireInsertable(t, ms, ids, at, after, i - 1);
      ExpireTaking(t, ms, ids, at, after, i - 1);
    }
  }

  /** Where the revocation of a rescan stands in its batch, or the batch's length. */
  function RescanRows(p: RescanPlan): nat {
    if Revokes(p) then |RescanInputs(p)| - 1 else |RescanInputs(p)|
  }

  lemma RescanFindings(p: RescanPlan, after: nat)
    requires ResultsFor(p.candidate, p.verdicts, p.semantic, p.decision)
    ensures var es := Stamp(RescanInputs(p), after);
            && |es| == |RescanInputs(p)| >= 2 + |p.verdicts|
            && FindingEvents(es[..1 + |p.verdicts|], p.candidate, p.candidateEventId, p.verdicts)
  {
    hide Revokes, RevocationInput;
    var es := Stamp(RescanInputs(p), after);
    assert es[0].body == RescanInput(p, p.candidateEventId, OperatorActor, CandidateCreated(p.candidate));
    assert forall i :: 0 <= i < |p.verdicts| ==>
      es[1 + i].body == RescanInput(p, p.verdicts[i].eventId, DetectorActor, VerdictRecorded(p.verdicts[i].result));
  }

  lemma RescanJudgement(p: RescanPlan, after: nat)
    requires ResultsFor(p.candidate, p.verdicts, p.semantic, p.decision)
    ensures var es, n, k := Stamp(RescanInputs(p), after), 1 + |p.verdicts|, RescanRows(p);
            && n < k <= |es| && JudgementEvents(es[n..k], p.candidate, p.semantic, p.decision, p.decisionEventId)
            && (Revokes(p) ==> k + 1 == |es| && es[k] == Envelope(after + 1 + k, RevocationInput(p)))
  {
    hide Revokes;
    var es, n, k := Stamp(RescanInputs(p), after), 1 + |p.verdicts|, RescanRows(p);
    assert es[k - 1].body == RescanInput(p, p.decisionEventId, PolicyActor, DecisionRecorded(p.decision));
    assert es[n..k][k - 1 - n] == es[k - 1];
    assert p.semantic.Some? ==> es[n..k][0] == es[n];
  }

  lemma RescanEvents(p: RescanPlan, after: nat)
    requires ResultsFor(p.candidate, p.verdicts, p.semantic, p.decision)
    ensures var es, k := Stamp(RescanInputs(p), after), RescanRows(p);
            && k <= |es| == |RescanInputs(p)|
            && EvaluationEvents(es[..k], p.candidate, p.candidateEventId, p.verdicts, p.semantic, p.decision, p.decisionEventId)
            && (Revokes(p) ==> k + 1 == |es| && es[k] == Envelope(after + 1 + k, RevocationInput(p)))
            && (Revokes(p) ==> es[k].body.eventId == p.revocationEventId && es[k].body.memoryId == Some(p.target.memoryId))
  {
    hide Stamp, RescanInputs, FindingEvents, JudgementEvents, Revokes, RescanRows;
    RescanFindings(p, after);
    RescanJudgement(p, after);
    var es, n, k := Stamp(RescanInputs(p), after), 1 + |p.verdicts|, RescanRows(p);
    assert es[..k][..n] == es[..n] && es[..k][n..] == es[n..k];
  }

  lemma RevocationStep(t: Tables, e: Envelope, p: RescanPlan)
    requires e.body == RevocationInput(p)
    ensures FoldStep(t, e) == t.(view := Close(t.view, e, p.target.memoryId, Revoked))
    ensures Insertable(t, e) <==> p.target.memoryId in t.view.inventory
  {
    hide Close, Deactivated;
  }

  lemma RescanPolicies(s: State)
    ensures PolicyRowsOk(TablesOf(s).policies)
  {
    PolicyRowsFold(s.log);
  }

  lemma RescanAccepted(s: State, limits: Limits, p: RescanPlan)
    requires Offered(s, Rescan(p)) && ViewShape(TablesOf(s).view)
    ensures Inputs(s, limits, Rescan(p)) == RescanInputs(p) && QueueAfter(s, limits, Rescan(p)) == s.queue
    ensures ResultsFor(p.candidate, p.verdicts, p.semantic, p.decision)
    ensures PolicyRowsOk(TablesOf(s).policies)
    ensures Accepted(s, limits, Rescan(p)) <==>
            && FreshEvents(s.log, RescanInputs(p))
            && PolicyIsActive(TablesOf(s), p.decision)
            && p.target.memoryId in TablesOf(s).view.active && TablesOf(s).view.active[p.target.memoryId] == p.target
            && InsertableAll(TablesOf(s), Stamp(RescanInputs(p), |s.log|))
  {
    RescanPolicies(s);
    hide TablesOf, FreshEvents, InsertableAll, Stamp, RescanInputs, PreparedFrom, PolicyIsActive, PolicyRowsOk;
  }

  /** A rescan's batch: the evaluation rows, then at most one revocation. */
  lemma RescanTaking(t: Tables, p: RescanPlan, after: nat)
    requires ResultsFor(p.candidate, p.verdicts, p.semantic, p.decision)
    ensures var es, k := Stamp(RescanInputs(p), after), RescanRows(p);
            && k <= |es| == |RescanInputs(p)|
            && (InsertableAll(t, es) <==>
                InsertableAll(t, es[..k]) && (Revokes(p) ==> p.target.memoryId in Fold(t, es[..k]).view.inventory))
            && (Revokes(p) ==> k + 1 == |es|)
            && Fold(t, es) == if Revokes(p)
                              then Fold(t, es[..k]).(view := Close(Fold(t, es[..k]).view, es[k], p.target.memoryId, Revoked))
                              else Fold(t, es[..k])
  {
    RescanEvents(p, after);
    hide EvaluationEvents, RescanInputs, RevocationInput, Stamp, FoldStep, Insertable, Fold, InsertableAll, Close;
    var es, k := Stamp(RescanInputs(p), after), RescanRows(p);
    if Revokes(p) {
      assert es[..k + 1] == es;
      FoldNext(t, es, k);
      RevocationStep(Fold(t, es[..k]), es[k], p);
    } else {
      assert es[..k] == es;
    }
  }

  /** A later state of a memory closes into the same row as the state that was read. */
  lemma ClosesAlike(read: MemoryRecord, stored: MemoryRecord, status: MemoryStatus, e: Envelope)
    requires SameCore(read, stored)
    ensures Closed(read, status, e) == Closed(stored, status, e)
  {
  }

  class MemoryDatabase {
    const limits: Limits
    var log: seq<Envelope>
    var evidence: map<Id, EvidenceRow>
    var candidates: map<Id, CandidateRow>
    var verdicts: map<Id, VerdictRow>
    var assessments: map<Id, AssessmentRow>
    var decisions: map<Id, DecisionRow>
    var policies: map<PolicyRef, PolicyRow>
    var active: map<Id, MemoryRecord>
    var inventory: map<Id, MemoryRecord>
    var quarantined: map<Id, QuarantineRecord>
    var queue: map<Id, QueueRow>
    var working: Option<Id>
    ghost var enqueued: set<Id>
    ghost var direct: set<Id>
    ghost var memoryReads: set<MemoryRecord>
    ghost var quarantineReads: set<QuarantineRecord>

    function CurrentTables(): Tables
      reads this
    {
      Tables(evidence, candidates, verdicts, assessments, decisions, policies, View(active, inventory, quarantined))
    }

    ghost function Current(): State
      reads this
    {
      State(log, queue, enqueued, direct, working, memoryReads, quarantineReads)
    }

    /** The incremental tables equal the fold of the log, whatever was read when. */
    ghost predicate Valid()
      reads this
    {
      && CurrentTables() == TablesOf(Current())
      && Contiguous(log)
      && ViewInv(Current())
      && QueueKeysOk(Current())
    }

    constructor (limits: Limits)
      ensures Valid() && this.limits == limits && Current() == INITIAL
    {
      this.limits := limits;
      log, queue, working := [], map[], None;
      evidence, candidates, verdicts, assessments, decisions, policies := map[], map[], map[], map[], map[], map[];
      active, inventory, quarantined := map[], map[], map[];
      enqueued, direct, memoryReads, quarantineReads := {}, {}, {}, {};
    }

    /* ---------- Statements ---------- */

    method InsertEvents(inputs: seq<EventInput>) returns (ok: bool, envelopes: seq<Envelope>)
      requires Contiguous(log)
      modifies this`log
      ensures ok <==> FreshEvents(old(log), inputs)
      ensures ok ==> envelopes == Stamp(inputs, |old(log)|) && log == old(log) + envelopes && Contiguous(log)
    {
      hide Stamp, FreshEvents;
      envelopes := [];
      ghost var before := log;
      NoneStamped(before);
      for i := 0 to |inputs|
        invariant envelopes == Stamp(inputs[..i], |before|)
        invariant log == before + envelopes && Contiguous(log)
        invariant FreshEvents(before, inputs[..i])
      {
        FreshNext(before, inputs, i);
        StampNext(inputs, i, |before|);
        if k :| 0 <= k < |log| && log[k].body.eventId == inputs[i].eventId {
          if FreshEvents(before, inputs) { FreshPrefix(before, inputs, i + 1); }
          return false, envelopes;
        }
        var sequence := if log == [] then 0 else log[|log| - 1].sequence;
        log := log + [Envelope(sequence + 1, inputs[i])];
        envelopes := envelopes + [Envelope(sequence + 1, inputs[i])];
      }
      assert inputs[..|inputs|] == inputs;
      ok := true;
    }

    method InsertEvidence(r: EvidenceRecord, eventId: Id) returns (ok: bool)
      modifies this`evidence
      ensures ok <==> r.evidenceId !in old(evidence)
      ensures ok ==> evidence == old(evidence)[r.evidenceId := EvidenceRow(r, None, eventId)]
    {
      ok := r.evidenceId !in evidence;
      if ok { evidence := evidence[r.evidenceId := EvidenceRow(r, None, eventId)]; }
    }

    method InsertCandidate(c: Candidate, eventId: Id) returns (ok: bool)
      modifies this`candidates
      ensures ok <==> c.candidateId !in old(candidates)
      ensures ok ==> candidates == old(candidates)[c.candidateId := CandidateRowOf(c, eventId)]
    {
      ok := c.candidateId !in candidates;
      if ok {
        candidates := candidates[c.candidateId := CandidateRow(c, c.sessionId, c.namespace, c.kind, c.source, eventId)];
      }
    }

    method InsertVerdict(r: DetectorResult, candidateId: Id, eventId: Id) returns (ok: bool)
      modifies this`verdicts
      ensures ok <==> r.resultId !in old(verdicts)
      ensures ok ==> verdicts == old(verdicts)[r.resultId := VerdictRow(r, candidateId, eventId)]
    {
      ok := r.resultId !in verdicts;
      if ok { verdicts := verdicts[r.resultId := VerdictRow(r, candidateId, eventId)]; }
    }

    method InsertAssessment(a: Assessment, candidateId: Id, eventId: Id) returns (ok: bool)
      modifies this`assessments
      ensures ok <==> a.assessmentId !in old(assessments)
      ensures ok ==> assessments == old(assessments)[a.assessmentId := AssessmentRow(a, candidateId, eventId)]
    {
      ok := a.assessmentId !in assessments;
      if ok { assessments := assessments[a.assessmentId := AssessmentRow(a, candidateId, eventId)]; }
    }

    method InsertDecision(d: Decision, candidateId: Id, eventId: Id) returns (ok: bool)
      modifies this`decisions
      ensures ok <==> d.decisionId !in old(decisions)
      ensures ok ==> decisions == old(decisions)[d.decisionId := DecisionRow(d, candidateId, eventId)]
    {
      ok := d.decisionId !in decisions;
      if ok { decisions := decisions[d.decisionId := DecisionRow(d, candidateId, eventId)]; }
    }

    method InsertMemory(record: MemoryRecord) returns (ok: bool)
      modifies this`active, this`inventory
      ensures ok <==> record.memoryId !in old(active) && record.memoryId !in old(inventory)
      ensures ok ==> active == old(active)[record.memoryId := record] && inventory == old(inventory)[record.memoryId := record]
    {
      if record.memoryId in active { return false; }
      active := active[record.memoryId := record];
      if record.memoryId in inventory { return false; }
      inventory := inventory[record.memoryId := record];
      ok := true;
    }

    method InsertQuarantine(record: QuarantineRecord) returns (ok: bool)
      modifies this`quarantined
      ensures ok <==> record.candidateId !in old(quarantined)
      ensures ok ==> quarantined == old(quarantined)[record.candidateId := record]
    {
      ok := record.candidateId !in quarantined;
      if ok { quarantined := quarantined[record.candidateId := record]; }
    }

    /** DELETE from the active table, then UPDATE of the inventory row with a whole new record. */
    method CloseMemory(memoryId: Id, record: MemoryRecord) returns (rows: nat)
      modifies this`active, this`inventory
      ensures active == old(active) - {memoryId}
      ensures rows == if memoryId in old(inventory) then 1 else 0
      ensures inventory == if memoryId in old(inventory) then old(inventory)[memoryId := record] else old(inventory)
    {
      active := active - {memoryId};
      rows := 0;
      if memoryId in inventory {
        inventory := inventory[memoryId := record];
        rows := 1;
      }
    }

    /* ---------- Projectors ---------- */

    method InsertVerdicts(c: Candidate, verdictList: seq<Verdict>, ghost slice: seq<Envelope>) returns (ok: bool)
      requires |slice| == |verdictList|
      requires forall i :: 0 <= i < |slice| ==>
                 slice[i].body.payload == VerdictRecorded(verdictList[i].result)
                 && slice[i].body.eventId == verdictList[i].eventId
                 && verdictList[i].result.candidateId == c.candidateId
      modifies this`verdicts
      ensures ok <==> InsertableAll(old(CurrentTables()), slice)
      ensures ok ==> CurrentTables() == Fold(old(CurrentTables()), slice)
    {
      ghost var t := CurrentTables();
      for i := 0 to |verdictList|
        invariant InsertableAll(t, slice[..i]) && CurrentTables() == Fold(t, slice[..i])
      {
        FoldNext(t, slice, i);
        var inserted := InsertVerdict(verdictList[i].result, c.candidateId, verdictList[i].eventId);
        if !inserted {
          if InsertableAll(t, slice) { InsertablePrefix(t, slice, i + 1); }
          return false;
        }
      }
      assert slice[..|slice|] == slice;
      ok := true;
    }

    method ByEventId(envelopes: seq<Envelope>, id: Id, ghost at: nat) returns (e: Envelope)
      requires forall i, j :: 0 <= i < j < |envelopes| ==> envelopes[i].body.eventId != envelopes[j].body.eventId
      requires at < |envelopes| && envelopes[at].body.eventId == id
      ensures e == envelopes[at]
    {
      var i :| 0 <= i < |envelopes| && envelopes[i].body.eventId == id;
      e := envelopes[i];
    }

    /** The outcome part of a plan's projector: an admitted memory, a quarantine row, or nothing. */
    method ProjectOutcome(p: Plan, e: Envelope) returns (ok: bool)
      requires e.body == PlanInput(p, p.outcomeEventId, OutcomePayload(p))
      requires p.decision.actual == Block ==> p.candidate.candidateId !in quarantined
      modifies this`active, this`inventory, this`quarantined
      ensures ok <==> Insertable(old(CurrentTables()), e)
      ensures ok ==> CurrentTables() == FoldStep(old(CurrentTables()), e)
    {
      var d := p.decision;
      if PlanMemoryId(p).Some? {
        var status := if d.actual == Redact then Redacted else Active;
        var trust := if d.shadow then ShadowAdmitted else if d.actual == Redact then RedactedByPolicy else Allowed;
        ok := InsertMemory(MemoryRecord(
          p.memoryId, p.outcomeEventId, p.candidate.candidateId, p.candidate.sessionId, PlanContent(p), status, trust,
          Some(d.policy), d.actual, d.would, p.occurredAt, p.expiresAt, d.shadow, None, p.outcomeEventId, e.sequence));
      } else if d.actual == Quarantine {
        ok := InsertQuarantine(QuarantineRecord(
          p.candidate.candidateId, d.decisionId, PlanContent(p), Some(d.policy), p.outcomeEventId, p.occurredAt, d.would));
      } else {
        assert quarantined - {p.candidate.candidateId} == quarantined;
        ok := true;
      }
    }

    /** The candidate row and the verdict rows of one evaluation. */
    method InsertFindings(c: Candidate, eventId: Id, verdictList: seq<Verdict>, ghost es: seq<Envelope>) returns (ok: bool)
      requires FindingEvents(es, c, eventId, verdictList)
      modifies this`candidates, this`verdicts
      ensures ok <==> InsertableAll(old(CurrentTables()), es)
      ensures ok ==> CurrentTables() == Fold(old(CurrentTables()), es)
    {
      hide Fold, InsertableAll;
      SplitFirst(CurrentTables(), es);
      ok := InsertCandidate(c, eventId);
      if ok {
        ok := InsertVerdicts(c, verdictList, es[1..]);
      }
    }

    /** The assessment row, when there is one, and the decision row. */
    method InsertJudgement(c: Candidate, semantic: Option<SemanticVerdict>, d: Decision, eventId: Id, ghost es: seq<Envelope>)
      returns (ok: bool)
      requires JudgementEvents(es, c, semantic, d, eventId)
      modifies this`assessments, this`decisions
      ensures ok <==> InsertableAll(old(CurrentTables()), es)
      ensures ok ==> CurrentTables() == Fold(old(CurrentTables()), es)
    {
      hide Fold, InsertableAll;
      SplitLast(CurrentTables(), es);
      ghost var first := es[..|es| - 1];
      FoldNone(CurrentTables());
      if semantic.Some? {
        SplitFirst(CurrentTables(), first);
        assert first[1..] == [];
        FoldNone(FoldStep(CurrentTables(), first[0]));
        ok := InsertAssessment(semantic.value.assessment, c.candidateId, semantic.value.eventId);
        if !ok { return; }
      }
      ok := InsertDecision(d, c.candidateId, eventId);
    }

    /** Everything an evaluation writes before its outcome. */
    method InsertEvaluation(c: Candidate, candidateEventId: Id, verdictList: seq<Verdict>, semantic: Option<SemanticVerdict>,
                            d: Decision, decisionEventId: Id, ghost es: seq<Envelope>)
      returns (ok: bool)
      requires EvaluationEvents(es, c, candidateEventId, verdictList, semantic, d, decisionEventId)
      modifies this`candidates, this`verdicts, this`assessments, this`decisions
      ensures ok <==> InsertableAll(old(CurrentTables()), es)
      ensures ok ==> CurrentTables() == Fold(old(CurrentTables()), es)
    {
      ghost var k := 1 + |verdictList|;
      assert es[..k] + es[k..] == es;
      FoldConcat(CurrentTables(), es[..k], es[k..]);
      ok := InsertFindings(c, candidateEventId, verdictList, es[..k]);
      if ok {
        ok := InsertJudgement(c, semantic, d, decisionEventId, es[k..]);
      }
    }

    /** One plan's projector, statement by statement, is the fold of the plan's events. */
    method ProjectPlan(p: Plan, envelopes: seq<Envelope>, ghost offset: nat, ghost es: seq<Envelope>) returns (ok: bool)
      requires ViewOk(CurrentTables())
      requires PlanSlice(es, p)
      requires forall i, j :: 0 <= i < j < |envelopes| ==> envelopes[i].body.eventId != envelopes[j].body.eventId
      requires offset + |es| <= |envelopes| && envelopes[offset + |es| - 1] == es[|es| - 1]
      modifies this`candidates, this`verdicts, this`assessments, this`decisions, this`active, this`inventory, this`quarantined
      ensures ok <==> InsertableAll(old(CurrentTables()), es)
      ensures ok ==> CurrentTables() == Fold(old(CurrentTables()), es)
    {
      ghost var last := |es| - 1;
      SplitLast(CurrentTables(), es);
      FirstInsert(CurrentTables(), es[..last]);
      assert es[..last][0].body.payload == CandidateCreated(p.candidate);
      hide FoldStep, EvaluationEvents, Fold, InsertableAll, ViewShape;
      ok := InsertEvaluation(p.candidate, p.candidateEventId, p.verdicts, p.semantic, p.decision, p.decisionEventId, es[..last]);
      if ok {
        var e := ByEventId(envelopes, p.outcomeEventId, offset + last);
        ok := ProjectOutcome(p, e);
      }
    }

    method ProjectPlans(plans: seq<Plan>, envelopes: seq<Envelope>, ghost after: nat) returns (ok: bool)
      requires ViewOk(CurrentTables())
      requires forall p <- plans :: ResultsFor(p.candidate, p.verdicts, p.semantic, p.decision)
      requires forall i, j :: 0 <= i < j < |envelopes| ==> envelopes[i].body.eventId != envelopes[j].body.eventId
      requires Stamp(PlansInputs(plans), after) <= envelopes
      modifies this`candidates, this`verdicts, this`assessments, this`decisions, this`active, this`inventory, this`quarantined
      ensures ok <==> InsertableAll(old(CurrentTables()), Stamp(PlansInputs(plans), after))
      ensures ok ==> CurrentTables() == Fold(old(CurrentTables()), Stamp(PlansInputs(plans), after))
    {
      ghost var t := CurrentTables();
      TakenEnds(t, plans, after);
      hide Taken, ViewOk, Fold, InsertableAll, PlanSlice, Stamp, PlansInputs, FoldStep;
      for j := 0 to |plans|
        invariant CurrentTables() == Fold(t, Taken(plans, j, after))
        invariant InsertableAll(t, Taken(plans, j, after))
        invariant ViewOk(CurrentTables())
      {
        ghost var es := PlanTurn(t, plans, j, after, envelopes);
        ok := ProjectPlan(plans[j], envelopes, |Taken(plans, j, after)|, es);
        if !ok { return; }
      }
      ok := true;
    }

    /* ---------- Appends: events, projector, commit or rollback ---------- */

    function Saved(): Snapshot
      reads this
    {
      Snapshot(log, CurrentTables(), queue)
    }

    method Rollback(saved: Snapshot)
      modifies this`log, this`evidence, this`candidates, this`verdicts, this`assessments, this`decisions, this`policies,
               this`active, this`inventory, this`quarantined, this`queue
      ensures Saved() == saved
    {
      log, queue := saved.log, saved.queue;
      evidence, candidates, verdicts := saved.tables.evidence, saved.tables.candidates, saved.tables.verdicts;
      assessments, decisions, policies := saved.tables.assessments, saved.tables.decisions, saved.tables.policies;
      active, inventory, quarantined := saved.tables.view.active, saved.tables.view.inventory, saved.tables.view.quarantine;
    }

    /** What a command's statements leave behind when none of them fails. */
    ghost predicate Staged(s: State, c: Command)
      requires Offered(s, c)
      reads this
    {
      && log == s.log + Stamp(Inputs(s, limits, c), |s.log|)
      && CurrentTables() == Fold(TablesOf(s), Stamp(Inputs(s, limits, c), |s.log|))
      && queue == QueueAfter(s, limits, c)
    }

    method StageCapture(record: EvidenceRecord, eventId: Id, actor: Actor, queued: Option<string>) returns (ok: bool)
      requires Valid() && Offered(Current(), Capture(record, eventId, actor, queued))
      modifies this`log, this`evidence, this`queue
      ensures ok <==> Accepted(old(Current()), limits, Capture(record, eventId, actor, queued))
      ensures ok ==> Staged(old(Current()), Capture(record, eventId, actor, queued))
    {
      hide Offered, Accepted, TablesOf, ViewInv, QueueKeysOk, FreshEvents, HasRoom, Fold, Stamp, Inputs;
      CaptureTaking(Current(), limits, record, eventId, actor, queued);
      var envelopes;
      ok, envelopes := InsertEvents([CaptureInput(record, eventId, actor)]);
      if ok {
        ok := InsertEvidence(record, eventId);
      }
      if ok && queued.Some? {
        ok := Enqueue(record, queued.value);
      }
    }

    /** The capacity test and the insert of the pending row. */
    method Enqueue(record: EvidenceRecord, content: string) returns (ok: bool)
      modifies this`queue
      ensures ok <==> HasRoom(old(queue), limits, content) && record.evidenceId !in old(queue)
      ensures ok ==> queue == old(queue)[record.evidenceId := NewRow(record, content)]
    {
      var items, bytes := PendingTotals(queue);
      if items >= limits.maxItems || bytes + Utf8Length(content) > limits.maxBytes || record.evidenceId in queue {
        return false;
      }
      queue := queue[record.evidenceId := NewRow(record, content)];
      ok := true;
    }

    method StageEvaluation(evidenceId: Id, plans: seq<Plan>, terminal: Option<EventInput>, drain: bool) returns (ok: bool)
      requires Valid() && Offered(Current(), Evaluate(evidenceId, plans, terminal, drain))
      modifies this`log, this`candidates, this`verdicts, this`assessments, this`decisions,
               this`active, this`inventory, this`quarantined, this`queue
      ensures ok <==> Accepted(old(Current()), limits, Evaluate(evidenceId, plans, terminal, drain))
      ensures ok ==> Staged(old(Current()), Evaluate(evidenceId, plans, terminal, drain))
    {
      hide Offered, Accepted, TablesOf, ReadsOk, ViewOk, QueueKeysOk, FreshEvents, Fold, InsertableAll, Stamp, Inputs,
           EvaluationInputs, PlansInputs;
      EvaluateTaking(Current(), limits, evidenceId, plans, terminal, drain);
      ghost var after := |log|;
      var inputs := EvaluationInputs(plans, terminal);
      var envelopes;
      ok, envelopes := InsertEvents(inputs);
      if ok {
        FreshStamped(old(log), inputs);
        ok := ProjectPlans(plans, envelopes, after);
      }
      if ok && drain {
        ok := evidenceId in queue;
        queue := queue - {evidenceId};
      }
    }

    method StageCompletion(evidenceId: Id, eventId: Id, at: Time) returns (ok: bool)
      requires Valid() && Offered(Current(), Complete(evidenceId, eventId, at))
      modifies this`log, this`queue
      ensures ok <==> Accepted(old(Current()), limits, Complete(evidenceId, eventId, at))
      ensures ok ==> Staged(old(Current()), Complete(evidenceId, eventId, at))
    {
      hide TablesOf, ViewInv, QueueKeysOk, FreshEvents, Fold, InsertableAll, Stamp;
      assert evidenceId in evidence;
      var input := WorkerInput(evidence[evidenceId].record, eventId, at, EvaluationCompleted(evidenceId, 0));
      WorkerTaking(Current(), limits, Complete(evidenceId, eventId, at), input);
      var envelopes;
      ok, envelopes := InsertEvents([input]);
      if ok {
        ok := evidenceId in queue && queue[evidenceId].phase.Pending?;
        queue := queue - {evidenceId};
      }
    }

    method StageFailure(evidenceId: Id, eventId: Id, error: ErrorCode, at: Time, force: bool) returns (ok: bool)
      requires Valid() && Offered(Current(), Fail(evidenceId, eventId, error, at, force))
      modifies this`log, this`queue
      ensures ok <==> Accepted(old(Current()), limits, Fail(evidenceId, eventId, error, at, force))
      ensures ok ==> Staged(old(Current()), Fail(evidenceId, eventId, error, at, force))
    {
      hide TablesOf, ViewInv, QueueKeysOk, FreshEvents, Fold, InsertableAll;
      ghost var s, c := Current(), Fail(evidenceId, eventId, error, at, force);
      if evidenceId !in queue || queue[evidenceId].phase.Failed? {
        return false;
      }
      var row := queue[evidenceId];
      if EndsRow(row, limits, at, force) {
        assert evidenceId in evidence;
        var input := WorkerInput(evidence[evidenceId].record, eventId, at,
                                 EvaluationFailed(evidenceId, error, row.attempts + 1, true));
        WorkerTaking(s, limits, c, input);
        var envelopes;
        ok, envelopes := InsertEvents([input]);
        queue := queue[evidenceId := FailedRow(row, error, at, eventId)];
      } else {
        EmptyBatch(TablesOf(s), log);
        queue := queue[evidenceId := RetriedRow(row, error, at)];
        ok := true;
      }
    }

    method StageApproval(target: QuarantineRecord, memoryId: Id, eventId: Id, reason: string, at: Time) returns (ok: bool)
      requires Valid() && Offered(Current(), Approve(target, memoryId, eventId, reason, at))
      modifies this`log, this`active, this`inventory, this`quarantined
      ensures ok <==> Accepted(old(Current()), limits, Approve(target, memoryId, eventId, reason, at))
      ensures ok ==> Staged(old(Current()), Approve(target, memoryId, eventId, reason, at))
    {
      hide TablesOf, ViewInv, QueueKeysOk, FreshEvents, Fold, InsertableAll, Stamp, Accepted, Inputs;
      ApproveTaking(Current(), limits, target, memoryId, eventId, reason, at);
      var row := candidates[target.candidateId];
      var envelopes;
      ok, envelopes := InsertEvents([ApproveInput(target, row, memoryId, eventId, reason, at)]);
      if ok {
        ok := InsertMemory(MemoryRecord(
          memoryId, eventId, target.candidateId, row.record.sessionId, target.content, Active, ManuallyApproved,
          target.policy, Allow, target.would, at, None, false, Some(eventId), eventId, envelopes[0].sequence));
        quarantined := quarantined - {target.candidateId};
      }
    }

    method StageBlock(target: QuarantineRecord, eventId: Id, reason: string, at: Time) returns (ok: bool)
      requires Valid() && Offered(Current(), BlockCandidate(target, eventId, reason, at))
      modifies this`log, this`quarantined
      ensures ok <==> Accepted(old(Current()), limits, BlockCandidate(target, eventId, reason, at))
      ensures ok ==> Staged(old(Current()), BlockCandidate(target, eventId, reason, at))
    {
      hide TablesOf, ViewInv, QueueKeysOk, FreshEvents, Fold, InsertableAll, Stamp;
      var input := BlockInput(target, eventId, reason, at);
      ViewTaking(Current(), limits, BlockCandidate(target, eventId, reason, at), input);
      var envelopes;
      ok, envelopes := InsertEvents([input]);
      quarantined := quarantined - {target.candidateId};
    }

    method StageRevocation(target: MemoryRecord, eventId: Id, reason: string, at: Time) returns (ok: bool)
      requires Valid() && Offered(Current(), Revoke(target, eventId, reason, at))
      modifies this`log, this`active, this`inventory
      ensures ok <==> Accepted(old(Current()), limits, Revoke(target, eventId, reason, at))
      ensures ok ==> Staged(old(Current()), Revoke(target, eventId, reason, at))
    {
      hide TablesOf, ViewOk, QueueKeysOk, FreshEvents, Fold, InsertableAll, Stamp;
      var input := RevokeInput(target, eventId, reason, at);
      ViewTaking(Current(), limits, Revoke(target, eventId, reason, at), input);
      var envelopes;
      ok, envelopes := InsertEvents([input]);
      if ok {
        var revoked := target.(status := Revoked, lastEventId := eventId, lastSequence := envelopes[0].sequence);
        var rows := CloseMemory(target.memoryId, revoked);
        ok := rows == 1;
      }
    }

    method StageRejection(stream: Id, eventId: Id, reason: string, at: Time) returns (ok: bool)
      requires Valid() && Offered(Current(), Reject(stream, eventId, reason, at))
      modifies this`log
      ensures ok <==> Accepted(old(Current()), limits, Reject(stream, eventId, reason, at))
      ensures ok ==> Staged(old(Current()), Reject(stream, eventId, reason, at))
    {
      hide TablesOf, ViewInv, QueueKeysOk, FreshEvents, Fold, InsertableAll, Stamp;
      var input := RejectInput(stream, eventId, reason, at);
      WorkerTaking(Current(), limits, Reject(stream, eventId, reason, at), input);
      var envelopes;
      ok, envelopes := InsertEvents([input]);
    }

    /** All rows are cleared, then the activated document's row is inserted or set. */
    method StageActivation(document: PolicyDocument, eventId: Id, at: Time) returns (ok: bool)
      requires Valid() && Offered(Current(), Activate(document, eventId, at))
      modifies this`log, this`policies
      ensures ok <==> Accepted(old(Current()), limits, Activate(document, eventId, at))
      ensures ok ==> Staged(old(Current()), Activate(document, eventId, at))
    {
      hide TablesOf, ViewInv, QueueKeysOk, FreshEvents, Stamp, Fold, Accepted, Inputs;
      var input := ActivateInput(document, eventId, at);
      ActivateTaking(Current(), limits, document, eventId, at);
      var envelopes;
      ok, envelopes := InsertEvents([input]);
      if ok {
        policies := Deactivated(policies);
        if document.ref in policies && policies[document.ref].digest != PolicyDigest(document) {
          return false;
        }
        if document.ref !in policies {
          policies := policies[document.ref := PolicyRow(document, PolicyDigest(document), eventId, true)];
        } else {
          policies := policies[document.ref := policies[document.ref].(active := true, activationEventId := eventId)];
        }
      }
    }

    method ActivePolicy() returns (row: Option<PolicyRow>)
      requires PolicyRowsOk(policies)
      ensures row.Some? ==> exists r :: r in policies && policies[r].active && policies[r] == row.value
      ensures row.None? ==> forall r :: r in policies ==> !policies[r].active
    {
      if r :| r in policies && policies[r].active {
        return Some(policies[r]);
      }
      row := None;
    }

    /** The revocation that compares the row it removes with the record that was read. */
    method RevokeUnchanged(target: MemoryRecord, envelopes: seq<Envelope>, eventId: Id, ghost k: nat) returns (ok: bool)
      requires target.memoryId in active && active[target.memoryId] == target
      requires forall i, j :: 0 <= i < j < |envelopes| ==> envelopes[i].body.eventId != envelopes[j].body.eventId
      requires k < |envelopes| && envelopes[k].body.eventId == eventId
      requires envelopes[k].body.memoryId == Some(target.memoryId)
      modifies this`active, this`inventory
      ensures target.memoryId in old(inventory) && old(inventory)[target.memoryId] == target ==> ok
      ensures ok ==> target.memoryId in old(inventory)
      ensures ok && old(inventory)[target.memoryId] == target ==>
                View(active, inventory, quarantined) == Close(old(CurrentTables()).view, envelopes[k], target.memoryId, Revoked)
    {
      var e := ByEventId(envelopes, eventId, k);
      var id := target.memoryId;
      if active[id].candidateId != target.candidateId || active[id].lastSequence != target.lastSequence {
        return false;
      }
      active := active - {id};
      if id !in inventory || inventory[id].candidateId != target.candidateId || inventory[id].lastSequence != target.lastSequence {
        return false;
      }
      inventory := inventory[id := target.(status := Revoked, lastEventId := e.body.eventId, lastSequence := e.sequence)];
      ok := true;
    }

    /** What a rescan compares before it writes: the active policy and the stored record. */
    method RescanUnchanged(target: MemoryRecord, d: Decision) returns (ok: bool)
      requires PolicyRowsOk(policies)
      ensures ok <==> PolicyIsActive(CurrentTables(), d) && target.memoryId in active && active[target.memoryId] == target
    {
      var row := ActivePolicy();
      ok := && row.Some? && row.value.document.ref == d.policy && row.value.digest == d.policyDigest
            && target.memoryId in active && active[target.memoryId] == target;
    }

    /** The rows of a rescan, written once the comparison has succeeded. */
    method ProjectRescan(p: RescanPlan, envelopes: seq<Envelope>, ghost after: nat) returns (ok: bool)
      requires ResultsFor(p.candidate, p.verdicts, p.semantic, p.decision)
      requires ViewShape(CurrentTables().view)
      requires p.target.memoryId in active && active[p.target.memoryId] == p.target
      requires envelopes == Stamp(RescanInputs(p), after)
      requires forall i, j :: 0 <= i < j < |envelopes| ==> envelopes[i].body.eventId != envelopes[j].body.eventId
      modifies this`candidates, this`verdicts, this`assessments, this`decisions, this`active, this`inventory
      ensures ok <==> InsertableAll(old(CurrentTables()), envelopes)
      ensures ok ==> CurrentTables() == Fold(old(CurrentTables()), envelopes)
    {
      hide EvaluationEvents, RescanInputs, RevocationInput, RescanRows, Stamp, FoldStep, Insertable, Fold, InsertableAll, Close,
           ResultsFor;
      RescanTaking(CurrentTables(), p, after);
      RescanEvents(p, after);
      ghost var k := RescanRows(p);
      ok := InsertEvaluation(p.candidate, p.candidateEventId, p.verdicts, p.semantic, p.decision, p.decisionEventId, envelopes[..k]);
      if ok && Revokes(p) {
        ok := RevokeUnchanged(p.target, envelopes, p.revocationEventId, k);
      }
    }

    /** The compare-and-set projector of a rescan. */
    method StageRescan(p: RescanPlan) returns (ok: bool)
      requires Valid() && Offered(Current(), Rescan(p))
      modifies this`log, this`candidates, this`verdicts, this`assessments, this`decisions, this`active, this`inventory
      ensures ok <==> Accepted(old(Current()), limits, Rescan(p))
      ensures ok ==> Staged(old(Current()), Rescan(p))
    {
      hide TablesOf, ViewGrounded, QueueKeysOk, FreshEvents, Fold, InsertableAll, Stamp, RescanInputs, PreparedFrom, ResultsFor,
           PolicyRowsOk, ReadsOk, Accepted, Offered, Inputs, QueueAfter, Insertable, FoldStep;
      RescanAccepted(Current(), limits, p);
      ghost var after := |log|;
      var inputs := RescanInputs(p);
      var envelopes;
      ok, envelopes := InsertEvents(inputs);
      if ok {
        FreshStamped(old(log), inputs);
        ok := RescanUnchanged(p.target, p.decision);
      }
      if ok {
        ok := ProjectRescan(p, envelopes, after);
      }
    }

    /** Each due memory is removed and its inventory row rewritten from the record that was read. */
    method CloseExpired(due: seq<MemoryRecord>, ids: seq<Id>, at: Time, envelopes: seq<Envelope>, ghost t: Tables, ghost after: nat)
      requires |due| == |ids| && CurrentTables() == t
      requires envelopes == Stamp(ExpireInputs(due, ids, at), after)
      requires forall m <- due :: m.memoryId in inventory && SameCore(m, inventory[m.memoryId])
      modifies this`active, this`inventory
      ensures CurrentTables() == Fold(t, envelopes)
    {
      hide Fold, FoldStep, InsertableAll, Stamp, ExpireInputs;
      StampLength(ExpireInputs(due, ids, at), after);
      assert CurrentTables() == Fold(t, envelopes[..0]) by { NothingFolded(t, envelopes); }
      for i := 0 to |due|
        invariant CurrentTables() == Fold(t, envelopes[..i])
        invariant forall m <- due :: m.memoryId in inventory && SameCore(m, inventory[m.memoryId])
      {
        ExpireTaking(t, due, ids, at, after, i);
        var record := due[i];
        ghost var stored := inventory[record.memoryId];
        var expired := record.(status := Expired, lastEventId := envelopes[i].body.eventId, lastSequence := envelopes[i].sequence);
        var _ := CloseMemory(record.memoryId, expired);
        ClosesAlike(record, stored, Expired, envelopes[i]);
      }
      assert envelopes[..|due|] == envelopes;
    }

    method StageExpiry(due: seq<MemoryRecord>, ids: seq<Id>, at: Time) returns (ok: bool)
      requires Valid() && Offered(Current(), Expire(due, ids, at))
      modifies this`log, this`active, this`inventory
      ensures ok <==> Accepted(old(Current()), limits, Expire(due, ids, at))
      ensures ok ==> Staged(old(Current()), Expire(due, ids, at))
    {
      hide TablesOf, ViewOk, QueueKeysOk, FreshEvents, Fold, InsertableAll, Stamp;
      ghost var t, after := CurrentTables(), |log|;
      var inputs := ExpireInputs(due, ids, at);
      assert InsertableAll(t, Stamp(inputs, after)) by {
        ExpireInsertable(t, due, ids, at, after, |due|);
        StampLength(inputs, after);
      }
      var envelopes;
      ok, envelopes := InsertEvents(inputs);
      if ok {
        CloseExpired(due, ids, at, envelopes, t, after);
      }
    }

    /** One append: the command's statements, stopping at the first that fails. */
    method Stage(c: Command) returns (ok: bool)
      requires Valid() && Offered(Current(), c)
      modifies this`log, this`evidence, this`candidates, this`verdicts, this`assessments, this`decisions, this`policies,
               this`active, this`inventory, this`quarantined, this`queue
      ensures ok <==> Accepted(old(Current()), limits, c)
      ensures ok ==> Staged(old(Current()), c)
    {
      hide Offered, Accepted, Staged, TablesOf, ViewInv, QueueKeysOk, Contiguous;
      match c {
        case Capture(record, eventId, actor, queued) => ok := StageCapture(record, eventId, actor, queued);
        case Evaluate(evidenceId, plans, terminal, drain) => ok := StageEvaluation(evidenceId, plans, terminal, drain);
        case Complete(evidenceId, eventId, at) => ok := StageCompletion(evidenceId, eventId, at);
        case Fail(evidenceId, eventId, error, at, force) => ok := StageFailure(evidenceId, eventId, error, at, force);
        case Approve(target, memoryId, eventId, reason, at) => ok := StageApproval(target, memoryId, eventId, reason, at);
        case BlockCandidate(target, eventId, reason, at) => ok := StageBlock(target, eventId, reason, at);
        case Revoke(target, eventId, reason, at) => ok := StageRevocation(target, eventId, reason, at);
        case Expire(targets, eventIds, at) => ok := StageExpiry(targets, eventIds, at);
        case Rescan(p) => ok := StageRescan(p);
        case Activate(document, eventId, at) => ok := StageActivation(document, eventId, at);
        case Reject(stream, eventId, reason, at) => ok := StageRejection(stream, eventId, reason, at);
        case _ => StageNothing(c); ok := true;
      }
    }

    /** Reads and lock changes append nothing. */
    lemma StageNothing(c: Command)
      requires Valid() && Offered(Current(), c)
      requires c.ReadMemory? || c.ReadQuarantine? || c.Claim? || c.Release?
      ensures Accepted(Current(), limits, c) && Staged(Current(), c)
    {
      hide Offered, TablesOf, ViewInv, QueueKeysOk, FreshEvents, InsertableAll, Fold, Stamp;
      EmptyBatch(TablesOf(Current()), log);
    }

    /** The append as its caller sees it: all of the command's effect, or none of it. */
    method Append(c: Command) returns (ok: bool)
      requires Valid() && Offered(Current(), c)
      modifies this
      ensures Valid()
      ensures ok <==> Accepted(old(Current()), limits, c)
      ensures Current() == Next(old(Current()), limits, c)
    {
      hide Offered, Accepted, TablesOf, ViewInv, QueueKeysOk, Contiguous, Inputs, Stamp, Fold, QueueAfter, WorkingAfter,
           EnqueuedAfter, DirectAfter, MemoryReadsAfter, QuarantineReadsAfter, Next;
      ghost var s := Current();
      Taking(s, limits, c);
      var saved := Saved();
      ok := Stage(c);
      if ok {
        working := WorkingAfter(working, c);
        enqueued, direct := EnqueuedAfter(s, c), DirectAfter(s, c);
        memoryReads, quarantineReads := MemoryReadsAfter(s, c), QuarantineReadsAfter(s, c);
        Lands(s, limits, c, CurrentTables());
      } else {
        Rollback(saved);
      }
    }

    /** A whole run of the service. */
    method Serve(cs: seq<Command>)
      requires Valid()
      requires forall k :: 0 <= k < |cs| ==> Offered(Run(Current(), limits, cs[..k]), cs[k])
      modifies this
      ensures Valid() && Current() == Run(old(Current()), limits, cs)
      ensures View(active, inventory, quarantined) == ReplayLog(log)
    {
      hide Offered, Next, Valid;
      ghost var s := Current();
      for k := 0 to |cs|
        invariant Valid() && Current() == Run(s, limits, cs[..k])
      {
        assert cs[..k + 1][..k] == cs[..k];
        var _ := Append(cs[k]);
      }
      assert cs[..|cs|] == cs;
      TablesAreReplay();
    }

    /** The three memory tables, edited in place by every projector, are what the verifier replays from the log. */
    lemma TablesAreReplay()
      requires Valid()
      ensures View(active, inventory, quarantined) == ReplayLog(log)
    {
      hide ViewInv, QueueKeysOk;
      FoldViewIsReplay(log);
      assert CurrentTables().view == View(active, inventory, quarantined);
    }
  }
}
