/** Where every enqueued identifier is: pending, failed with its one signed failure, or drained
    with its one completion or a full set of outcomes. */
module Conservation {
  import opened Domain
  import opened Projection
  import opened Ledger
  import opened Queue
  import opened SignedLog
  import opened History

  /* ---------- The queue's own rules ---------- */

  predicate RowOk(row: QueueRow, record: EvidenceRecord, limits: Limits) {
    && row.digest == record.sanitizedDigest && row.enqueuedAt == record.capturedAt
    && (row.phase.Pending? && limits.maxAttempts > 0 ==> row.attempts < limits.maxAttempts)
  }

  ghost predicate WithinLimits(queue: map<Id, QueueRow>, limits: Limits) {
    |PendingIds(queue)| <= limits.maxItems && PendingBytes(queue) <= limits.maxBytes
  }

  ghost predicate QueueInv(s: State, limits: Limits) {
    var captures := CapturesOf(s.log);
    && s.enqueued <= captures.Keys && s.direct <= captures.Keys && s.enqueued !! s.direct
    && s.queue.Keys <= s.enqueued
    && (s.working.Some? ==> IsPending(s, s.working.value))
    && (forall id :: id in s.queue ==> RowOk(s.queue[id], captures[id].record, limits))
    && WithinLimits(s.queue, limits)
  }

  /* ---------- What the log says about one enqueued identifier ---------- */

  predicate FailureOf(e: Envelope, id: Id, row: QueueRow) {
    && row.phase.Failed? && row.lastError.Some?
    && e.body.payload == EvaluationFailed(id, row.lastError.value, row.attempts, true)
    && e.body.eventId == row.phase.terminalEventId
    && e.body.occurredAt == row.phase.failedAt == row.nextAttemptAt
  }

  /** One batch drained the row: its plans' events stand together in the log, and only rescans came later. */
  ghost predicate DrainedBy(log: seq<Envelope>, cases: seq<Case>, plans: seq<Plan>, after: nat, rescans: seq<Case>) {
    && plans != [] && cases == PlansCases(plans, after) + rescans && (forall c <- rescans :: c.Rescanned?)
    && after + |PlansInputs(plans)| <= |log|
    && log[after..after + |PlansInputs(plans)|] == Stamp(PlansInputs(plans), after)
  }

  ghost predicate Drained(log: seq<Envelope>, cases: seq<Case>) {
    exists plans, after: nat, rescans :: DrainedBy(log, cases, plans, after, rescans)
  }

  ghost predicate Phased(s: State, id: Id, cases: seq<Case>) {
    var failures, completions := Select(s.log, FailureKind, id), Select(s.log, CompletionKind, id);
    if id in s.queue then
      && cases == [] && completions == []
      && if s.queue[id].phase.Pending? then failures == [] else |failures| == 1 && FailureOf(failures[0], id, s.queue[id])
    else
      && failures == []
      && if completions == [] then Drained(s.log, cases) else |completions| == 1 && cases == []
  }

  ghost predicate Accounted(s: State, id: Id) {
    exists cases :: Explains(cases, s.log, id) && Phased(s, id, cases)
  }

  ghost predicate AllAccounted(s: State) {
    forall id :: id in s.enqueued ==> Accounted(s, id)
  }

  /* ---------- Steps on the queue's own rules ---------- */

  lemma CapturesGrow(s: State, limits: Limits, c: Command)
    requires LogInv(s) && Offered(s, c) && Accepted(s, limits, c)
    ensures c.Capture? ==> CapturesOf(Committed(s, limits, c).log) == CapturesOf(s.log)[c.record.evidenceId := EvidenceRow(c.record, None, c.eventId)]
    ensures c.Capture? ==> c.record.evidenceId !in CapturesOf(s.log)
    ensures !c.Capture? ==> CapturesOf(Committed(s, limits, c).log) == CapturesOf(s.log)
  {
    hide Offered, Accepted, LogInv, Inputs, CapturesOf, Signed;
    var es := Stamp(Inputs(s, limits, c), |s.log|);
    if c.Capture? {
      CaptureIsNew(s, limits, c);
      LogRows(s);
      CapturedRow(s.log, es[0]);
      assert es == [es[0]];
    } else {
      InputsSigned(s, limits, c);
      QuietCaptures(s.log, es);
    }
  }

  lemma CapturedRow(log: seq<Envelope>, e: Envelope)
    ensures CapturesOf(log + [e]) == EvidenceStep(CapturesOf(log), e.body)
  {
    assert (log + [e])[..|log|] == log;
  }

  lemma LimitsKept(s: State, limits: Limits, c: Command)
    requires QueueInv(s, limits) && LogInv(s) && Offered(s, c) && Accepted(s, limits, c)
    ensures WithinLimits(QueueAfter(s, limits, c), limits)
  {
    hide LogInv, TablesOf, Inputs, InsertableAll, FreshEvents, CapturesOf, EndsRow, SizeOf;
    var q' := QueueAfter(s, limits, c);
    if c.Capture? && c.queued.Some? {
      CaptureIsNew(s, limits, c);
      LogRows(s);
      BytesAfterInsert(s.queue, c.record.evidenceId, NewRow(c.record, c.queued.value));
    } else if (c.Evaluate? && c.drain) || c.Complete? {
      assert PendingIds(q') == PendingIds(s.queue) - {c.evidenceId};
      BytesAfterLeaving(s.queue, q', c.evidenceId);
    } else if c.Fail? {
      if EndsRow(s.queue[c.evidenceId], limits, c.at, c.force) {
        assert PendingIds(q') == PendingIds(s.queue) - {c.evidenceId};
        BytesAfterLeaving(s.queue, q', c.evidenceId);
      } else {
        assert PendingIds(q') == PendingIds(s.queue);
        SizeOfSame(q', s.queue, PendingIds(s.queue));
      }
    }
  }

  lemma RowsKept(s: State, limits: Limits, c: Command)
    requires QueueInv(s, limits) && LogInv(s) && Offered(s, c) && Accepted(s, limits, c)
    ensures var captures := CapturesOf(Committed(s, limits, c).log);
            forall id :: id in QueueAfter(s, limits, c) ==>
              id in captures && RowOk(QueueAfter(s, limits, c)[id], captures[id].record, limits)
  {
    hide LogInv, TablesOf, Inputs, InsertableAll, FreshEvents, CapturesOf, WithinLimits, HasRoom, Stamp;
    CapturesGrow(s, limits, c);
  }

  /** Items, bytes, attempts, digests and the worker's claim are kept by every step. */
  lemma StepKeepsQueueInv(s: State, limits: Limits, c: Command)
    requires QueueInv(s, limits) && LogInv(s)
    ensures QueueInv(Next(s, limits, c), limits)
  {
    hide LogInv, TablesOf, Inputs, InsertableAll, FreshEvents, CapturesOf, WithinLimits, HasRoom, RowOk, Stamp;
    if Offered(s, c) && Accepted(s, limits, c) {
      CapturesGrow(s, limits, c);
      LimitsKept(s, limits, c);
      RowsKept(s, limits, c);
    }
  }

  /* ---------- Which operations speak about an identifier ---------- */

  lemma {:induction false} NeverMentioned(log: seq<Envelope>, id: Id)
    requires SignedAll(log) && id !in CapturesOf(log)
    ensures forall e <- log :: !Mentions(e.body, id)
  {
    hide SignedAll, Signed, Mentions, EvidenceStep;
    if log != [] {
      var init, e := log[..|log| - 1], log[|log| - 1].body;
      SignedPrefix(log, |log| - 1);
      UnknownReference(CapturesOf(init), e, id);
      NeverMentioned(init, id);
      assert log == init + [log[|log| - 1]];
    }
  }

  lemma UnknownReference(rows: map<Id, EvidenceRow>, e: EventInput, id: Id)
    requires Signed(rows, e) && id !in EvidenceStep(rows, e)
    ensures !Mentions(e, id) && id !in rows
  {
  }

  lemma {:induction false} CandidateSelected(log: seq<Envelope>, candidateId: Id, id: Id)
    requires SignedAll(log) && candidateId in CandidatesOf(log) && RefersTo(CandidatesOf(log)[candidateId].record.refs, id)
    ensures Select(log, CandidateKind, id) != []
  {
    var init, e := log[..|log| - 1], log[|log| - 1].body;
    SignedPrefix(log, |log| - 1);
    hide RefersTo, SignedAll, CapturesOf;
    if !e.payload.CandidateCreated? || e.payload.candidate.candidateId != candidateId {
      CandidateSelected(init, candidateId, id);
    }
  }

  lemma {:induction false} PlansSpeak(plans: seq<Plan>)
    ensures forall e <- PlansInputs(plans) :: exists p :: p in plans && e.refs == p.candidate.refs
    ensures forall e <- PlansInputs(plans) :: !IsKind(FailureKind, e.payload) && !IsKind(CompletionKind, e.payload)
  {
    if plans != [] {
      var init, last := plans[..|plans| - 1], plans[|plans| - 1];
      PlansSpeak(init);
      PlanSpeaks(last);
      hide PlanInputs, IsKind;
    }
  }

  lemma PlanSpeaks(p: Plan)
    ensures forall e <- PlanInputs(p) :: e.refs == p.candidate.refs
    ensures forall e <- PlanInputs(p) :: !IsKind(FailureKind, e.payload) && !IsKind(CompletionKind, e.payload)
  {
  }

  lemma RescanSpeaks(p: RescanPlan)
    ensures forall e <- RescanInputs(p) :: e.refs == p.candidate.refs
    ensures forall e <- RescanInputs(p) :: !IsKind(FailureKind, e.payload) && !IsKind(CompletionKind, e.payload)
  {
    RescanInputsSplit(p);
    RevocationRefs(p);
  }

  predicate SpeaksOf(c: Command, id: Id) {
    match c
    case Capture(r, _, _, _) => r.evidenceId == id
    case Evaluate(e, _, _, _) => e == id
    case Complete(e, _, _) => e == id
    case Fail(e, _, _, _, _) => e == id
    case Rescan(p) => RefersTo(p.candidate.refs, id)
    case _ => false
  }

  lemma EvaluationSilent(s: State, limits: Limits, c: Command, id: Id)
    requires LogInv(s) && Offered(s, c) && c.Evaluate? && c.evidenceId != id
    ensures forall e <- Inputs(s, limits, c) :: !Mentions(e, id)
  {
    LogRows(s);
    hide LogInv, TablesOf, PlansInputs, CapturesOf, ResultsFor;
    PlansSpeak(c.plans);
  }

  lemma WorkSilent(s: State, limits: Limits, c: Command, id: Id)
    requires LogInv(s) && Offered(s, c) && (c.Complete? || c.Fail?) && c.evidenceId != id
    ensures forall e <- Inputs(s, limits, c) :: !Mentions(e, id)
  {
    LogRows(s);
    hide LogInv, TablesOf, EndsRow, CapturesOf;
  }

  lemma Silent(s: State, limits: Limits, c: Command, id: Id)
    requires LogInv(s) && Offered(s, c) && !SpeaksOf(c, id)
    ensures forall e <- Inputs(s, limits, c) :: !Mentions(e, id)
  {
    hide LogInv, TablesOf, Offered, PlansInputs, RescanInputs;
    if c.Evaluate? {
      EvaluationSilent(s, limits, c, id);
    } else if c.Complete? || c.Fail? {
      WorkSilent(s, limits, c, id);
    } else if c.Rescan? {
      RescanSpeaks(c.rescan);
    } else if c.Approve? || c.BlockCandidate? || c.Revoke? || c.Expire? || c.Reject? {
      OperatorInputs(s, limits, c);
    }
  }

  /* ---------- Steps on what the log says ---------- */

  lemma SilentBatch(inputs: seq<EventInput>, after: nat, id: Id)
    requires forall e <- inputs :: !Mentions(e, id)
    ensures Explains([], Stamp(inputs, after), id)
    ensures Select(Stamp(inputs, after), FailureKind, id) == [] && Select(Stamp(inputs, after), CompletionKind, id) == []
  {
    hide Explains, RefersTo;
    var es := Stamp(inputs, after);
    assert forall e <- es :: e.body in inputs;
    NoCases(es, id);
    SelectNothing(es, FailureKind, id);
    SelectNothing(es, CompletionKind, id);
  }

  lemma KindlessBatch(inputs: seq<EventInput>, after: nat, id: Id)
    requires forall e <- inputs :: !IsKind(FailureKind, e.payload) && !IsKind(CompletionKind, e.payload)
    ensures Select(Stamp(inputs, after), FailureKind, id) == [] && Select(Stamp(inputs, after), CompletionKind, id) == []
  {
    hide IsKind;
    var es := Stamp(inputs, after);
    assert forall e <- es :: e.body in inputs;
    SelectNothing(es, FailureKind, id);
    SelectNothing(es, CompletionKind, id);
  }

  /** What a drain adds: one case for each plan. */
  lemma DrainBatch(s: State, limits: Limits, c: Command)
    requires LogInv(s) && QueueInv(s, limits) && Offered(s, c) && c.Evaluate? && c.evidenceId in s.enqueued
    ensures var es, id := Stamp(Inputs(s, limits, c), |s.log|), c.evidenceId;
            && c.drain && IsPending(s, id) && c.plans != [] && es == Stamp(PlansInputs(c.plans), |s.log|)
            && Explains(PlansCases(c.plans, |s.log|), es, id)
            && Select(es, FailureKind, id) == [] && Select(es, CompletionKind, id) == []
  {
    LogRows(s);
    hide LogInv, TablesOf, PlansInputs, CapturesOf, ResultsFor, Explains, Select, WithinLimits, RowOk;
    assert EvaluationInputs(c.plans, None) == PlansInputs(c.plans);
    forall p | p in c.plans
      ensures ResultsFor(p.candidate, p.verdicts, p.semantic, p.decision) && RefersTo(p.candidate.refs, c.evidenceId)
    {
      assert p.candidate.refs[0] in p.candidate.refs;
    }
    PlansExplained(c.plans, |s.log|, c.evidenceId);
    PlansSpeak(c.plans);
    KindlessBatch(PlansInputs(c.plans), |s.log|, c.evidenceId);
  }

  lemma RescanBatch(s: State, limits: Limits, c: Command, id: Id)
    requires LogInv(s) && Offered(s, c) && c.Rescan? && RefersTo(c.rescan.candidate.refs, id)
    ensures var es := Stamp(Inputs(s, limits, c), |s.log|);
            && Explains([RescanCase(c.rescan, |s.log|)], es, id)
            && Select(es, FailureKind, id) == [] && Select(es, CompletionKind, id) == []
    ensures Select(s.log, CandidateKind, id) != []
  {
    LogRows(s);
    CandidateSelected(s.log, c.rescan.target.candidateId, id);
    hide LogInv, TablesOf, RescanInputs, CapturesOf, Explains, Select;
    RescanExplained(c.rescan, |s.log|, id);
    RescanSpeaks(c.rescan);
    KindlessBatch(RescanInputs(c.rescan), |s.log|, id);
  }

  /** What the worker's own event adds: nothing but itself. */
  lemma WorkBatch(s: State, limits: Limits, c: Command)
    requires LogInv(s) && Offered(s, c) && (c.Complete? || c.Fail?)
    ensures var es, id := Stamp(Inputs(s, limits, c), |s.log|), c.evidenceId;
            && Explains([], es, id)
            && Select(es, FailureKind, id) == (if c.Fail? then es else [])
            && Select(es, CompletionKind, id) == (if c.Complete? then es else [])
  {
    hide LogInv, TablesOf, CapturesOf, Explains, Select, EndsRow, Takes, RowsKeyed, CandidatesSourced;
    LogRows(s);
    var es, id := Stamp(Inputs(s, limits, c), |s.log|), c.evidenceId;
    NoCases(es, id);
    if es == [] {
      SelectNothing(es, FailureKind, id);
      SelectNothing(es, CompletionKind, id);
    } else {
      assert es == [es[0]];
      assert EvidenceRef(id, RecordOf(s, id).contentDigest) in es[0].body.refs;
      SelectOne(es[0], FailureKind, id);
      SelectOne(es[0], CompletionKind, id);
    }
  }

  lemma SelectAppend(s: State, es: seq<Envelope>, id: Id)
    ensures Select(s.log + es, FailureKind, id) == Select(s.log, FailureKind, id) + Select(es, FailureKind, id)
    ensures Select(s.log + es, CompletionKind, id) == Select(s.log, CompletionKind, id) + Select(es, CompletionKind, id)
  {
    SelectConcat(s.log, es, FailureKind, id);
    SelectConcat(s.log, es, CompletionKind, id);
  }

  /** The outcomes of a drained identifier are those of the one batch, one for each plan. */
  lemma DrainedOutcomes(log: seq<Envelope>, cases: seq<Case>, plans: seq<Plan>, after: nat, rescans: seq<Case>)
    requires DrainedBy(log, cases, plans, after, rescans)
    ensures OutcomesIn(cases) == OutcomesIn(PlansCases(plans, after))
    ensures |OutcomesIn(cases)| == |plans| > 0
  {
    hide PlanCase, PlansInputs;
    CasesConcat(PlansCases(plans, after), rescans);
    RescansEndNothing(rescans);
    PlansEnd(plans, after);
  }

  lemma DrainedSome(log: seq<Envelope>, cases: seq<Case>)
    requires Drained(log, cases)
    ensures cases != [] && OutcomesIn(cases) != []
  {
    hide DrainedBy;
    var plans, after: nat, rescans :| DrainedBy(log, cases, plans, after, rescans);
    DrainedOutcomes(log, cases, plans, after, rescans);
  }

  lemma {:induction false} RescansEndNothing(rescans: seq<Case>)
    requires forall c <- rescans :: c.Rescanned?
    ensures OutcomesIn(rescans) == []
  {
    if rescans != [] {
      assert rescans[|rescans| - 1].Rescanned?;
      RescansEndNothing(rescans[..|rescans| - 1]);
    }
  }

  lemma {:induction false} PlansEnd(plans: seq<Plan>, after: nat)
    ensures |PlansCases(plans, after)| == |plans| && |OutcomesIn(PlansCases(plans, after))| == |plans|
  {
    if plans != [] {
      var init := plans[..|plans| - 1];
      PlansEnd(init, after);
      var cases := PlansCases(plans, after);
      assert cases[..|cases| - 1] == PlansCases(init, after);
    }
  }

  lemma DrainedNow(log: seq<Envelope>, plans: seq<Plan>)
    requires plans != []
    ensures Drained(log + Stamp(PlansInputs(plans), |log|), PlansCases(plans, |log|))
  {
    hide PlansInputs, PlansCases, Stamp, DrainedBy;
    DrainedHere(log, Stamp(PlansInputs(plans), |log|), plans);
  }

  lemma DrainedHere(log: seq<Envelope>, es: seq<Envelope>, plans: seq<Plan>)
    requires plans != [] && es == Stamp(PlansInputs(plans), |log|)
    ensures DrainedBy(log + es, PlansCases(plans, |log|), plans, |log|, [])
  {
    hide PlansInputs, PlansCases, Stamp;
    StampLength(PlansInputs(plans), |log|);
    TailSlice(log, es);
  }

  lemma TailSlice(log: seq<Envelope>, es: seq<Envelope>)
    ensures (log + es)[|log|..|log| + |es|] == es
  {
  }

  lemma StampLength(inputs: seq<EventInput>, after: nat)
    ensures |Stamp(inputs, after)| == |inputs|
  {
  }

  /** Later events leave the batch where it is; a later rescan adds its case at the end. */
  lemma DrainKept(log: seq<Envelope>, es: seq<Envelope>, cases: seq<Case>, more: seq<Case>)
    requires Drained(log, cases) && forall c <- more :: c.Rescanned?
    ensures Drained(log + es, cases + more)
  {
    hide PlansInputs, PlansCases, Stamp;
    var plans, after: nat, rescans :| DrainedBy(log, cases, plans, after, rescans);
    var end := after + |PlansInputs(plans)|;
    assert (log + es)[after..end] == log[after..end];
    assert cases + more == PlansCases(plans, after) + (rescans + more);
    assert DrainedBy(log + es, cases + more, plans, after, rescans + more);
  }

  lemma DrainAccounts(s: State, limits: Limits, c: Command, cases: seq<Case>)
    requires LogInv(s) && QueueInv(s, limits) && Offered(s, c) && Accepted(s, limits, c)
    requires c.Evaluate? && c.evidenceId in s.enqueued && Explains(cases, s.log, c.evidenceId) && Phased(s, c.evidenceId, cases)
    ensures Accounted(Committed(s, limits, c), c.evidenceId)
  {
    hide LogInv, Accepted, Offered, QueueInv, Inputs, Explains, Select, Stamp, Drained, PlansCases, PlansInputs;
    var es, id := Stamp(Inputs(s, limits, c), |s.log|), c.evidenceId;
    DrainBatch(s, limits, c);
    ExplainsConcat(cases, s.log, PlansCases(c.plans, |s.log|), es, id);
    SelectAppend(s, es, id);
    assert cases + PlansCases(c.plans, |s.log|) == PlansCases(c.plans, |s.log|);
    DrainedNow(s.log, c.plans);
    assert Phased(Committed(s, limits, c), id, PlansCases(c.plans, |s.log|));
  }

  lemma RescanAccounts(s: State, limits: Limits, c: Command, id: Id, cases: seq<Case>)
    requires LogInv(s) && Offered(s, c) && Accepted(s, limits, c)
    requires c.Rescan? && RefersTo(c.rescan.candidate.refs, id) && Explains(cases, s.log, id) && Phased(s, id, cases)
    ensures Accounted(Committed(s, limits, c), id)
  {
    hide LogInv, Accepted, Offered, Inputs, Explains, Select, Stamp, RescanCase, Drained;
    RescanBatch(s, limits, c, id);
    RescanPhase(s, id, cases);
    var es, more := Stamp(Inputs(s, limits, c), |s.log|), [RescanCase(c.rescan, |s.log|)];
    ExplainsConcat(cases, s.log, more, es, id);
    SelectAppend(s, es, id);
    RescanCaseKind(c.rescan, |s.log|);
    DrainKept(s.log, es, cases, more);
    RescanQueue(s, limits, c);
    assert Phased(Committed(s, limits, c), id, cases + more);
  }

  /** Only a drained identifier has candidates for a rescan to find. */
  lemma RescanPhase(s: State, id: Id, cases: seq<Case>)
    requires Explains(cases, s.log, id) && Phased(s, id, cases) && Select(s.log, CandidateKind, id) != []
    ensures id !in s.queue && Drained(s.log, cases)
    ensures Select(s.log, FailureKind, id) == [] && Select(s.log, CompletionKind, id) == []
  {
    hide Select, Drained, CaseOk;
  }

  lemma RescanCaseKind(p: RescanPlan, after: nat)
    ensures RescanCase(p, after).Rescanned?
  {
  }

  lemma RescanQueue(s: State, limits: Limits, c: Command)
    requires Offered(s, c) && c.Rescan?
    ensures Committed(s, limits, c).queue == s.queue
    ensures Committed(s, limits, c).log == s.log + Stamp(Inputs(s, limits, c), |s.log|)
  {
    hide Offered, Inputs, Stamp, MemoryReadsAfter, QuarantineReadsAfter;
  }

  lemma WorkAccounts(s: State, limits: Limits, c: Command, cases: seq<Case>)
    requires LogInv(s) && Offered(s, c) && Accepted(s, limits, c)
    requires (c.Complete? || c.Fail?) && Explains(cases, s.log, c.evidenceId) && Phased(s, c.evidenceId, cases)
    ensures Accounted(Committed(s, limits, c), c.evidenceId)
  {
    hide LogInv, Accepted, Offered, Inputs, Explains, Select, Stamp, EndsRow, TablesOf, Drained;
    var es, id := Stamp(Inputs(s, limits, c), |s.log|), c.evidenceId;
    WorkBatch(s, limits, c);
    WorkEvent(s, limits, c);
    ExplainsConcat(cases, s.log, [], es, id);
    SelectAppend(s, es, id);
    assert cases + [] == cases;
    assert Phased(Committed(s, limits, c), id, cases);
  }

  lemma WorkEvent(s: State, limits: Limits, c: Command)
    requires Offered(s, c) && Accepted(s, limits, c) && (c.Complete? || c.Fail?)
    ensures IsPending(s, c.evidenceId)
    ensures var es, row := Stamp(Inputs(s, limits, c), |s.log|), s.queue[c.evidenceId];
            if c.Fail? && !EndsRow(row, limits, c.at, c.force) then es == []
            else |es| == 1 && (c.Fail? ==> FailureOf(es[0], c.evidenceId, FailedRow(row, c.error, c.at, c.eventId)))
  {
    hide TablesOf, EndsRow, Takes;
  }

  /** A command that does not speak of the identifier leaves its row alone. */
  lemma SilentQueue(s: State, limits: Limits, c: Command, id: Id)
    requires Offered(s, c) && !SpeaksOf(c, id)
    ensures var s' := Committed(s, limits, c);
            && s'.log == s.log + Stamp(Inputs(s, limits, c), |s.log|)
            && (id in s'.queue <==> id in s.queue) && (id in s.queue ==> s'.queue[id] == s.queue[id])
  {
    hide Offered, Inputs, Stamp, EndsRow, RefersTo, WorkingAfter, EnqueuedAfter, DirectAfter, MemoryReadsAfter,
         QuarantineReadsAfter;
  }

  lemma SilentAccounts(s: State, limits: Limits, c: Command, id: Id, cases: seq<Case>)
    requires LogInv(s) && Offered(s, c) && Accepted(s, limits, c)
    requires !SpeaksOf(c, id) && Explains(cases, s.log, id) && Phased(s, id, cases)
    ensures Accounted(Committed(s, limits, c), id)
  {
    hide LogInv, Accepted, Offered, Inputs, Explains, Select, Stamp, SpeaksOf, Committed, Drained;
    Silent(s, limits, c, id);
    SilentBatch(Inputs(s, limits, c), |s.log|, id);
    SilentQueue(s, limits, c, id);
    var es, none: seq<Case> := Stamp(Inputs(s, limits, c), |s.log|), [];
    ExplainsConcat(cases, s.log, none, es, id);
    SelectAppend(s, es, id);
    assert cases + none == cases;
    if Drained(s.log, cases) {
      DrainKept(s.log, es, cases, none);
    }
    assert Phased(Committed(s, limits, c), id, cases);
  }

  /** A newly captured identifier has no history. */
  lemma CaptureHistory(s: State, limits: Limits, c: Command)
    requires LogInv(s) && Offered(s, c) && Accepted(s, limits, c) && c.Capture?
    ensures var log', id := s.log + Stamp(Inputs(s, limits, c), |s.log|), c.record.evidenceId;
            Explains([], log', id) && Select(log', FailureKind, id) == [] && Select(log', CompletionKind, id) == []
  {
    hide Accepted, Offered, Explains, Select, TablesOf, CapturesOf, Mentions, InsertableAll, SignedAll, Inputs;
    CaptureIsNew(s, limits, c);
    LogRows(s);
    var id, es := c.record.evidenceId, Stamp(Inputs(s, limits, c), |s.log|);
    NeverMentioned(s.log, id);
    forall e | e in s.log + es
      ensures forall kind :: !Picks(kind, id, e.body)
    {
    }
    NoCases(s.log + es, id);
    SelectNothing(s.log + es, FailureKind, id);
    SelectNothing(s.log + es, CompletionKind, id);
  }

  lemma CaptureAccounts(s: State, limits: Limits, c: Command)
    requires LogInv(s) && Offered(s, c) && Accepted(s, limits, c) && c.Capture? && c.queued.Some?
    ensures Accounted(Committed(s, limits, c), c.record.evidenceId)
  {
    hide LogInv, Accepted, Offered, Explains, Select, Inputs, Stamp;
    CaptureHistory(s, limits, c);
    assert Phased(Committed(s, limits, c), c.record.evidenceId, []);
  }

  lemma OneAccounts(s: State, limits: Limits, c: Command, id: Id)
    requires LogInv(s) && QueueInv(s, limits) && Offered(s, c) && Accepted(s, limits, c)
    requires id in s.enqueued && Accounted(s, id)
    ensures Accounted(Committed(s, limits, c), id)
  {
    hide LogInv, Accepted, Offered, Explains, Phased, RefersTo;
    var cases :| Explains(cases, s.log, id) && Phased(s, id, cases);
    if !SpeaksOf(c, id) {
      SilentAccounts(s, limits, c, id, cases);
    } else if c.Capture? {
      CaptureNotKnown(s, limits, c);
      assert false;
    } else if c.Evaluate? {
      DrainAccounts(s, limits, c, cases);
    } else if c.Rescan? {
      RescanAccounts(s, limits, c, id, cases);
    } else {
      WorkAccounts(s, limits, c, cases);
    }
  }

  lemma CaptureNotKnown(s: State, limits: Limits, c: Command)
    requires LogInv(s) && QueueInv(s, limits) && Offered(s, c) && Accepted(s, limits, c) && c.Capture?
    ensures c.record.evidenceId !in s.enqueued
  {
    CapturesGrow(s, limits, c);
    hide LogInv, Accepted, Offered, CapturesOf, Signed, Inputs, Stamp, TablesOf;
  }

  /** Conservation: each step leaves every enqueued identifier in exactly one place, with the events of that place. */
  lemma StepKeepsAccounts(s: State, limits: Limits, c: Command)
    requires LogInv(s) && QueueInv(s, limits) && AllAccounted(s)
    ensures AllAccounted(Next(s, limits, c))
  {
    hide LogInv, QueueInv, Accepted, Offered, Accounted;
    if Offered(s, c) && Accepted(s, limits, c) {
      forall id | id in Committed(s, limits, c).enqueued
        ensures Accounted(Committed(s, limits, c), id)
      {
        if id in s.enqueued {
          OneAccounts(s, limits, c, id);
        } else {
          CaptureAccounts(s, limits, c);
        }
      }
    }
  }

  /* ---------- Whole runs ---------- */

  ghost predicate QueueStory(s: State, limits: Limits) {
    LogInv(s) && QueueInv(s, limits) && AllAccounted(s)
  }

  lemma StepKeepsStory(s: State, limits: Limits, c: Command)
    requires QueueStory(s, limits)
    ensures QueueStory(Next(s, limits, c), limits)
  {
    hide LogInv, QueueInv, AllAccounted, Next;
    StepKeepsLogInv(s, limits, c);
    StepKeepsQueueInv(s, limits, c);
    StepKeepsAccounts(s, limits, c);
  }

  /** In every run from the empty store, every enqueued identifier is accounted for and the queue is within its limits. */
  lemma {:induction false} RunKeepsStory(limits: Limits, cs: seq<Command>)
    ensures QueueStory(Run(INITIAL, limits, cs), limits)
  {
    if cs == [] {
      EmptyQueue(limits);
    } else {
      hide QueueStory, Next;
      RunKeepsStory(limits, cs[..|cs| - 1]);
      StepKeepsStory(Run(INITIAL, limits, cs[..|cs| - 1]), limits, cs[|cs| - 1]);
    }
  }

  lemma EmptyQueue(limits: Limits)
    ensures WithinLimits(map[], limits)
  {
    assert PendingIds(map[]) == {};
  }

  /** A recorded failed attempt either ends the row for good or uses up one of the remaining attempts. */
  lemma FailedAttemptProgress(s: State, limits: Limits, c: Command)
    requires QueueStory(s, limits) && limits.maxAttempts > 0
    requires Offered(s, c) && Accepted(s, limits, c) && c.Fail?
    ensures var before, after := s.queue[c.evidenceId], Next(s, limits, c).queue[c.evidenceId];
            && (after.phase.Failed? <==> EndsRow(before, limits, c.at, c.force))
            && (after.phase.Pending? ==> limits.maxAttempts - after.attempts == limits.maxAttempts - before.attempts - 1 > 0)
            && (after.phase.Pending? ==> c.at < after.nextAttemptAt <= c.at + 256_000_000)
  {
    hide LogInv, AllAccounted, Offered, Takes, Inputs, CapturesOf;
    DelayBounds(s.queue[c.evidenceId].attempts + 1);
  }

  lemma DelayBounds(attempts: nat)
    ensures 0 < RetryDelay(attempts) <= 256
  {
    assert Pow2(8) == 256;
    PowGrows(if attempts < 8 then attempts else 8, 8);
  }

  lemma {:induction false} PowGrows(a: nat, b: nat)
    requires a <= b
    ensures 0 < Pow2(a) <= Pow2(b)
  {
    if b > 0 {
      PowGrows(if a > 0 then a - 1 else 0, b - 1);
    }
  }
}
