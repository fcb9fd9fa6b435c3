/** The signed status of one piece of evidence, reconstructed from the log: the query of ledger/queries.py after its
    verification (module EvidenceQuery has the whole query). */
module Status {
  import opened Domain
  import opened Projection
  import opened Ledger
  import opened SignedLog
  import opened History

  datatype TerminalOutcome = FailedOutcome | CompletedOutcome

  datatype RescanSummary = RescanSummary(
    candidateId: Id, candidateEventId: Id, decisionId: Id, actual: Action, would: Action, memoryId: Option<Id>,
    revocationEventId: Option<Id>)

  datatype EvidenceStatus = EvidenceStatus(
    outcome: Option<TerminalOutcome>, terminalEventIds: seq<Id>, candidateIds: seq<Id>, actions: seq<Action>,
    rescanCount: nat, latestRescan: Option<RescanSummary>)

  datatype Reply = NotFound | LedgerError | Found(status: EvidenceStatus)

  datatype QueueState = NoRow | PendingRow | FailedRowState

  function StateOf(queue: map<Id, QueueRow>, id: Id): QueueState {
    if id !in queue then NoRow else if queue[id].phase.Pending? then PendingRow else FailedRowState
  }

  /* ---------- Selecting the history ---------- */

  function CaptureEvents(events: seq<Envelope>, id: Id): seq<Envelope> {
    if events == [] then []
    else
      var e := events[|events| - 1];
      CaptureEvents(events[..|events| - 1], id) + if e.body.payload.EvidenceCaptured? && e.body.stream == id then [e] else []
  }

  function Related(events: seq<Envelope>, id: Id, captureEventId: Id): seq<Envelope> {
    if events == [] then []
    else
      var e := events[|events| - 1];
      Related(events[..|events| - 1], id, captureEventId)
      + if e.body.eventId != captureEventId && Mentions(e.body, id) then [e] else []
  }

  datatype Gathered = Gathered(
    candidates: seq<Envelope>, decisions: seq<Envelope>, outcomes: seq<Envelope>,
    failures: seq<Envelope>, completions: seq<Envelope>, revocations: seq<Envelope>)

  function Gather(related: seq<Envelope>, id: Id): Gathered {
    Gathered(Select(related, CandidateKind, id), Select(related, DecisionKind, id), Select(related, OutcomeKind, id),
             Select(related, FailureKind, id), Select(related, CompletionKind, id), Select(related, RescanRevocationKind, id))
  }

  predicate Typed(g: Gathered) {
    && (forall e <- g.candidates :: e.body.payload.CandidateCreated?)
    && (forall e <- g.decisions :: e.body.payload.DecisionRecorded?)
    && (forall e <- g.outcomes :: IsKind(OutcomeKind, e.body.payload))
    && (forall e <- g.completions :: e.body.payload.EvaluationCompleted?)
    && (forall e <- g.revocations :: IsKind(RescanRevocationKind, e.body.payload))
  }

  lemma GatherTyped(related: seq<Envelope>, id: Id)
    ensures Typed(Gather(related, id))
  {
    SelectedAreLogged(related, CandidateKind, id);
    SelectedAreLogged(related, DecisionKind, id);
    SelectedAreLogged(related, OutcomeKind, id);
    SelectedAreLogged(related, CompletionKind, id);
    SelectedAreLogged(related, RescanRevocationKind, id);
  }

  /* ---------- What the query calls an invalid history ---------- */

  function CandidateId(e: Envelope): Id
    requires e.body.payload.CandidateCreated?
  {
    e.body.payload.candidate.candidateId
  }

  function DecisionOf(e: Envelope): Decision
    requires e.body.payload.DecisionRecorded?
  {
    e.body.payload.decision
  }

  function OutcomeOf(e: Envelope): Outcome
    requires IsKind(OutcomeKind, e.body.payload)
  {
    e.body.payload.outcome
  }

  function LinkOf(e: Envelope): RescanLink
    requires IsKind(RescanRevocationKind, e.body.payload)
  {
    e.body.payload.rescan.value
  }

  predicate Provenance(e: EventInput, record: EvidenceRecord)
    requires e.payload.CandidateCreated?
  {
    var c := e.payload.candidate;
    && e.stream == c.candidateId && e.sessionId == Some(record.sessionId) && e.taskId == record.taskId && e.source == Some(record.source)
    && c.sessionId == record.sessionId && c.taskId == record.taskId && c.source == record.source
    && EvidenceRef(record.evidenceId, record.contentDigest) in c.refs
  }

  predicate RescanForm(e: EventInput)
    requires e.payload.CandidateCreated?
  {
    e.actor.OperatorActor? ==> e.memoryId.Some? && e.payload.candidate.extractor.RescanSanitizer?
  }

  /** The dictionary from candidates to decisions: the last decision of a candidate wins. */
  function DecisionFor(decisions: seq<Envelope>, candidateId: Id): (r: Option<Envelope>)
    requires forall e <- decisions :: e.body.payload.DecisionRecorded?
    ensures r.Some? ==> r.value in decisions && DecisionOf(r.value).candidateId == candidateId
    ensures r.None? ==> forall e <- decisions :: DecisionOf(e).candidateId != candidateId
  {
    if decisions == [] then None
    else if DecisionOf(decisions[|decisions| - 1]).candidateId == candidateId then Some(decisions[|decisions| - 1])
    else DecisionFor(decisions[..|decisions| - 1], candidateId)
  }

  predicate Original(e: Envelope) {
    !e.body.actor.OperatorActor?
  }

  predicate OutcomeValid(e: Envelope, g: Gathered)
    requires Typed(g) && e in g.outcomes
  {
    var o := OutcomeOf(e);
    var d := DecisionFor(g.decisions, o.candidateId);
    && (exists c :: c in g.candidates && Original(c) && CandidateId(c) == o.candidateId)
    && d.Some?
    && OutcomeMatches(e.body, DecisionOf(d.value))
  }

  function MatchingRevocations(revocations: seq<Envelope>, candidateId: Id): seq<Envelope>
    requires forall e <- revocations :: IsKind(RescanRevocationKind, e.body.payload)
  {
    if revocations == [] then []
    else
      var e := revocations[|revocations| - 1];
      assert e in revocations;
      MatchingRevocations(revocations[..|revocations| - 1], candidateId)
      + if LinkOf(e).rescanCandidateId == candidateId then [e] else []
  }

  predicate RescanValid(e: Envelope, g: Gathered)
    requires Typed(g) && e in g.candidates
  {
    var d := DecisionFor(g.decisions, CandidateId(e));
    var found := MatchingRevocations(g.revocations, CandidateId(e));
    && d.Some?
    && |found| == (if DecisionOf(d.value).actual != Allow then 1 else 0)
    && (found != [] ==> RevocationMatches(found[0].body, e.body, DecisionOf(d.value)))
  }

  predicate Distinct(ids: seq<Id>) {
    forall i, j :: 0 <= i < j < |ids| ==> ids[i] != ids[j]
  }

  function IdsOf(candidates: seq<Envelope>): seq<Id>
    requires forall e <- candidates :: e.body.payload.CandidateCreated?
  {
    seq(|candidates|, i requires 0 <= i < |candidates| => CandidateId(candidates[i]))
  }

  function DecidedIds(decisions: seq<Envelope>): seq<Id>
    requires forall e <- decisions :: e.body.payload.DecisionRecorded?
  {
    seq(|decisions|, i requires 0 <= i < |decisions| => DecisionOf(decisions[i]).candidateId)
  }

  function OutcomeIds(outcomes: seq<Envelope>): seq<Id>
    requires forall e <- outcomes :: IsKind(OutcomeKind, e.body.payload)
  {
    seq(|outcomes|, i requires 0 <= i < |outcomes| => assert outcomes[i] in outcomes; OutcomeOf(outcomes[i]).candidateId)
  }

  function ActionsOf(outcomes: seq<Envelope>): seq<Action>
    requires forall e <- outcomes :: IsKind(OutcomeKind, e.body.payload)
  {
    seq(|outcomes|, i requires 0 <= i < |outcomes| => assert outcomes[i] in outcomes; OutcomeOf(outcomes[i]).actual)
  }

  function EventIdsOf(events: seq<Envelope>): seq<Id> {
    seq(|events|, i requires 0 <= i < |events| => events[i].body.eventId)
  }

  function Originals(candidates: seq<Envelope>): (r: seq<Envelope>)
    ensures forall e :: e in r <==> e in candidates && Original(e)
    ensures |r| <= |candidates|
  {
    if candidates == [] then []
    else
      var e := candidates[|candidates| - 1];
      Originals(candidates[..|candidates| - 1]) + if Original(e) then [e] else []
  }

  predicate CompletionValid(e: EventInput, record: EvidenceRecord) {
    && e.stream == record.evidenceId && e.sessionId == Some(record.sessionId) && e.taskId == record.taskId
    && e.payload == EvaluationCompleted(record.evidenceId, 0)
  }

  predicate Coherent(g: Gathered, record: EvidenceRecord)
    requires Typed(g)
  {
    && |g.failures| <= 1 && |g.completions| <= 1
    && (g.failures != [] ==> g.completions == [] && g.outcomes == [])
    && Distinct(IdsOf(g.candidates))
    && (forall e <- g.candidates :: Provenance(e.body, record) && RescanForm(e.body))
    && Distinct(DecidedIds(g.decisions))
    && (forall e <- g.decisions :: DecisionOf(e).candidateId in IdsOf(g.candidates) && e.body.stream == DecisionOf(e).candidateId)
    && (forall e <- g.outcomes :: OutcomeValid(e, g))
    && (forall e <- g.completions :: CompletionValid(e.body, record))
    && (forall e <- g.candidates :: !Original(e) ==> RescanValid(e, g))
  }

  /* ---------- The answer ---------- */

  function AsSet(ids: seq<Id>): set<Id> {
    set id | id in ids
  }

  predicate CompleteSet(g: Gathered, state: QueueState)
    requires Typed(g)
  {
    var originals := IdsOf(Originals(g.candidates));
    && originals != [] && state == NoRow
    && AsSet(originals) == AsSet(OutcomeIds(g.outcomes))
    && AsSet(originals) == (set id | id in AsSet(DecidedIds(g.decisions)) && id in originals)
    && |g.outcomes| == |originals|
  }

  function SummaryOf(e: Envelope, g: Gathered): RescanSummary
    requires Typed(g) && e in g.candidates && RescanValid(e, g)
  {
    var decision := DecisionFor(g.decisions, CandidateId(e)).value;
    var found := MatchingRevocations(g.revocations, CandidateId(e));
    RescanSummary(CandidateId(e), e.body.eventId, DecisionOf(decision).decisionId, DecisionOf(decision).actual, DecisionOf(decision).would,
                  e.body.memoryId, if found != [] then Some(found[0].body.eventId) else None)
  }

  /** The rescan candidate whose decision is latest in the log; the first such in candidate order. */
  function LatestRescan(candidates: seq<Envelope>, g: Gathered): (r: Option<Envelope>)
    requires Typed(g) && forall e <- candidates :: e in g.candidates && (!Original(e) ==> RescanValid(e, g))
    ensures r.Some? ==> r.value in candidates && !Original(r.value) && RescanValid(r.value, g)
  {
    if candidates == [] then None
    else
      var e := candidates[|candidates| - 1];
      assert e in candidates;
      var best := LatestRescan(candidates[..|candidates| - 1], g);
      if Original(e) then best
      else
      assert RescanValid(e, g);
      if best.None? || DecisionFor(g.decisions, CandidateId(best.value)).value.sequence
                            < DecisionFor(g.decisions, CandidateId(e)).value.sequence then Some(e)
      else best
  }

  function Report(g: Gathered, record: EvidenceRecord, state: QueueState): EvidenceStatus
    requires Typed(g) && Coherent(g, record)
  {
    var failed := g.failures != [] && state == FailedRowState;
    var empty := g.completions != [] && g.candidates == [] && state == NoRow;
    var full := CompleteSet(g, state);
    var latest := LatestRescan(g.candidates, g);
    EvidenceStatus(
      if failed then Some(FailedOutcome) else if empty || full then Some(CompletedOutcome) else None,
      EventIdsOf(if failed then g.failures else if empty then g.completions else if full then g.outcomes else []),
      if full then IdsOf(Originals(g.candidates)) else [],
      if full then ActionsOf(g.outcomes) else [],
      |g.candidates| - |Originals(g.candidates)|,
      if latest.Some? then Some(SummaryOf(latest.value, g)) else None)
  }

  function Examine(events: seq<Envelope>, queue: map<Id, QueueRow>, id: Id): Reply {
    var captures := CaptureEvents(events, id);
    if captures == [] then NotFound
    else if |captures| > 1 || !captures[0].body.payload.EvidenceCaptured? then LedgerError
    else
      var record := captures[0].body.payload.record;
      var g := Gather(Related(events, id, captures[0].body.eventId), id);
      GatherTyped(Related(events, id, captures[0].body.eventId), id);
      if record.evidenceId != id || !Coherent(g, record) then LedgerError
      else Found(Report(g, record, StateOf(queue, id)))
  }

  /* ---------- The capture and the related events of a signed log ---------- */

  lemma CaptureIsOwn(rows: map<Id, EvidenceRow>, e: EventInput)
    requires Signed(rows, e) && e.payload.EvidenceCaptured?
    ensures e.stream == e.payload.record.evidenceId && e.stream !in rows
  {
  }

  lemma {:induction false} CapturedOnce(log: seq<Envelope>, id: Id)
    requires SignedAll(log)
    ensures id in CapturesOf(log) ==>
              && |CaptureEvents(log, id)| == 1 && CaptureEvents(log, id)[0] in log
              && CaptureEvents(log, id)[0].body.payload == EvidenceCaptured(CapturesOf(log)[id].record)
              && CapturesOf(log)[id].record.evidenceId == id
    ensures id !in CapturesOf(log) ==> CaptureEvents(log, id) == []
  {
    if log != [] {
      var init, e := log[..|log| - 1], log[|log| - 1];
      SignedPrefix(log, |log| - 1);
      CapturedOnce(init, id);
      if e.body.payload.EvidenceCaptured? {
        CaptureIsOwn(CapturesOf(init), e.body);
      }
      assert log == init + [e];
      hide Signed, SignedAll;
    }
  }

  lemma {:induction false} RelatedSelect(events: seq<Envelope>, id: Id, captureEventId: Id, kind: Kind)
    requires forall e <- events :: e.body.eventId == captureEventId ==> !Picks(kind, id, e.body)
    ensures Select(Related(events, id, captureEventId), kind, id) == Select(events, kind, id)
  {
    if events != [] {
      var init, e := events[..|events| - 1], events[|events| - 1];
      RelatedSelect(init, id, captureEventId, kind);
      hide IsKind, RefersTo, Select;
      SelectConcat(Related(init, id, captureEventId), [e], kind, id);
      SelectConcat(init, [e], kind, id);
      SelectOne(e, kind, id);
      assert events == init + [e];
      if e.body.eventId == captureEventId || !Mentions(e.body, id) {
        assert Related(events, id, captureEventId) == Related(init, id, captureEventId);
      }
    }
  }

  lemma SameEvent(log: seq<Envelope>, e: Envelope)
    requires DistinctEvents(log) && e in log
    ensures forall f <- log :: f.body.eventId == e.body.eventId ==> f == e
  {
  }

  /** In a log with distinct event identifiers, leaving the capture out loses no other event. */
  lemma GatherWhole(log: seq<Envelope>, id: Id)
    requires SignedAll(log) && DistinctEvents(log) && id in CapturesOf(log)
    ensures |CaptureEvents(log, id)| == 1
    ensures Gather(Related(log, id, CaptureEvents(log, id)[0].body.eventId), id) == Gather(log, id)
  {
    hide CaptureEvents, CapturesOf, SignedAll, Select, Related, RefersTo, DistinctEvents;
    CapturedOnce(log, id);
    SameEvent(log, CaptureEvents(log, id)[0]);
    var capture := CaptureEvents(log, id)[0];
    forall kind: Kind
      ensures Select(Related(log, id, capture.body.eventId), kind, id) == Select(log, kind, id)
    {
      RelatedSelect(log, id, capture.body.eventId, kind);
    }
  }

  /* ---------- The query as it runs ---------- */

  method CheckCandidates(candidates: seq<Envelope>, record: EvidenceRecord) returns (ok: bool)
    requires forall e <- candidates :: e.body.payload.CandidateCreated?
    ensures ok <==> forall e <- candidates :: Provenance(e.body, record) && RescanForm(e.body)
  {
    ok := true;
    for i := 0 to |candidates|
      invariant ok <==> forall k :: 0 <= k < i ==> Provenance(candidates[k].body, record) && RescanForm(candidates[k].body)
    {
      if !Provenance(candidates[i].body, record) || !RescanForm(candidates[i].body) {
        return false;
      }
    }
  }

  method CheckOutcomes(g: Gathered) returns (ok: bool, ids: seq<Id>)
    requires Typed(g)
    ensures ok <==> forall e <- g.outcomes :: OutcomeValid(e, g)
    ensures ok ==> ids == OutcomeIds(g.outcomes)
  {
    ok, ids := true, [];
    for i := 0 to |g.outcomes|
      invariant ok <==> forall k :: 0 <= k < i ==> OutcomeValid(g.outcomes[k], g)
      invariant ids == OutcomeIds(g.outcomes)[..i]
    {
      if !OutcomeValid(g.outcomes[i], g) {
        return false, ids;
      }
      ids := ids + [OutcomeOf(g.outcomes[i]).candidateId];
    }
  }

  lemma LatestNext(candidates: seq<Envelope>, i: nat, g: Gathered)
    requires Typed(g) && i < |candidates| && forall e <- candidates :: e in g.candidates && (!Original(e) ==> RescanValid(e, g))
    ensures var best := LatestRescan(candidates[..i], g);
            LatestRescan(candidates[..i + 1], g) ==
            if Original(candidates[i]) then best
            else if best.None? || DecisionFor(g.decisions, CandidateId(best.value)).value.sequence
                                  < DecisionFor(g.decisions, CandidateId(candidates[i])).value.sequence then Some(candidates[i])
            else best
  {
    assert candidates[..i + 1][..i] == candidates[..i];
  }

  method SummariseRescans(g: Gathered) returns (ok: bool, latest: Option<RescanSummary>)
    requires Typed(g)
    ensures ok <==> forall e <- g.candidates :: !Original(e) ==> RescanValid(e, g)
    ensures ok ==> latest == var e := LatestRescan(g.candidates, g); if e.Some? then Some(SummaryOf(e.value, g)) else None
  {
    ok, latest := true, None;
    var best: Option<Envelope> := None;
    for i := 0 to |g.candidates|
      invariant ok && forall k :: 0 <= k < i ==> !Original(g.candidates[k]) ==> RescanValid(g.candidates[k], g)
      invariant best == LatestRescan(g.candidates[..i], g)
      invariant latest == if best.Some? then Some(SummaryOf(best.value, g)) else None
    {
      var e := g.candidates[i];
      if !Original(e) {
        if !RescanValid(e, g) {
          return false, latest;
        }
        if best.None? || DecisionFor(g.decisions, CandidateId(best.value)).value.sequence
                         < DecisionFor(g.decisions, CandidateId(e)).value.sequence {
          best, latest := Some(e), Some(SummaryOf(e, g));
        }
      }
      LatestNext(g.candidates[..i + 1], i, g);
      assert g.candidates[..i + 1][..i] == g.candidates[..i] && g.candidates[..i + 1][..i + 1] == g.candidates[..i + 1];
    }
    assert g.candidates[..|g.candidates|] == g.candidates;
  }

  /** Every test that raises the query's ledger error, in the source's order. */
  method CheckHistory(g: Gathered, record: EvidenceRecord) returns (ok: bool, latest: Option<RescanSummary>)
    requires Typed(g)
    ensures ok <==> Coherent(g, record)
    ensures ok ==> latest == var e := LatestRescan(g.candidates, g); if e.Some? then Some(SummaryOf(e.value, g)) else None
  {
    hide LatestRescan, RescanValid, OutcomeValid, Provenance, RescanForm, Distinct, CompletionValid;
    ok, latest := false, None;
    if |g.failures| > 1 || |g.completions| > 1 || (g.failures != [] && (g.completions != [] || g.outcomes != [])) {
      return;
    }
    if !Distinct(IdsOf(g.candidates)) || !Distinct(DecidedIds(g.decisions)) {
      return;
    }
    var sound := CheckCandidates(g.candidates, record);
    if !sound {
      return;
    }
    if exists e <- g.decisions :: DecisionOf(e).candidateId !in IdsOf(g.candidates) || e.body.stream != DecisionOf(e).candidateId {
      return;
    }
    var valid, _ := CheckOutcomes(g);
    if !valid || (g.completions != [] && !CompletionValid(g.completions[0].body, record)) {
      return;
    }
    ok, latest := SummariseRescans(g);
  }

  method Summarise(g: Gathered, record: EvidenceRecord, state: QueueState, latest: Option<RescanSummary>)
    returns (status: EvidenceStatus)
    requires Typed(g) && Coherent(g, record)
    requires latest == var e := LatestRescan(g.candidates, g); if e.Some? then Some(SummaryOf(e.value, g)) else None
    ensures status == Report(g, record, state)
  {
    hide CompleteSet, LatestRescan, Coherent, SummaryOf, RescanValid, OutcomeValid;
    var failed := g.failures != [] && state == FailedRowState;
    var empty := g.completions != [] && g.candidates == [] && state == NoRow;
    var full := CompleteSet(g, state);
    status := EvidenceStatus(
      if failed then Some(FailedOutcome) else if empty || full then Some(CompletedOutcome) else None,
      EventIdsOf(if failed then g.failures else if empty then g.completions else if full then g.outcomes else []),
      if full then IdsOf(Originals(g.candidates)) else [],
      if full then ActionsOf(g.outcomes) else [],
      |g.candidates| - |Originals(g.candidates)|,
      latest);
  }

  /** The query once the signed history may be read. */
  method ExamineEvidence(events: seq<Envelope>, queue: map<Id, QueueRow>, id: Id) returns (reply: Reply)
    ensures reply == Examine(events, queue, id)
  {
    hide Select, Related, CaptureEvents, CompleteSet, LatestRescan, Coherent, Typed, Gather, Report, SummaryOf;
    var captures := CaptureEvents(events, id);
    if captures == [] {
      return NotFound;
    }
    if |captures| > 1 || !captures[0].body.payload.EvidenceCaptured? || captures[0].body.payload.record.evidenceId != id {
      return LedgerError;
    }
    var record := captures[0].body.payload.record;
    var related := Related(events, id, captures[0].body.eventId);
    var g := Gather(related, id);
    GatherTyped(related, id);
    var ok, latest := CheckHistory(g, record);
    if !ok {
      return LedgerError;
    }
    var status := Summarise(g, record, StateOf(queue, id), latest);
    reply := Found(status);
  }
}
