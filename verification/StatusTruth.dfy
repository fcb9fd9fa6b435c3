/** The status query tells the truth about queued evidence in every reachable state, and keeps telling it. */
module StatusTruth {
  import opened Domain
  import opened Replay
  import opened Projection
  import opened Ledger
  import opened SignedLog
  import opened History
  import opened Conservation
  import opened Status

  /* ---------- What a signed log says about the selected events ---------- */

  lemma CandidateProvenance(rows: map<Id, EvidenceRow>, e: EventInput, id: Id)
    requires Signed(rows, e) && e.payload.CandidateCreated? && Mentions(e, id) && RowsKeyed(rows)
    ensures id in rows && Provenance(e, rows[id].record)
  {
    var c := e.payload.candidate;
    assert c.refs[0] in c.refs;
    assert c.refs[0].evidenceId == id;
  }

  lemma CompletionProvenance(rows: map<Id, EvidenceRow>, e: EventInput, id: Id)
    requires Signed(rows, e) && e.payload.EvaluationCompleted? && Mentions(e, id) && RowsKeyed(rows)
    ensures id in rows && CompletionValid(e, rows[id].record)
  {
  }

  lemma SelectedSigned(log: seq<Envelope>, id: Id, e: Envelope)
    requires SignedAll(log) && e in log && Mentions(e.body, id)
    requires e.body.payload.CandidateCreated? || e.body.payload.EvaluationCompleted?
    ensures id in CapturesOf(log)
    ensures e.body.payload.CandidateCreated? ==> Provenance(e.body, CapturesOf(log)[id].record)
    ensures e.body.payload.EvaluationCompleted? ==> CompletionValid(e.body, CapturesOf(log)[id].record)
  {
    hide CapturesOf, Signed, Provenance, CompletionValid, RefersTo, SignedAll;
    var k :| 0 <= k < |log| && log[k] == e;
    SignedPrefix(log, k);
    RowsSound(log[..k]);
    if e.body.payload.CandidateCreated? {
      CandidateProvenance(CapturesOf(log[..k]), e.body, id);
    } else {
      CompletionProvenance(CapturesOf(log[..k]), e.body, id);
    }
    CapturesPrefix(log, k, id);
  }

  /** The key of the candidates table makes the selected candidates distinct. */
  lemma {:induction false} SelectedDistinct(log: seq<Envelope>, id: Id)
    requires InsertableAll(EMPTY_TABLES, log)
    ensures forall e <- Select(log, CandidateKind, id) ::
              e.body.payload.CandidateCreated? && CandidateId(e) in Fold(EMPTY_TABLES, log).candidates
    ensures Distinct(IdsOf(Select(log, CandidateKind, id)))
  {
    if log != [] {
      var init, e := log[..|log| - 1], log[|log| - 1];
      SelectedDistinct(init, id);
      CandidatesStep(Fold(EMPTY_TABLES, init), e);
      hide FoldStep, Insertable, RefersTo;
      var before, after := Select(init, CandidateKind, id), Select(log, CandidateKind, id);
      assert forall k :: 0 <= k < |before| ==> after[k] == before[k];
      assert forall k :: 0 <= k < |before| ==> IdsOf(after)[k] == IdsOf(before)[k];
    }
  }

  lemma CandidatesStep(t: Tables, e: Envelope)
    requires Insertable(t, e)
    ensures t.candidates.Keys <= FoldStep(t, e).candidates.Keys
    ensures e.body.payload.CandidateCreated? ==>
              CandidateId(e) !in t.candidates && CandidateId(e) in FoldStep(t, e).candidates
  {
    hide ReplayStep;
  }

  /* ---------- What the cases say about the gathered lists ---------- */

  function CaseId(c: Case): Id {
    c.candidate.body.stream
  }

  ghost predicate CasesSound(cases: seq<Case>) {
    && (forall k :: 0 <= k < |cases| ==> CaseOk(cases[k]))
    && (forall i, j :: 0 <= i < j < |cases| ==> CaseId(cases[i]) != CaseId(cases[j]))
  }

  lemma CasesSoundPrefix(cases: seq<Case>, k: nat)
    requires CasesSound(cases) && k <= |cases|
    ensures CasesSound(cases[..k])
  {
    hide CaseOk;
  }

  /** What one sound case carries. */
  lemma CaseTyped(c: Case)
    requires CaseOk(c)
    ensures c.candidate.body.payload.CandidateCreated? && CandidateId(c.candidate) == CaseId(c)
    ensures c.decision.body.payload.DecisionRecorded? && DecisionOf(c.decision).candidateId == CaseId(c)
    ensures c.Evaluated? <==> Original(c.candidate)
    ensures c.Evaluated? ==> IsKind(OutcomeKind, c.outcome.body.payload) && OutcomeOf(c.outcome).candidateId == CaseId(c)
                             && OutcomeMatches(c.outcome.body, DecisionOf(c.decision))
    ensures forall e <- OwnRevocation(c) :: IsKind(RescanRevocationKind, e.body.payload) && LinkOf(e).rescanCandidateId == CaseId(c)
  {
  }

  lemma {:induction false} EndsTyped(cases: seq<Case>)
    requires CasesSound(cases)
    ensures forall e <- RevocationsIn(cases) :: IsKind(RescanRevocationKind, e.body.payload)
    ensures forall e <- OutcomesIn(cases) :: IsKind(OutcomeKind, e.body.payload)
  {
    if cases != [] {
      CasesSoundPrefix(cases, |cases| - 1);
      EndsTyped(cases[..|cases| - 1]);
      CaseTyped(cases[|cases| - 1]);
      hide CaseOk;
    }
  }

  lemma CasesTyped(cases: seq<Case>)
    requires CasesSound(cases)
    ensures forall k :: 0 <= k < |cases| ==>
              && cases[k].candidate.body.payload.CandidateCreated? && CandidateId(cases[k].candidate) == CaseId(cases[k])
              && cases[k].decision.body.payload.DecisionRecorded? && DecisionOf(cases[k].decision).candidateId == CaseId(cases[k])
  {
    hide CaseOk, CaseId;
    forall k | 0 <= k < |cases|
      ensures cases[k].candidate.body.payload.CandidateCreated? && CandidateId(cases[k].candidate) == CaseId(cases[k])
      ensures cases[k].decision.body.payload.DecisionRecorded? && DecisionOf(cases[k].decision).candidateId == CaseId(cases[k])
    {
      CaseTyped(cases[k]);
    }
  }

  lemma {:induction false} DecisionOfCase(cases: seq<Case>, k: nat)
    requires CasesSound(cases) && k < |cases|
    ensures forall e <- DecisionsIn(cases) :: e.body.payload.DecisionRecorded?
    ensures DecisionFor(DecisionsIn(cases), CaseId(cases[k])) == Some(cases[k].decision)
  {
    CasesTyped(cases);
    hide CaseOk;
    var last := |cases| - 1;
    assert DecisionsIn(cases)[..last] == DecisionsIn(cases[..last]);
    if k < last {
      CasesSoundPrefix(cases, last);
      DecisionOfCase(cases[..last], k);
    }
  }

  lemma {:induction false} OutcomeOfCase(cases: seq<Case>, e: Envelope) returns (k: nat)
    requires e in OutcomesIn(cases)
    ensures k < |cases| && cases[k].Evaluated? && cases[k].outcome == e
  {
    var last := |cases| - 1;
    if cases[last].Evaluated? && cases[last].outcome == e {
      k := last;
    } else {
      k := OutcomeOfCase(cases[..last], e);
    }
  }

  function OwnRevocation(c: Case): seq<Envelope> {
    if c.Rescanned? && c.revocation.Some? then [c.revocation.value] else []
  }

  lemma MatchingStep(init: seq<Envelope>, own: seq<Envelope>, candidateId: Id)
    requires forall e <- init + own :: IsKind(RescanRevocationKind, e.body.payload)
    requires |own| <= 1
    ensures MatchingRevocations(init + own, candidateId) ==
            MatchingRevocations(init, candidateId)
            + if own != [] && LinkOf(own[0]).rescanCandidateId == candidateId then own else []
  {
    if own == [] {
      assert init + own == init;
    } else {
      assert (init + own)[..|init|] == init;
      assert own == [own[0]];
    }
  }

  lemma MatchLast(cases: seq<Case>, candidateId: Id)
    requires CasesSound(cases) && cases != []
    ensures var init, last := cases[..|cases| - 1], cases[|cases| - 1];
            && CasesSound(init)
            && (forall e <- RevocationsIn(cases) :: IsKind(RescanRevocationKind, e.body.payload))
            && (forall e <- RevocationsIn(init) :: IsKind(RescanRevocationKind, e.body.payload))
            && MatchingRevocations(RevocationsIn(cases), candidateId) ==
               MatchingRevocations(RevocationsIn(init), candidateId) + if CaseId(last) == candidateId then OwnRevocation(last) else []
  {
    hide CaseOk, MatchingRevocations, IsKind, LinkOf;
    var last := |cases| - 1;
    CasesSoundPrefix(cases, last);
    EndsTyped(cases);
    EndsTyped(cases[..last]);
    CaseTyped(cases[last]);
    assert RevocationsIn(cases) == RevocationsIn(cases[..last]) + OwnRevocation(cases[last]);
    MatchingStep(RevocationsIn(cases[..last]), OwnRevocation(cases[last]), candidateId);
  }

  lemma {:induction false} NoRevocation(cases: seq<Case>, candidateId: Id)
    requires CasesSound(cases) && forall k :: 0 <= k < |cases| ==> CaseId(cases[k]) != candidateId
    ensures forall e <- RevocationsIn(cases) :: IsKind(RescanRevocationKind, e.body.payload)
    ensures MatchingRevocations(RevocationsIn(cases), candidateId) == []
  {
    hide CasesSound, MatchingRevocations, IsKind, LinkOf, CaseId;
    if cases == [] {
      NoneMatch(candidateId);
    } else {
      MatchLast(cases, candidateId);
      NoRevocation(cases[..|cases| - 1], candidateId);
    }
  }

  /** A candidate finds its own revocation and no other. */
  lemma {:induction false} RevocationOfCase(cases: seq<Case>, k: nat)
    requires CasesSound(cases) && k < |cases|
    ensures forall e <- RevocationsIn(cases) :: IsKind(RescanRevocationKind, e.body.payload)
    ensures MatchingRevocations(RevocationsIn(cases), CaseId(cases[k])) == OwnRevocation(cases[k])
  {
    hide CaseOk, MatchingRevocations, IsKind, LinkOf, CaseId, OwnRevocation;
    MatchLast(cases, CaseId(cases[k]));
    if k < |cases| - 1 {
      RevocationOfCase(cases[..|cases| - 1], k);
    } else {
      NoRevocation(cases[..|cases| - 1], CaseId(cases[k]));
    }
  }

  lemma NoneMatch(candidateId: Id)
    ensures MatchingRevocations([], candidateId) == []
  {
  }

  /** The k-th outcome is the outcome of the k-th original candidate. */
  lemma {:induction false} OriginalsAligned(cases: seq<Case>)
    requires CasesSound(cases)
    ensures var originals, outcomes := Originals(CandidatesIn(cases)), OutcomesIn(cases);
            && (forall e <- originals :: e.body.payload.CandidateCreated?)
            && (forall e <- outcomes :: IsKind(OutcomeKind, e.body.payload))
            && IdsOf(originals) == OutcomeIds(outcomes)
  {
    hide CaseOk, IsKind, OutcomeOf, CandidateId, IdsOf, OutcomeIds, Originals, OutcomesIn, CandidatesIn;
    EndsTyped(cases);
    CasesTyped(cases);
    if cases != [] {
      var last := |cases| - 1;
      CasesSoundPrefix(cases, last);
      OriginalsAligned(cases[..last]);
      CaseTyped(cases[last]);
      OriginalsStep(cases, last);
      OutcomesStep(cases, last);
      var own := if cases[last].Evaluated? then [cases[last].candidate] else [];
      var ended := if cases[last].Evaluated? then [cases[last].outcome] else [];
      IdsAppend(Originals(CandidatesIn(cases[..last])), own);
      OutcomeIdsAppend(OutcomesIn(cases[..last]), ended);
      OwnIds(cases[last]);
    } else {
      NoIds();
      assert cases == [];
    }
  }

  lemma OutcomesStep(cases: seq<Case>, last: nat)
    requires |cases| == last + 1
    ensures OutcomesIn(cases) == OutcomesIn(cases[..last]) + if cases[last].Evaluated? then [cases[last].outcome] else []
  {
  }

  lemma NoIds()
    ensures Originals(CandidatesIn([])) == [] && OutcomesIn([]) == [] && IdsOf([]) == [] && OutcomeIds([]) == []
  {
  }

  lemma OwnIds(c: Case)
    requires CaseOk(c)
    ensures c.Evaluated? ==> c.candidate.body.payload.CandidateCreated? && IsKind(OutcomeKind, c.outcome.body.payload)
    ensures IdsOf(if c.Evaluated? then [c.candidate] else []) == OutcomeIds(if c.Evaluated? then [c.outcome] else [])
  {
  }

  lemma OriginalsStep(cases: seq<Case>, last: nat)
    requires |cases| == last + 1
    ensures Originals(CandidatesIn(cases)) ==
            Originals(CandidatesIn(cases[..last])) + if Original(cases[last].candidate) then [cases[last].candidate] else []
  {
    assert CandidatesIn(cases)[..last] == CandidatesIn(cases[..last]);
  }

  lemma IdsAppend(a: seq<Envelope>, b: seq<Envelope>)
    requires forall e <- a + b :: e.body.payload.CandidateCreated?
    ensures IdsOf(a + b) == IdsOf(a) + IdsOf(b)
  {
  }

  lemma OutcomeIdsAppend(a: seq<Envelope>, b: seq<Envelope>)
    requires forall e <- a + b :: IsKind(OutcomeKind, e.body.payload)
    ensures OutcomeIds(a + b) == OutcomeIds(a) + OutcomeIds(b)
  {
  }

  /* ---------- No invalid history is ever reachable ---------- */

  lemma CasesAreSound(log: seq<Envelope>, id: Id, cases: seq<Case>)
    requires InsertableAll(EMPTY_TABLES, log) && Explains(cases, log, id)
    ensures CasesSound(cases)
  {
    hide CaseOk, InsertableAll, Select, Explains;
    SelectedDistinct(log, id);
    assert Select(log, CandidateKind, id) == CandidatesIn(cases) && forall c <- cases :: CaseOk(c) by { ExplainsParts(log, id, cases); }
    forall i, j | 0 <= i < j < |cases|
      ensures CaseId(cases[i]) != CaseId(cases[j])
    {
      var ids := IdsOf(CandidatesIn(cases));
      CaseTyped(cases[i]);
      CaseTyped(cases[j]);
      assert ids[i] == CaseId(cases[i]) && ids[j] == CaseId(cases[j]);
    }
  }

  lemma ExplainsParts(log: seq<Envelope>, id: Id, cases: seq<Case>)
    requires Explains(cases, log, id)
    ensures Select(log, CandidateKind, id) == CandidatesIn(cases) && forall c <- cases :: CaseOk(c)
    ensures Select(log, DecisionKind, id) == DecisionsIn(cases)
    ensures Select(log, OutcomeKind, id) == OutcomesIn(cases)
    ensures Select(log, RescanRevocationKind, id) == RevocationsIn(cases)
  {
    hide CaseOk, Select;
  }

  ghost predicate Gathers(g: Gathered, cases: seq<Case>) {
    && Typed(g) && CasesSound(cases)
    && g.candidates == CandidatesIn(cases) && g.decisions == DecisionsIn(cases)
    && g.outcomes == OutcomesIn(cases) && g.revocations == RevocationsIn(cases)
  }

  lemma GatherCases(log: seq<Envelope>, id: Id, cases: seq<Case>)
    requires InsertableAll(EMPTY_TABLES, log) && Explains(cases, log, id)
    ensures Gathers(Gather(log, id), cases)
  {
    hide CasesSound, Typed, InsertableAll, Select, Explains;
    CasesAreSound(log, id, cases);
    ExplainsParts(log, id, cases);
    GatherTyped(log, id);
  }

  lemma CandidatesCoherent(g: Gathered, cases: seq<Case>)
    requires Gathers(g, cases)
    ensures Distinct(IdsOf(g.candidates)) && Distinct(DecidedIds(g.decisions))
    ensures forall e <- g.decisions :: DecisionOf(e).candidateId in IdsOf(g.candidates) && e.body.stream == DecisionOf(e).candidateId
    ensures forall e <- g.candidates :: RescanForm(e.body)
  {
    hide CaseOk;
    CasesTyped(cases);
    forall k | 0 <= k < |cases|
      ensures IdsOf(g.candidates)[k] == CaseId(cases[k]) == DecidedIds(g.decisions)[k]
      ensures g.decisions[k].body.stream == CaseId(cases[k]) && RescanForm(g.candidates[k].body)
    {
      CaseForm(cases[k]);
    }
    forall e | e in g.decisions
      ensures DecisionOf(e).candidateId in IdsOf(g.candidates) && e.body.stream == DecisionOf(e).candidateId
    {
      var k :| 0 <= k < |cases| && g.decisions[k] == e;
      assert IdsOf(g.candidates)[k] == CaseId(cases[k]);
    }
    forall e | e in g.candidates
      ensures RescanForm(e.body)
    {
      var k :| 0 <= k < |cases| && g.candidates[k] == e;
      assert RescanForm(g.candidates[k].body);
    }
  }

  lemma CaseForm(c: Case)
    requires CaseOk(c)
    ensures c.decision.body.stream == CaseId(c)
    ensures c.candidate.body.payload.CandidateCreated? && RescanForm(c.candidate.body)
  {
  }

  lemma OutcomesCoherent(g: Gathered, cases: seq<Case>, e: Envelope)
    requires Gathers(g, cases) && e in g.outcomes
    ensures OutcomeValid(e, g)
  {
    hide CaseOk, CasesSound;
    var k := OutcomeOfCase(cases, e);
    assert CaseOk(cases[k]) by { SoundCase(cases, k); }
    CaseTyped(cases[k]);
    DecisionOfCase(cases, k);
    assert g.candidates[k] == cases[k].candidate;
  }

  lemma SoundCase(cases: seq<Case>, k: nat)
    requires CasesSound(cases) && k < |cases|
    ensures CaseOk(cases[k])
  {
    hide CaseOk;
  }

  lemma RescansCoherent(g: Gathered, cases: seq<Case>, e: Envelope)
    requires Gathers(g, cases) && e in g.candidates && !Original(e)
    ensures RescanValid(e, g)
  {
    hide CasesSound, CaseOk;
    var k :| 0 <= k < |cases| && CandidatesIn(cases)[k] == e;
    SoundCase(cases, k);
    CaseTyped(cases[k]);
    DecisionOfCase(cases, k);
    RevocationOfCase(cases, k);
    RescanCaseForm(cases[k]);
  }

  lemma RescanCaseForm(c: Case)
    requires CaseOk(c) && c.Rescanned?
    ensures c.decision.body.payload.DecisionRecorded?
    ensures |OwnRevocation(c)| == if DecisionOf(c.decision).actual != Allow then 1 else 0
    ensures OwnRevocation(c) != [] ==> RevocationMatches(OwnRevocation(c)[0].body, c.candidate.body, DecisionOf(c.decision))
  {
  }

  lemma EventsCoherent(log: seq<Envelope>, id: Id)
    requires SignedAll(log) && id in CapturesOf(log)
    ensures forall e <- Select(log, CandidateKind, id) ::
              e.body.payload.CandidateCreated? && Provenance(e.body, CapturesOf(log)[id].record)
    ensures forall e <- Select(log, CompletionKind, id) :: CompletionValid(e.body, CapturesOf(log)[id].record)
  {
    hide SignedAll, CapturesOf, Provenance, CompletionValid, Select;
    SelectedAreLogged(log, CandidateKind, id);
    SelectedAreLogged(log, CompletionKind, id);
    forall e | e in Select(log, CandidateKind, id)
      ensures e.body.payload.CandidateCreated? && Provenance(e.body, CapturesOf(log)[id].record)
    {
      SelectedSigned(log, id, e);
    }
    forall e | e in Select(log, CompletionKind, id)
      ensures CompletionValid(e.body, CapturesOf(log)[id].record)
    {
      SelectedSigned(log, id, e);
    }
  }

  lemma HistoryCoherent(s: State, limits: Limits, id: Id, cases: seq<Case>)
    requires QueueStory(s, limits) && id in s.enqueued && Explains(cases, s.log, id) && Phased(s, id, cases)
    ensures Gathers(Gather(s.log, id), cases)
    ensures id in CapturesOf(s.log) && Coherent(Gather(s.log, id), CapturesOf(s.log)[id].record)
  {
    hide SignedAll, CapturesOf, Provenance, CompletionValid, Select, Explains, AllAccounted, InsertableAll, OutcomeValid,
         RescanValid, RescanForm, Distinct, WithinLimits, RowOk, CasesSound, Typed;
    var g := Gather(s.log, id);
    EventsCoherent(s.log, id);
    GatherCases(s.log, id, cases);
    CandidatesCoherent(g, cases);
    forall e | e in g.outcomes
      ensures OutcomeValid(e, g)
    {
      OutcomesCoherent(g, cases, e);
    }
    forall e | e in g.candidates && !Original(e)
      ensures RescanValid(e, g)
    {
      RescansCoherent(g, cases, e);
    }
  }

  /* ---------- The answer in each phase ---------- */

  lemma OriginalIsDecided(g: Gathered, cases: seq<Case>, id: Id)
    requires Gathers(g, cases) && id in IdsOf(Originals(g.candidates))
    ensures id in DecidedIds(g.decisions)
  {
    hide CaseOk, CasesSound, Typed;
    CasesTyped(cases);
    var originals := Originals(g.candidates);
    var k :| 0 <= k < |originals| && IdsOf(originals)[k] == id;
    assert originals[k] in originals;
    var i :| 0 <= i < |cases| && g.candidates[i] == originals[k];
    assert DecidedIds(g.decisions)[i] == id;
  }

  lemma CompleteFromCases(g: Gathered, cases: seq<Case>)
    requires Gathers(g, cases) && OutcomesIn(cases) != []
    ensures CompleteSet(g, NoRow)
  {
    hide CaseOk, CasesSound, DecidedIds, OutcomesIn;
    OriginalsAligned(cases);
    var originals := IdsOf(Originals(g.candidates));
    forall id | id in originals
      ensures id in DecidedIds(g.decisions)
    {
      OriginalIsDecided(g, cases, id);
    }
    assert AsSet(originals) == (set id | id in AsSet(DecidedIds(g.decisions)) && id in originals);
    assert |OutcomeIds(g.outcomes)| == |g.outcomes|;
  }

  lemma NoOutcomesNoSet(g: Gathered, cases: seq<Case>, state: QueueState)
    requires Gathers(g, cases) && cases == []
    ensures !CompleteSet(g, state) && Originals(g.candidates) == [] && g.candidates == [] && g.outcomes == []
  {
  }

  lemma ReportOfCases(s: State, id: Id, g: Gathered, cases: seq<Case>, record: EvidenceRecord)
    requires Gathers(g, cases) && Coherent(g, record) && Phased(s, id, cases)
    requires g.failures == Select(s.log, FailureKind, id) && g.completions == Select(s.log, CompletionKind, id)
    ensures var r := Report(g, record, StateOf(s.queue, id));
            && r.outcome == (if id !in s.queue then Some(CompletedOutcome)
                             else if s.queue[id].phase.Failed? then Some(FailedOutcome) else None)
            && r.terminalEventIds == EventIdsOf(g.failures + g.completions + if id in s.queue then [] else g.outcomes)
            && r.candidateIds == IdsOf(Originals(g.candidates))
            && r.actions == ActionsOf(g.outcomes)
  {
    hide CasesSound, Coherent, Typed, Select, CompleteSet, LatestRescan, SummaryOf, Drained;
    if cases == [] {
      NoOutcomesNoSet(g, cases, StateOf(s.queue, id));
    }
    if Drained(s.log, cases) {
      DrainedSome(s.log, cases);
      CompleteFromCases(g, cases);
    }
    assert g.failures + [] == g.failures && g.failures + g.completions + [] == g.failures + g.completions;
    assert [] + g.completions == g.completions && [] + [] + g.outcomes == g.outcomes;
  }

  /** The signed history is never refused, whatever row is read beside it. */
  lemma ExamineFinds(s: State, limits: Limits, id: Id, queue: map<Id, QueueRow>)
    requires QueueStory(s, limits) && id in s.enqueued
    ensures id in CapturesOf(s.log)
    ensures var g, record := Gather(s.log, id), CapturesOf(s.log)[id].record;
            Typed(g) && Coherent(g, record) && Examine(s.log, queue, id) == Found(Report(g, record, StateOf(queue, id)))
  {
    hide SignedAll, CapturesOf, Select, Explains, InsertableAll, Coherent, WithinLimits, RowOk, Typed, Related, CaptureEvents,
         Report, DistinctEvents, Phased;
    assert Accounted(s, id);
    var cases :| Explains(cases, s.log, id) && Phased(s, id, cases);
    HistoryCoherent(s, limits, id, cases);
    CapturedOnce(s.log, id);
    GatherWhole(s.log, id);
  }

  /** In every reachable state the signed history of queued evidence is read without an error, and the answer is true:
      terminal exactly when no pending row remains, failed exactly when a failed row exists, and each reported
      action is the one its candidate's signed decision took. */
  lemma HistoryIsTrue(limits: Limits, cs: seq<Command>, id: Id)
    requires id in Run(INITIAL, limits, cs).enqueued
    ensures var s := Run(INITIAL, limits, cs);
            var reply := Examine(s.log, s.queue, id);
            && reply.Found?
            && var r := reply.status;
               && (r.outcome == None <==> IsPending(s, id))
               && (r.outcome == Some(FailedOutcome) <==> id in s.queue && s.queue[id].phase.Failed?)
               && (r.outcome == Some(FailedOutcome) ==> r.terminalEventIds == [s.queue[id].phase.terminalEventId])
               && (r.outcome != Some(CompletedOutcome) ==> r.candidateIds == [] && r.actions == [])
               && |r.candidateIds| == |r.actions|
               && (forall k :: 0 <= k < |r.actions| ==> Decided(s.log, r.candidateIds[k], r.actions[k]))
  {
    var s := Run(INITIAL, limits, cs);
    hide Run, CapturesOf, SignedAll, InsertableAll, Coherent, Typed, Examine, Explains, Select, Report, WithinLimits, RowOk, CasesSound;
    RunKeepsStory(limits, cs);
    ExamineFinds(s, limits, id, s.queue);
    assert Accounted(s, id);
    var cases :| Explains(cases, s.log, id) && Phased(s, id, cases);
    HistoryCoherent(s, limits, id, cases);
    ReportOfCases(s, id, Gather(s.log, id), cases, CapturesOf(s.log)[id].record);
    OriginalsAligned(cases);
    ActionsDecided(s.log, id, cases);
    if cases == [] {
      NoOutcomesNoSet(Gather(s.log, id), cases, NoRow);
      assert |IdsOf([])| == 0 && |ActionsOf([])| == 0;
    }
  }

  ghost predicate Decided(log: seq<Envelope>, candidateId: Id, action: Action) {
    exists e :: e in log && e.body.payload.DecisionRecorded?
                && e.body.payload.decision.candidateId == candidateId && e.body.payload.decision.actual == action
  }

  lemma ActionsDecided(log: seq<Envelope>, id: Id, cases: seq<Case>)
    requires CasesSound(cases) && Explains(cases, log, id)
    ensures forall e <- OutcomesIn(cases) :: IsKind(OutcomeKind, e.body.payload)
    ensures forall k :: 0 <= k < |OutcomesIn(cases)| ==>
              Decided(log, OutcomeIds(OutcomesIn(cases))[k], ActionsOf(OutcomesIn(cases))[k])
  {
    hide CaseOk, CasesSound, Select, Explains, Decided;
    EndsTyped(cases);
    forall k | 0 <= k < |OutcomesIn(cases)|
      ensures Decided(log, OutcomeIds(OutcomesIn(cases))[k], ActionsOf(OutcomesIn(cases))[k])
    {
      var e := OutcomesIn(cases)[k];
      var i := OutcomeOfCase(cases, e);
      SoundCase(cases, i);
      CaseTyped(cases[i]);
      DecisionLogged(log, id, cases, i);
    }
  }

  lemma DecisionLogged(log: seq<Envelope>, id: Id, cases: seq<Case>, k: nat)
    requires Explains(cases, log, id) && k < |cases| && CaseOk(cases[k])
    ensures cases[k].decision.body.payload.DecisionRecorded?
    ensures Decided(log, DecisionOf(cases[k].decision).candidateId, DecisionOf(cases[k].decision).actual)
  {
    SelectedAreLogged(log, DecisionKind, id);
    assert DecisionsIn(cases)[k] == cases[k].decision;
    assert cases[k].decision in Select(log, DecisionKind, id);
    hide Select, CandidatesIn, OutcomesIn, RevocationsIn, DecisionsIn;
  }

  /* ---------- The answer never changes once it is terminal ---------- */

  lemma SilentSelects(log: seq<Envelope>, es: seq<Envelope>, id: Id)
    requires forall e <- es :: !Mentions(e.body, id)
    ensures forall kind: Kind :: Select(log + es, kind, id) == Select(log, kind, id)
  {
    hide Mentions;
    forall kind: Kind
      ensures Select(log + es, kind, id) == Select(log, kind, id)
    {
      SelectConcat(log, es, kind, id);
      SelectNothing(es, kind, id);
    }
  }

  lemma {:induction false} OriginalsConcat(a: seq<Envelope>, b: seq<Envelope>)
    ensures Originals(a + b) == Originals(a) + Originals(b)
  {
    if b == [] {
      assert a + b == a;
    } else {
      assert (a + b)[..|a + b| - 1] == a + b[..|b| - 1];
      OriginalsConcat(a, b[..|b| - 1]);
    }
  }

  /** Whatever happens later, the events that decide a terminal answer stay the same. */
  lemma TerminalEventsStay(s: State, limits: Limits, c: Command, id: Id)
    requires QueueStory(s, limits) && id in s.enqueued && !IsPending(s, id)
    requires Offered(s, c) && Accepted(s, limits, c)
    ensures var s' := Committed(s, limits, c);
            && (id in s'.queue <==> id in s.queue) && (id in s.queue ==> s'.queue[id] == s.queue[id])
            && Originals(Select(s'.log, CandidateKind, id)) == Originals(Select(s.log, CandidateKind, id))
            && Select(s'.log, OutcomeKind, id) == Select(s.log, OutcomeKind, id)
            && Select(s'.log, FailureKind, id) == Select(s.log, FailureKind, id)
            && Select(s'.log, CompletionKind, id) == Select(s.log, CompletionKind, id)
  {
    hide LogInv, Accepted, Inputs, Explains, Select, AllAccounted, CapturesOf, WithinLimits, RowOk, TablesOf, RefersTo, EndsRow,
         MemoryReadsAfter, QuarantineReadsAfter;
    var inputs := Inputs(s, limits, c);
    var es := Stamp(inputs, |s.log|);
    if !SpeaksOf(c, id) {
      Silent(s, limits, c, id);
      assert forall e <- es :: e.body in inputs;
      SilentSelects(s.log, es, id);
    } else if c.Rescan? {
      RescanLater(s, limits, c, id);
    } else if c.Capture? {
      CaptureNotKnown(s, limits, c);
      assert false;
    }
  }

  lemma RescanLater(s: State, limits: Limits, c: Command, id: Id)
    requires LogInv(s) && Offered(s, c) && c.Rescan? && RefersTo(c.rescan.candidate.refs, id)
    ensures var log' := s.log + Stamp(Inputs(s, limits, c), |s.log|);
            && Originals(Select(log', CandidateKind, id)) == Originals(Select(s.log, CandidateKind, id))
            && Select(log', OutcomeKind, id) == Select(s.log, OutcomeKind, id)
            && Select(log', FailureKind, id) == Select(s.log, FailureKind, id)
            && Select(log', CompletionKind, id) == Select(s.log, CompletionKind, id)
  {
    RescanBatch(s, limits, c, id);
    var es := Stamp(Inputs(s, limits, c), |s.log|);
    ExplainsParts(es, id, [RescanCase(c.rescan, |s.log|)]);
    RescanHasNoOriginal(c.rescan, |s.log|);
    hide LogInv, Offered, Inputs, Explains, Select, Stamp, RefersTo, TablesOf, Originals;
    SelectConcat(s.log, es, CandidateKind, id);
    SelectConcat(s.log, es, OutcomeKind, id);
    SelectConcat(s.log, es, FailureKind, id);
    SelectConcat(s.log, es, CompletionKind, id);
    OriginalsConcat(Select(s.log, CandidateKind, id), Select(es, CandidateKind, id));
  }

  lemma RescanHasNoOriginal(p: RescanPlan, after: nat)
    ensures Originals(CandidatesIn([RescanCase(p, after)])) == [] && OutcomesIn([RescanCase(p, after)]) == []
  {
    OneCase(RescanCase(p, after));
    hide RescanInputs;
    assert [RescanCase(p, after).candidate][..0] == [];
  }

  function TerminalPart(r: EvidenceStatus): (Option<TerminalOutcome>, seq<Id>, seq<Id>, seq<Action>) {
    (r.outcome, r.terminalEventIds, r.candidateIds, r.actions)
  }

  lemma StatusStays(s: State, limits: Limits, c: Command, id: Id)
    requires QueueStory(s, limits) && id in s.enqueued && !IsPending(s, id)
    ensures var s' := Next(s, limits, c);
            && id in s'.enqueued && !IsPending(s', id)
            && Examine(s.log, s.queue, id).Found? && Examine(s'.log, s'.queue, id).Found?
            && TerminalPart(Examine(s'.log, s'.queue, id).status) == TerminalPart(Examine(s.log, s.queue, id).status)
  {
    hide QueueInv, LogInv, Accepted, Offered, Explains, Select, AllAccounted, CapturesOf, Examine, Report, Typed, Coherent,
         QueueAfter, Originals, IdsOf, ActionsOf, EventIdsOf;
    var s' := Next(s, limits, c);
    ReportFromEvents(s, limits, id);
    if Offered(s, c) && Accepted(s, limits, c) {
      StepKeepsStory(s, limits, c);
      TerminalEventsStay(s, limits, c, id);
      ReportFromEvents(s', limits, id);
    }
  }

  /** The terminal part of the answer depends only on the row and on four lists of events. */
  lemma ReportFromEvents(s: State, limits: Limits, id: Id)
    requires QueueStory(s, limits) && id in s.enqueued
    ensures var reply, g := Examine(s.log, s.queue, id), Gather(s.log, id);
            && reply.Found? && Typed(g) && (forall e <- Originals(g.candidates) :: e.body.payload.CandidateCreated?)
            && reply.status.outcome == (if id !in s.queue then Some(CompletedOutcome)
                                        else if s.queue[id].phase.Failed? then Some(FailedOutcome) else None)
            && reply.status.terminalEventIds == EventIdsOf(g.failures + g.completions + if id in s.queue then [] else g.outcomes)
            && reply.status.candidateIds == IdsOf(Originals(g.candidates))
            && reply.status.actions == ActionsOf(g.outcomes)
  {
    hide CapturesOf, SignedAll, InsertableAll, Coherent, Examine, Explains, Select, Report, WithinLimits, RowOk, CasesSound,
         EventIdsOf, DistinctEvents;
    ExamineFinds(s, limits, id, s.queue);
    assert Accounted(s, id);
    var cases :| Explains(cases, s.log, id) && Phased(s, id, cases);
    HistoryCoherent(s, limits, id, cases);
    ReportOfCases(s, id, Gather(s.log, id), cases, CapturesOf(s.log)[id].record);
  }

  /** No later approval, block, revocation, expiry, rescan or anything else changes what a terminal history says. */
  lemma {:induction false} HistoryNeverChanges(s: State, limits: Limits, later: seq<Command>, id: Id)
    requires QueueStory(s, limits) && id in s.enqueued && !IsPending(s, id)
    ensures var s' := Run(s, limits, later);
            && QueueStory(s', limits) && id in s'.enqueued && !IsPending(s', id)
            && Examine(s.log, s.queue, id).Found? && Examine(s'.log, s'.queue, id).Found?
            && TerminalPart(Examine(s'.log, s'.queue, id).status) == TerminalPart(Examine(s.log, s.queue, id).status)
  {
    hide QueueStory, Examine, Next, IsPending;
    if later == [] {
      StatusStays(s, limits, Release, id);
    } else {
      var middle := Run(s, limits, later[..|later| - 1]);
      HistoryNeverChanges(s, limits, later[..|later| - 1], id);
      StatusStays(middle, limits, later[|later| - 1], id);
      StepKeepsStory(middle, limits, later[|later| - 1]);
    }
  }

  /* ---------- An older log beside a newer row ---------- */

  /** A terminal row, or its absence, stays as it is. */
  lemma {:induction false} TerminalRowStays(s: State, limits: Limits, later: seq<Command>, id: Id)
    requires QueueStory(s, limits) && id in s.enqueued && !IsPending(s, id)
    ensures var s' := Run(s, limits, later);
            && QueueStory(s', limits) && id in s'.enqueued && !IsPending(s', id)
            && StateOf(s'.queue, id) == StateOf(s.queue, id)
  {
    hide QueueStory, Examine, Next;
    if later != [] {
      var c, middle := later[|later| - 1], Run(s, limits, later[..|later| - 1]);
      TerminalRowStays(s, limits, later[..|later| - 1], id);
      StatusStays(middle, limits, c, id);
      StepKeepsStory(middle, limits, c);
      RowStep(middle, limits, c, id);
    }
  }

  lemma RowStep(s: State, limits: Limits, c: Command, id: Id)
    requires QueueStory(s, limits) && id in s.enqueued && !IsPending(s, id)
    ensures StateOf(Next(s, limits, c).queue, id) == StateOf(s.queue, id)
  {
    hide QueueStory, Offered, Accepted, Committed;
    if Offered(s, c) && Accepted(s, limits, c) {
      TerminalEventsStay(s, limits, c, id);
    }
  }

  /** The query reads the log first and the row afterwards. Whatever was appended in between, the answer is the one
      that the log it read supports. */
  lemma NewerRow(s: State, limits: Limits, later: seq<Command>, id: Id)
    requires QueueStory(s, limits) && id in s.enqueued
    ensures var reply, earlier := Examine(s.log, Run(s, limits, later).queue, id), Examine(s.log, s.queue, id);
            reply.Found? && earlier.Found? && TerminalPart(reply.status) == TerminalPart(earlier.status)
  {
    hide Run, QueueStory, Examine, Report, Typed, Coherent, TerminalPart;
    var queue := Run(s, limits, later).queue;
    ExamineFinds(s, limits, id, s.queue);
    ExamineFinds(s, limits, id, queue);
    if IsPending(s, id) {
      PendingReport(s, limits, id, StateOf(queue, id));
      PendingReport(s, limits, id, StateOf(s.queue, id));
    } else {
      TerminalRowStays(s, limits, later, id);
    }
  }

  lemma PendingReport(s: State, limits: Limits, id: Id, state: QueueState)
    requires QueueStory(s, limits) && id in s.enqueued && IsPending(s, id)
    ensures id in CapturesOf(s.log)
    ensures var g, record := Gather(s.log, id), CapturesOf(s.log)[id].record;
            Typed(g) && Coherent(g, record) && TerminalPart(Report(g, record, state)) == (None, [], [], [])
  {
    hide CapturesOf, SignedAll, InsertableAll, Coherent, Examine, Explains, Select, WithinLimits, RowOk, CasesSound, DistinctEvents,
         CompleteSet, LatestRescan, SummaryOf;
    ExamineFinds(s, limits, id, s.queue);
    assert Accounted(s, id);
    var cases :| Explains(cases, s.log, id) && Phased(s, id, cases);
    HistoryCoherent(s, limits, id, cases);
    NoOutcomesNoSet(Gather(s.log, id), cases, state);
    assert EventIdsOf([]) == [];
  }
}
