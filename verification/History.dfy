/** The events that mention one piece of evidence, and the cases that explain them: every
    candidate comes with its decision and its outcome or, for a rescan, its revocation. */
module History {
  import opened Domain
  import opened Ledger

  datatype Kind = CandidateKind | DecisionKind | OutcomeKind | FailureKind | CompletionKind | RescanRevocationKind

  predicate RefersTo(refs: seq<EvidenceRef>, id: Id) {
    exists r :: r in refs && r.evidenceId == id
  }

  predicate Mentions(e: EventInput, id: Id) {
    RefersTo(e.refs, id)
  }

  predicate IsKind(kind: Kind, p: Payload) {
    match kind
    case CandidateKind => p.CandidateCreated?
    case DecisionKind => p.DecisionRecorded?
    case OutcomeKind => p.MemoryCommitted? || p.MemoryRedacted? || p.MemoryQuarantined? || p.MemoryBlocked?
    case FailureKind => p.EvaluationFailed?
    case CompletionKind => p.EvaluationCompleted?
    case RescanRevocationKind => p.MemoryRevoked? && p.rescan.Some?
  }

  predicate Picks(kind: Kind, id: Id, e: EventInput) {
    Mentions(e, id) && IsKind(kind, e.payload)
  }

  /** The events of one kind that mention the evidence, in log order. */
  function Select(log: seq<Envelope>, kind: Kind, id: Id): seq<Envelope> {
    if log == [] then []
    else
      var e := log[|log| - 1];
      Select(log[..|log| - 1], kind, id) + if Picks(kind, id, e.body) then [e] else []
  }

  lemma {:induction false} SelectConcat(a: seq<Envelope>, b: seq<Envelope>, kind: Kind, id: Id)
    ensures Select(a + b, kind, id) == Select(a, kind, id) + Select(b, kind, id)
  {
    hide Picks;
    if b == [] {
      assert a + b == a;
    } else {
      assert (a + b)[..|a + b| - 1] == a + b[..|b| - 1];
      SelectConcat(a, b[..|b| - 1], kind, id);
    }
  }

  lemma {:induction false} SelectNothing(es: seq<Envelope>, kind: Kind, id: Id)
    requires forall e <- es :: !Picks(kind, id, e.body)
    ensures Select(es, kind, id) == []
  {
    hide Picks;
    if es != [] {
      SelectNothing(es[..|es| - 1], kind, id);
    }
  }

  lemma SelectOne(e: Envelope, kind: Kind, id: Id)
    ensures Select([e], kind, id) == if Picks(kind, id, e.body) then [e] else []
  {
    hide Picks;
    assert [e][..0] == [];
  }

  lemma {:induction false} SelectedAreLogged(log: seq<Envelope>, kind: Kind, id: Id)
    ensures forall e <- Select(log, kind, id) :: e in log && Picks(kind, id, e.body)
  {
    hide Picks;
    if log != [] {
      SelectedAreLogged(log[..|log| - 1], kind, id);
    }
  }

  /* ---------- Cases ---------- */

  datatype Case =
    | Evaluated(candidate: Envelope, decision: Envelope, outcome: Envelope)
    | Rescanned(candidate: Envelope, decision: Envelope, revocation: Option<Envelope>)

  function CandidatesIn(cases: seq<Case>): seq<Envelope> {
    seq(|cases|, i requires 0 <= i < |cases| => cases[i].candidate)
  }

  function DecisionsIn(cases: seq<Case>): seq<Envelope> {
    seq(|cases|, i requires 0 <= i < |cases| => cases[i].decision)
  }

  function OutcomesIn(cases: seq<Case>): seq<Envelope> {
    if cases == [] then []
    else
      var c := cases[|cases| - 1];
      OutcomesIn(cases[..|cases| - 1]) + if c.Evaluated? then [c.outcome] else []
  }

  function RevocationsIn(cases: seq<Case>): seq<Envelope> {
    if cases == [] then []
    else
      var c := cases[|cases| - 1];
      RevocationsIn(cases[..|cases| - 1]) + if c.Rescanned? && c.revocation.Some? then [c.revocation.value] else []
  }

  predicate OutcomeMatches(e: EventInput, d: Decision) {
    && (match d.actual
        case Allow => e.payload.MemoryCommitted?
        case Redact => e.payload.MemoryRedacted?
        case Quarantine => e.payload.MemoryQuarantined?
        case Block => e.payload.MemoryBlocked?)
    && e.payload.outcome.candidateId == d.candidateId && e.payload.outcome.actual == d.actual
    && e.stream == d.candidateId && e.policy == Some(d.policy)
  }

  predicate RevocationMatches(e: EventInput, candidate: EventInput, d: Decision) {
    && e.payload.MemoryRevoked? && e.payload.rescan.Some?
    && e.memoryId == candidate.memoryId == Some(e.payload.revokedId)
    && var link := e.payload.rescan.value;
       && link.rescanCandidateId == d.candidateId && link.rescanCandidateEventId == candidate.eventId
       && link.rescanDecisionId == d.decisionId && link.actual == d.actual && link.would == d.would
  }

  predicate CaseOk(c: Case) {
    && c.candidate.body.payload.CandidateCreated? && c.decision.body.payload.DecisionRecorded?
    && var candidate, d := c.candidate.body.payload.candidate, c.decision.body.payload.decision;
       && d.candidateId == candidate.candidateId == c.candidate.body.stream == c.decision.body.stream
       && match c
          case Evaluated(_, _, o) => !c.candidate.body.actor.OperatorActor? && OutcomeMatches(o.body, d)
          case Rescanned(_, _, r) =>
            && c.candidate.body.actor.OperatorActor? && c.candidate.body.memoryId.Some? && candidate.extractor.RescanSanitizer?
            && (r.Some? <==> d.actual != Allow)
            && (r.Some? ==> RevocationMatches(r.value.body, c.candidate.body, d))
  }

  /** The cases are exactly the log's candidate history of the evidence. */
  ghost predicate Explains(cases: seq<Case>, log: seq<Envelope>, id: Id) {
    && Select(log, CandidateKind, id) == CandidatesIn(cases)
    && Select(log, DecisionKind, id) == DecisionsIn(cases)
    && Select(log, OutcomeKind, id) == OutcomesIn(cases)
    && Select(log, RescanRevocationKind, id) == RevocationsIn(cases)
    && forall c <- cases :: CaseOk(c)
  }

  lemma {:induction false} CasesConcat(a: seq<Case>, b: seq<Case>)
    ensures CandidatesIn(a + b) == CandidatesIn(a) + CandidatesIn(b)
    ensures DecisionsIn(a + b) == DecisionsIn(a) + DecisionsIn(b)
    ensures OutcomesIn(a + b) == OutcomesIn(a) + OutcomesIn(b)
    ensures RevocationsIn(a + b) == RevocationsIn(a) + RevocationsIn(b)
  {
    if b == [] {
      assert a + b == a;
    } else {
      assert (a + b)[..|a + b| - 1] == a + b[..|b| - 1];
      CasesConcat(a, b[..|b| - 1]);
    }
  }

  lemma {:induction false} ExplainsConcat(a: seq<Case>, x: seq<Envelope>, b: seq<Case>, y: seq<Envelope>, id: Id)
    requires Explains(a, x, id) && Explains(b, y, id)
    ensures Explains(a + b, x + y, id)
  {
    hide CaseOk, Select, CandidatesIn, DecisionsIn, OutcomesIn, RevocationsIn;
    CasesConcat(a, b);
    SelectConcat(x, y, CandidateKind, id);
    SelectConcat(x, y, DecisionKind, id);
    SelectConcat(x, y, OutcomeKind, id);
    SelectConcat(x, y, RescanRevocationKind, id);
  }

  /** Events that mention the evidence in none of the four kinds add no case. */
  lemma NoCases(es: seq<Envelope>, id: Id)
    requires forall e <- es, kind :: kind != FailureKind && kind != CompletionKind ==> !Picks(kind, id, e.body)
    ensures Explains([], es, id)
  {
    SelectNothing(es, CandidateKind, id);
    SelectNothing(es, DecisionKind, id);
    SelectNothing(es, OutcomeKind, id);
    SelectNothing(es, RescanRevocationKind, id);
  }

  /* ---------- One plan is one case ---------- */

  function PlanCase(p: Plan, after: nat): (c: Case) {
    var last := after + |PlanInputs(p)|;
    Evaluated(Envelope(after + 1, PlanInput(p, p.candidateEventId, CandidateCreated(p.candidate))),
              Envelope(last - 1, PlanInput(p, p.decisionEventId, DecisionRecorded(p.decision))),
              Envelope(last, PlanInput(p, p.outcomeEventId, OutcomePayload(p))))
  }

  function Pick(kind: Kind, id: Id, e: Envelope): seq<Envelope> {
    if Picks(kind, id, e.body) then [e] else []
  }

  /** A batch that starts with a candidate, then has only results, then a short tail. */
  lemma SelectAround(first: Envelope, mid: seq<Envelope>, tail: seq<Envelope>, kind: Kind, id: Id)
    requires forall e <- mid :: e.body.payload.VerdictRecorded? || e.body.payload.AssessmentRecorded?
    ensures Select([first] + mid + tail, kind, id) == Pick(kind, id, first) + Select(tail, kind, id)
  {
    SelectNothing(mid, kind, id);
    hide Picks, IsKind, Select;
    SelectOne(first, kind, id);
    SelectConcat([first], mid, kind, id);
    SelectConcat([first] + mid, tail, kind, id);
  }

  lemma SelectPair(a: Envelope, b: Envelope, kind: Kind, id: Id)
    ensures Select([a, b], kind, id) == Pick(kind, id, a) + Pick(kind, id, b)
  {
    hide Picks, Select;
    assert [a, b] == [a] + [b];
    SelectConcat([a], [b], kind, id);
    SelectOne(a, kind, id);
    SelectOne(b, kind, id);
  }

  lemma OneCase(c: Case)
    ensures CandidatesIn([c]) == [c.candidate] && DecisionsIn([c]) == [c.decision]
    ensures OutcomesIn([c]) == if c.Evaluated? then [c.outcome] else []
    ensures RevocationsIn([c]) == if c.Rescanned? && c.revocation.Some? then [c.revocation.value] else []
  {
    assert [c][..0] == [];
  }

  function CaseTail(c: Case): seq<Envelope> {
    match c
    case Evaluated(_, d, o) => [d, o]
    case Rescanned(_, d, r) => if r.Some? then [d, r.value] else [d]
  }

  lemma CaseEnds(c: Case, id: Id, kind: Kind)
    requires kind != FailureKind && kind != CompletionKind
    requires CaseOk(c) && Mentions(c.candidate.body, id) && forall e <- CaseTail(c) :: Mentions(e.body, id)
    ensures Pick(kind, id, c.candidate) + Select(CaseTail(c), kind, id) ==
            match kind
            case CandidateKind => CandidatesIn([c])
            case DecisionKind => DecisionsIn([c])
            case OutcomeKind => OutcomesIn([c])
            case _ => RevocationsIn([c])
  {
    OneCase(c);
    hide Mentions, Select, CandidatesIn, DecisionsIn, OutcomesIn, RevocationsIn;
    match c {
      case Evaluated(_, d, o) => SelectPair(d, o, kind, id);
      case Rescanned(_, d, r) => if r.Some? { SelectPair(d, r.value, kind, id); } else { SelectOne(d, kind, id); }
    }
    assert c.decision in CaseTail(c);
    assert c.Evaluated? ==> c.outcome in CaseTail(c);
    assert c.Rescanned? && c.revocation.Some? ==> c.revocation.value in CaseTail(c);
  }

  lemma CaseExplained(c: Case, mid: seq<Envelope>, id: Id)
    requires CaseOk(c) && Mentions(c.candidate.body, id) && forall e <- CaseTail(c) :: Mentions(e.body, id)
    requires forall e <- mid :: e.body.payload.VerdictRecorded? || e.body.payload.AssessmentRecorded?
    ensures Explains([c], [c.candidate] + mid + CaseTail(c), id)
  {
    hide CaseOk, Mentions, Select, CaseTail, CandidatesIn, DecisionsIn, OutcomesIn, RevocationsIn, Pick;
    forall kind: Kind | kind != FailureKind && kind != CompletionKind
      ensures Select([c.candidate] + mid + CaseTail(c), kind, id) ==
              match kind
              case CandidateKind => CandidatesIn([c])
              case DecisionKind => DecisionsIn([c])
              case OutcomeKind => OutcomesIn([c])
              case _ => RevocationsIn([c])
    {
      SelectAround(c.candidate, mid, CaseTail(c), kind, id);
      CaseEnds(c, id, kind);
    }
  }

  lemma PlanExplained(p: Plan, after: nat, id: Id)
    requires ResultsFor(p.candidate, p.verdicts, p.semantic, p.decision) && RefersTo(p.candidate.refs, id)
    ensures Explains([PlanCase(p, after)], Stamp(PlanInputs(p), after), id)
  {
    var es, c := Stamp(PlanInputs(p), after), PlanCase(p, after);
    var mid := es[1..|es| - 2];
    assert es == [c.candidate] + mid + CaseTail(c);
    assert forall i :: 0 <= i < |p.verdicts| ==> es[1 + i].body == PlanInput(p, p.verdicts[i].eventId, VerdictRecorded(p.verdicts[i].result));
    hide Explains, RefersTo;
    CaseExplained(c, mid, id);
  }

  function PlansCases(plans: seq<Plan>, after: nat): seq<Case> {
    if plans == [] then []
    else
      var init := plans[..|plans| - 1];
      PlansCases(init, after) + [PlanCase(plans[|plans| - 1], after + |PlansInputs(init)|)]
  }

  lemma {:induction false} PlansExplained(plans: seq<Plan>, after: nat, id: Id)
    requires forall p <- plans :: ResultsFor(p.candidate, p.verdicts, p.semantic, p.decision) && RefersTo(p.candidate.refs, id)
    ensures Explains(PlansCases(plans, after), Stamp(PlansInputs(plans), after), id)
  {
    hide Explains, RefersTo, ResultsFor, PlanInputs, PlanCase, Stamp;
    if plans == [] {
      NothingExplained(after, id);
    } else {
      var init, last := plans[..|plans| - 1], plans[|plans| - 1];
      PlansExplained(init, after, id);
      PlanExplained(last, after + |PlansInputs(init)|, id);
      StampConcat(PlansInputs(init), PlanInputs(last), after);
      ExplainsConcat(PlansCases(init, after), Stamp(PlansInputs(init), after),
                     [PlanCase(last, after + |PlansInputs(init)|)], Stamp(PlanInputs(last), after + |PlansInputs(init)|), id);
    }
  }

  lemma NothingExplained(after: nat, id: Id)
    ensures Explains([], Stamp([], after), id)
  {
    NoCases(Stamp([], after), id);
  }

  /* ---------- A rescan is one case ---------- */

  function RescanCase(p: RescanPlan, after: nat): Case {
    var n := after + |RescanInputs(p)|;
    var d := if Revokes(p) then n - 1 else n;
    Rescanned(Envelope(after + 1, RescanInput(p, p.candidateEventId, OperatorActor, CandidateCreated(p.candidate))),
              Envelope(d, RescanInput(p, p.decisionEventId, PolicyActor, DecisionRecorded(p.decision))),
              if Revokes(p) then Some(Envelope(n, RevocationInput(p))) else None)
  }

  lemma RescanCaseOk(p: RescanPlan, after: nat)
    requires ResultsFor(p.candidate, p.verdicts, p.semantic, p.decision) && p.candidate.extractor.RescanSanitizer?
    ensures CaseOk(RescanCase(p, after))
  {
  }

  function RescanResults(p: RescanPlan): seq<EventInput> {
    seq(|p.verdicts|, i requires 0 <= i < |p.verdicts| =>
      RescanInput(p, p.verdicts[i].eventId, DetectorActor, VerdictRecorded(p.verdicts[i].result)))
    + if p.semantic.Some?
      then [RescanInput(p, p.semantic.value.eventId, AgentActor, AssessmentRecorded(p.semantic.value.assessment))] else []
  }

  lemma RescanInputsSplit(p: RescanPlan)
    ensures RescanInputs(p) ==
            [RescanInput(p, p.candidateEventId, OperatorActor, CandidateCreated(p.candidate))]
            + RescanResults(p)
            + ([RescanInput(p, p.decisionEventId, PolicyActor, DecisionRecorded(p.decision))]
               + if Revokes(p) then [RevocationInput(p)] else [])
    ensures forall e <- RescanResults(p) :: e.payload.VerdictRecorded? || e.payload.AssessmentRecorded?
  {
  }

  lemma RevocationRefs(p: RescanPlan)
    ensures RevocationInput(p).refs == p.candidate.refs
  {
  }

  lemma RescanShape(p: RescanPlan, after: nat) returns (mid: seq<Envelope>)
    ensures Stamp(RescanInputs(p), after) == [RescanCase(p, after).candidate] + mid + CaseTail(RescanCase(p, after))
    ensures forall e <- mid :: e.body.payload.VerdictRecorded? || e.body.payload.AssessmentRecorded?
    ensures RescanCase(p, after).candidate.body.refs == p.candidate.refs
    ensures forall e <- CaseTail(RescanCase(p, after)) :: e.body.refs == p.candidate.refs
  {
    var results := RescanResults(p);
    var tail := [RescanInput(p, p.decisionEventId, PolicyActor, DecisionRecorded(p.decision))]
                + if Revokes(p) then [RevocationInput(p)] else [];
    mid := Stamp(results, after + 1);
    RescanInputsSplit(p);
    hide RescanInputs, RescanResults, RevocationInput;
    assert Stamp([RescanInput(p, p.candidateEventId, OperatorActor, CandidateCreated(p.candidate))] + results + tail, after)
           == [RescanCase(p, after).candidate] + mid + CaseTail(RescanCase(p, after));
    RevocationRefs(p);
  }

  lemma RescanExplained(p: RescanPlan, after: nat, id: Id)
    requires ResultsFor(p.candidate, p.verdicts, p.semantic, p.decision) && p.candidate.extractor.RescanSanitizer?
    requires RefersTo(p.candidate.refs, id)
    ensures Explains([RescanCase(p, after)], Stamp(RescanInputs(p), after), id)
  {
    hide Explains, RefersTo, CaseOk, RescanInputs, Stamp, RevocationInput;
    RescanCaseOk(p, after);
    var mid := RescanShape(p, after);
    CaseExplained(RescanCase(p, after), mid, id);
  }
}
