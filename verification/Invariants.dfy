/** What every step of the machine keeps about the memory view, the candidates
    and the records that operations read before they append. */
module Invariants {
  import opened Domain
  import opened Replay
  import opened Projection
  import opened Ledger

  /** Two states of one memory differ only in status and last event. */
  predicate SameCore(a: MemoryRecord, b: MemoryRecord) {
    a.(status := b.status, lastEventId := b.lastEventId, lastSequence := b.lastSequence) == b
  }

  /** Active memories are the inventory rows whose status is still open. */
  ghost predicate ViewShape(v: View) {
    && (forall m :: m in v.active ==> m in v.inventory && v.inventory[m] == v.active[m])
    && (forall m :: m in v.inventory ==>
          v.inventory[m].memoryId == m && (m in v.active <==> IsOpen(v.inventory[m])))
    && (forall q :: q in v.quarantine ==> v.quarantine[q].candidateId == q)
  }

  predicate IsOpen(r: MemoryRecord) {
    r.status == Active || r.status == Redacted
  }

  /** Every memory and every quarantine entry has its candidate row. */
  ghost predicate ViewGrounded(v: View, candidates: set<Id>) {
    && (forall q :: q in v.quarantine ==> q in candidates)
    && (forall m :: m in v.inventory ==> v.inventory[m].candidateId in candidates)
  }

  ghost predicate ViewOk(t: Tables) {
    ViewShape(t.view) && ViewGrounded(t.view, t.candidates.Keys)
  }

  ghost predicate ViewExtends(v: View, v': View) {
    forall m :: m in v.inventory ==> m in v'.inventory && SameCore(v.inventory[m], v'.inventory[m])
  }

  /** The rows of t stay in t': candidates and evidence untouched, memories with the same core. */
  ghost predicate Extends(t: Tables, t': Tables) {
    && (forall c :: c in t.candidates ==> c in t'.candidates && t'.candidates[c] == t.candidates[c])
    && (forall e :: e in t.evidence ==> e in t'.evidence && t'.evidence[e] == t.evidence[e])
    && ViewExtends(t.view, t'.view)
  }

  /** A memory outcome or quarantine names a candidate already recorded, in its own stream. */
  predicate Grounded(t: Tables, e: Envelope) {
    match e.body.payload
    case MemoryCommitted(o) => o.candidateId in t.candidates
    case MemoryRedacted(o) => o.candidateId in t.candidates
    case MemoryApproved(o, _, _) => o.candidateId in t.candidates
    case MemoryQuarantined(o) => o.candidateId in t.candidates
    case _ => true
  }

  predicate GroundedAll(t: Tables, es: seq<Envelope>) {
    es == [] || (GroundedAll(t, es[..|es| - 1]) && Grounded(Fold(t, es[..|es| - 1]), es[|es| - 1]))
  }

  lemma AdmitKeeps(v: View, e: Envelope, o: Outcome, approved: bool, candidates: set<Id>)
    requires ViewShape(v) && ViewGrounded(v, candidates) && Unused(v, o) && o.candidateId in candidates
    ensures ViewShape(Admit(v, e, o, approved)) && ViewGrounded(Admit(v, e, o, approved), candidates)
    ensures ViewExtends(v, Admit(v, e, o, approved))
  {
  }

  lemma CloseKeeps(v: View, e: Envelope, named: Id, status: MemoryStatus, candidates: set<Id>)
    requires ViewShape(v) && ViewGrounded(v, candidates) && status != Active && status != Redacted
    ensures ViewShape(Close(v, e, named, status)) && ViewGrounded(Close(v, e, named, status), candidates)
    ensures ViewExtends(v, Close(v, e, named, status))
  {
  }

  lemma HoldKeeps(v: View, r: QuarantineRecord, candidates: set<Id>)
    requires ViewShape(v) && ViewGrounded(v, candidates) && r.candidateId in candidates
    ensures var v' := v.(quarantine := v.quarantine[r.candidateId := r]);
            ViewShape(v') && ViewGrounded(v', candidates) && ViewExtends(v, v')
  {
  }

  lemma DropKeeps(v: View, candidateIds: set<Id>, candidates: set<Id>)
    requires ViewShape(v) && ViewGrounded(v, candidates)
    ensures var v' := v.(quarantine := v.quarantine - candidateIds);
            ViewShape(v') && ViewGrounded(v', candidates) && ViewExtends(v, v')
  {
  }

  lemma ReplayStepKeeps(t: Tables, e: Envelope)
    requires ViewOk(t) && Insertable(t, e) && Grounded(t, e)
    ensures ViewShape(ReplayStep(t.view, e)) && ViewGrounded(ReplayStep(t.view, e), t.candidates.Keys)
    ensures ViewExtends(t.view, ReplayStep(t.view, e))
  {
    hide Admit, Close, ViewShape, ViewGrounded, ViewExtends;
    var v, cs := t.view, t.candidates.Keys;
    match e.body.payload {
      case MemoryCommitted(o) => AdmitKeeps(v, e, o, false, cs);
      case MemoryRedacted(o) => AdmitKeeps(v, e, o, false, cs);
      case MemoryApproved(o, _, _) => AdmitKeeps(v, e, o, true, cs);
      case MemoryRevoked(m, _, _, _, _) => CloseKeeps(v, e, m, Revoked, cs);
      case MemoryExpired(m, _, _) => CloseKeeps(v, e, m, Expired, cs);
      case MemorySuperseded(m) => CloseKeeps(v, e, m, Superseded, cs);
      case MemoryQuarantined(o) => HoldKeeps(v, QuarantinedRecord(e, o), cs);
      case MemoryBlocked(o) => DropKeeps(v, {o.candidateId}, cs);
      case OperatorBlocked(c, _, _, _) => DropKeeps(v, {c}, cs);
      case _ => DropKeeps(v, {}, cs); assert v.quarantine - {} == v.quarantine;
    }
  }

  lemma StepKeepsView(t: Tables, e: Envelope)
    requires ViewOk(t) && Insertable(t, e) && Grounded(t, e)
    ensures ViewOk(FoldStep(t, e)) && Extends(t, FoldStep(t, e))
  {
    hide ReplayStep, ViewShape, ViewExtends;
    ReplayStepKeeps(t, e);
  }

  lemma ExtendsTransitive(a: Tables, b: Tables, c: Tables)
    requires Extends(a, b) && Extends(b, c)
    ensures Extends(a, c)
  {
  }

  lemma {:induction false} FoldKeepsView(t: Tables, es: seq<Envelope>)
    requires ViewOk(t) && InsertableAll(t, es) && GroundedAll(t, es)
    ensures ViewOk(Fold(t, es)) && Extends(t, Fold(t, es))
  {
    hide FoldStep, ViewOk, Insertable, Grounded;
    if es != [] {
      var init := es[..|es| - 1];
      FoldKeepsView(t, init);
      StepKeepsView(Fold(t, init), es[|es| - 1]);
      ExtendsTransitive(t, Fold(t, init), Fold(t, es));
    }
  }

  lemma {:induction false} GroundedConcat(t: Tables, a: seq<Envelope>, b: seq<Envelope>)
    ensures GroundedAll(t, a + b) <==> GroundedAll(t, a) && GroundedAll(Fold(t, a), b)
  {
    if b == [] {
      assert a + b == a;
    } else {
      var c := b[..|b| - 1];
      assert (a + b)[..|a + b| - 1] == a + c;
      GroundedConcat(t, a, c);
      FoldConcat(t, a, c);
    }
  }

  lemma StepGrowsCandidates(t: Tables, e: Envelope)
    ensures t.candidates.Keys <= FoldStep(t, e).candidates.Keys
    ensures e.body.payload.CandidateCreated? ==> e.body.payload.candidate.candidateId in FoldStep(t, e).candidates
  {
    hide ReplayStep;
  }

  /** Folding events keeps every candidate key. */
  lemma {:induction false} CandidatesGrow(t: Tables, es: seq<Envelope>)
    ensures t.candidates.Keys <= Fold(t, es).candidates.Keys
    ensures forall k :: 0 <= k < |es| && es[k].body.payload.CandidateCreated? ==>
              es[k].body.payload.candidate.candidateId in Fold(t, es).candidates
  {
    if es != [] {
      CandidatesGrow(t, es[..|es| - 1]);
      StepGrowsCandidates(Fold(t, es[..|es| - 1]), es[|es| - 1]);
      hide FoldStep;
    }
  }

  /** When only the last event can name a memory or quarantine, its candidate is enough. */
  lemma {:induction false} OnlyLastNeedsGround(t: Tables, es: seq<Envelope>)
    requires forall k :: 0 <= k < |es| - 1 ==> Neutral(es[k].body.payload)
    requires es != [] ==> Grounded(Fold(t, es[..|es| - 1]), es[|es| - 1])
    ensures GroundedAll(t, es)
  {
    if es != [] {
      NeutralGround(t, es[..|es| - 1]);
    }
  }

  predicate Neutral(p: Payload) {
    !p.MemoryCommitted? && !p.MemoryRedacted? && !p.MemoryApproved? && !p.MemoryQuarantined?
  }

  lemma {:induction false} NeutralGround(t: Tables, es: seq<Envelope>)
    requires forall e <- es :: Neutral(e.body.payload)
    ensures GroundedAll(t, es)
  {
    if es != [] {
      NeutralGround(t, es[..|es| - 1]);
    }
  }

  lemma PlanGrounded(t: Tables, p: Plan, after: nat)
    ensures GroundedAll(t, Stamp(PlanInputs(p), after))
  {
    var es := Stamp(PlanInputs(p), after);
    var init := es[..|es| - 1];
    CandidatesGrow(t, init);
    assert init[0].body.payload == CandidateCreated(p.candidate);
    OnlyLastNeedsGround(t, es);
  }

  lemma {:induction false} PlansGrounded(t: Tables, plans: seq<Plan>, after: nat)
    ensures GroundedAll(t, Stamp(PlansInputs(plans), after))
  {
    hide FoldStep, Grounded, PlanInputs;
    if plans != [] {
      var init, last := plans[..|plans| - 1], plans[|plans| - 1];
      PlansGrounded(t, init, after);
      var a := Stamp(PlansInputs(init), after);
      var b := Stamp(PlanInputs(last), after + |PlansInputs(init)|);
      StampConcat(PlansInputs(init), PlanInputs(last), after);
      PlanGrounded(Fold(t, a), last, after + |PlansInputs(init)|);
      GroundedConcat(t, a, b);
    }
  }

  /** Each policy row holds its own document and digest, and at most one row is active. */
  ghost predicate PolicyRowsOk(rows: map<PolicyRef, PolicyRow>) {
    && (forall r :: r in rows ==> rows[r].document.ref == r && rows[r].digest == PolicyDigest(rows[r].document))
    && (forall q, r :: q in rows && r in rows && rows[q].active && rows[r].active ==> q == r)
  }

  lemma {:induction false} PolicyRowsFold(log: seq<Envelope>)
    ensures PolicyRowsOk(Fold(EMPTY_TABLES, log).policies)
  {
    if log != [] {
      PolicyRowsFold(log[..|log| - 1]);
      hide ReplayStep, EvidenceStep, CandidateStep, VerdictStep, AssessmentStep, DecisionStep;
    }
  }

  /** Every read record is still a memory with the same core; every read quarantine has its candidate. */
  ghost predicate ReadsOk(s: State) {
    var t := TablesOf(s);
    && (forall r :: r in s.memoryReads ==>
          r.memoryId in t.view.inventory && SameCore(r, t.view.inventory[r.memoryId]))
    && (forall q :: q in s.quarantineReads ==> q.candidateId in t.candidates)
  }

  ghost predicate ViewInv(s: State) {
    ViewOk(TablesOf(s)) && ReadsOk(s)
  }

  /** The foreign key from the queue to the evidence table. */
  ghost predicate QueueKeysOk(s: State) {
    s.queue.Keys <= TablesOf(s).evidence.Keys
  }

  lemma StepKeepsQueueKeys(s: State, limits: Limits, c: Command)
    requires ViewInv(s) && QueueKeysOk(s)
    ensures QueueKeysOk(Next(s, limits, c))
  {
    if Offered(s, c) && Accepted(s, limits, c) {
      StepKeepsViewInv(s, limits, c);
      if c.Capture? {
        CommittedTables(s, limits, c);
        var es := Stamp(Inputs(s, limits, c), |s.log|);
        assert es[..|es| - 1] == [];
        assert Fold(TablesOf(s), es) == FoldStep(TablesOf(s), es[0]);
      }
      hide TablesOf, Accepted, Offered, Inputs, Stamp, ViewOk, ReadsOk;
    }
  }

  lemma EvaluationGrounded(t: Tables, plans: seq<Plan>, terminal: Option<EventInput>, after: nat)
    requires terminal.Some? ==> StreamEnd(terminal.value)
    ensures GroundedAll(t, Stamp(EvaluationInputs(plans, terminal), after))
  {
    hide FoldStep, Grounded, GroundedAll, PlansInputs;
    PlansGrounded(t, plans, after);
    var a := Stamp(PlansInputs(plans), after);
    if terminal.Some? {
      var b := Stamp([terminal.value], after + |PlansInputs(plans)|);
      StampConcat(PlansInputs(plans), [terminal.value], after);
      NeutralGround(Fold(t, a), b);
      GroundedConcat(t, a, b);
    } else {
      assert EvaluationInputs(plans, terminal) == PlansInputs(plans);
    }
  }

  lemma InputsNeutral(s: State, limits: Limits, c: Command)
    requires Offered(s, c) && !c.Evaluate? && !c.Approve?
    ensures forall e <- Inputs(s, limits, c) :: Neutral(e.payload)
  {
    hide Offered, TablesOf, EndsRow;
  }

  lemma InputsGrounded(s: State, limits: Limits, c: Command)
    requires Offered(s, c)
    ensures GroundedAll(TablesOf(s), Stamp(Inputs(s, limits, c), |s.log|))
  {
    var t := TablesOf(s);
    var es := Stamp(Inputs(s, limits, c), |s.log|);
    if c.Evaluate? {
      EvaluationGrounded(t, c.plans, c.terminal, |s.log|);
    } else if c.Approve? {
      assert es[..|es| - 1] == [];
      OnlyLastNeedsGround(t, es);
    } else {
      InputsNeutral(s, limits, c);
      NeutralGround(t, es);
    }
  }

  lemma StepKeepsReads(s: State, limits: Limits, c: Command)
    requires ViewInv(s) && Offered(s, c)
    requires Extends(TablesOf(s), TablesOf(Committed(s, limits, c)))
    ensures ReadsOk(Committed(s, limits, c))
  {
    hide TablesOf, Offered, Stamp, Inputs, QueueAfter, EnqueuedAfter, DirectAfter, WorkingAfter;
    var t, s' := TablesOf(s), Committed(s, limits, c);
    forall r | r in s'.memoryReads
      ensures r.memoryId in TablesOf(s').view.inventory && SameCore(r, TablesOf(s').view.inventory[r.memoryId])
    {
      assert r.memoryId in t.view.inventory && SameCore(r, t.view.inventory[r.memoryId]);
    }
  }

  /** Every step keeps the shape of the view and the truth of every earlier read. */
  lemma StepKeepsViewInv(s: State, limits: Limits, c: Command)
    requires ViewInv(s)
    ensures ViewInv(Next(s, limits, c))
    ensures Extends(TablesOf(s), TablesOf(Next(s, limits, c)))
  {
    hide TablesOf, ViewOk, ReadsOk, Offered, Accepted, Committed, Extends;
    if Offered(s, c) && Accepted(s, limits, c) {
      var es := Stamp(Inputs(s, limits, c), |s.log|);
      assert InsertableAll(TablesOf(s), es) by { AcceptedInserts(s, limits, c); }
      InputsGrounded(s, limits, c);
      FoldKeepsView(TablesOf(s), es);
      CommittedTables(s, limits, c);
      StepKeepsReads(s, limits, c);
    } else {
      ExtendsReflexive(TablesOf(s));
    }
  }

  lemma AcceptedInserts(s: State, limits: Limits, c: Command)
    requires Offered(s, c) && Accepted(s, limits, c)
    ensures FreshEvents(s.log, Inputs(s, limits, c))
    ensures InsertableAll(TablesOf(s), Stamp(Inputs(s, limits, c), |s.log|))
  {
    hide Offered, Inputs;
  }

  lemma ExtendsReflexive(t: Tables)
    ensures Extends(t, t)
  {
  }

  lemma {:induction false} RunKeepsViewInv(s: State, limits: Limits, cs: seq<Command>)
    requires ViewInv(s)
    ensures ViewInv(Run(s, limits, cs))
  {
    if cs != [] {
      RunKeepsViewInv(s, limits, cs[..|cs| - 1]);
      StepKeepsViewInv(Run(s, limits, cs[..|cs| - 1]), limits, cs[|cs| - 1]);
    }
  }
}
