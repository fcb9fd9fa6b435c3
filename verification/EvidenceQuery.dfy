/** The status query as a caller meets it (ledger/queries.py): the ledger is verified first, and only then is the
    history read. */
module EvidenceQuery {
  import opened Domain
  import opened Replay
  import opened Projection
  import opened Ledger
  import opened Conservation
  import opened Status
  import opened StatusTruth
  import opened Verifier
  import opened NoFalseAlarm

  /** What the verification finds outside events and tables: a valid chain, a head that names its end, and no
      earlier queue failure that left the store unhealthy. */
  datatype Anchor = Anchor(chainValid: bool, headCurrent: bool, queueFailure: bool)

  predicate Anchored(a: Anchor) {
    a.chainValid && a.headCurrent && !a.queueFailure
  }

  /** Drift of the candidate details or of the memory tables does not close the history; every other failure does. */
  ghost predicate GateOpens(a: Anchor, events: seq<Envelope>, t: Tables, queue: map<Id, QueueRow>) {
    && a.chainValid && SignedAgrees(events, t, queue)
    && (ProjectionsAgree(events, t, queue) ==> a.headCurrent && !a.queueFailure)
  }

  ghost function Query(a: Anchor, events: seq<Envelope>, t: Tables, queue: map<Id, QueueRow>, id: Id): Reply {
    if GateOpens(a, events, t, queue) then Examine(events, queue, id) else LedgerError
  }

  /** The verification and its filter on failure classes. */
  method HistoryReadable(a: Anchor, events: seq<Envelope>, t: Tables, queue: map<Id, QueueRow>) returns (open: bool)
    requires a.chainValid ==> Contiguous(events)
    ensures open <==> GateOpens(a, events, t, queue)
  {
    hide EvidenceAgrees, QueueAgrees, PolicyAgrees, DetailsSigned, ReplayLog, Contiguous;
    if !a.chainValid {
      return false;
    }
    var failure := VerifyProjections(events, t, queue);
    if failure.Some? {
      return DriftOnly(failure.value.kind);
    }
    open := a.headCurrent && !a.queueFailure;
  }

  method GetEvidenceStatus(a: Anchor, events: seq<Envelope>, t: Tables, queue: map<Id, QueueRow>, id: Id) returns (reply: Reply)
    requires a.chainValid ==> Contiguous(events)
    ensures reply == Query(a, events, t, queue, id)
  {
    hide GateOpens, Examine, Contiguous;
    var open := HistoryReadable(a, events, t, queue);
    if !open {
      return LedgerError;
    }
    reply := ExamineEvidence(events, queue, id);
  }

  /* ---------- When the gate opens ---------- */

  /** In a reachable state the gate opens exactly when the anchor holds and every evaluation was timely. */
  lemma GateOfRun(a: Anchor, limits: Limits, cs: seq<Command>)
    ensures var s := Run(INITIAL, limits, cs);
            GateOpens(a, s.log, TablesOf(s), s.queue) <==> Anchored(a) && TimelyRun(limits, cs)
  {
    hide Run, EvidenceAgrees, QueueAgrees, DetailsSigned, DecisionsTimely, ActivationsSigned, TimelyRun, TablesOf, ReplayLog;
    NoOtherAlarm(limits, cs);
    DecisionsOfRun(limits, cs);
  }

  lemma {:induction false} RunConcat(s: State, limits: Limits, cs: seq<Command>, more: seq<Command>)
    ensures Run(s, limits, cs + more) == Run(Run(s, limits, cs), limits, more)
    decreases |more|
  {
    hide Next;
    if more == [] {
      assert cs + more == cs;
    } else {
      var init := more[..|more| - 1];
      assert (cs + more)[..|cs + more| - 1] == cs + init;
      RunConcat(s, limits, cs, init);
    }
  }

  lemma TimelyPrefix(limits: Limits, cs: seq<Command>, more: seq<Command>)
    requires TimelyRun(limits, cs + more)
    ensures TimelyRun(limits, cs)
  {
    hide Run, Offered, Accepted, Timely;
    assert forall k :: 0 <= k < |cs| ==> (cs + more)[..k] == cs[..k] && (cs + more)[k] == cs[k];
  }

  /* ---------- Main results ---------- */

  /** For queued evidence the query answers exactly when the anchor holds and every evaluation in the run was timely;
      otherwise it raises a ledger error. An answer is true: terminal exactly when no pending row remains, failed
      exactly when a failed row exists, and each reported action is the one its candidate's signed decision took. */
  lemma StatusIsTrue(a: Anchor, limits: Limits, cs: seq<Command>, id: Id)
    requires id in Run(INITIAL, limits, cs).enqueued
    ensures var s := Run(INITIAL, limits, cs);
            var reply := Query(a, s.log, TablesOf(s), s.queue, id);
            && (reply.Found? <==> Anchored(a) && TimelyRun(limits, cs))
            && (!reply.Found? ==> reply == LedgerError)
            && (reply.Found? ==>
                var r := reply.status;
                && (r.outcome == None <==> IsPending(s, id))
                && (r.outcome == Some(FailedOutcome) <==> id in s.queue && s.queue[id].phase.Failed?)
                && (r.outcome == Some(FailedOutcome) ==> r.terminalEventIds == [s.queue[id].phase.terminalEventId])
                && (r.outcome != Some(CompletedOutcome) ==> r.candidateIds == [] && r.actions == [])
                && |r.candidateIds| == |r.actions|
                && (forall k :: 0 <= k < |r.actions| ==> Decided(s.log, r.candidateIds[k], r.actions[k])))
  {
    hide Run, GateOpens, Examine, TimelyRun, TablesOf, Decided;
    GateOfRun(a, limits, cs);
    HistoryIsTrue(limits, cs, id);
  }

  /** A terminal answer is never replaced by another one: after any later run of approvals, blocks, revocations,
      expirations, rescans or anything else the query gives the same outcome, events, candidates and actions, or, exactly
      when some evaluation was not timely, a ledger error. */
  lemma StatusNeverChanges(a: Anchor, limits: Limits, cs: seq<Command>, later: seq<Command>, id: Id)
    requires Anchored(a)
    requires id in Run(INITIAL, limits, cs).enqueued && !IsPending(Run(INITIAL, limits, cs), id)
    ensures var s, s' := Run(INITIAL, limits, cs), Run(INITIAL, limits, cs + later);
            var before, after := Query(a, s.log, TablesOf(s), s.queue, id), Query(a, s'.log, TablesOf(s'), s'.queue, id);
            && (after.Found? <==> TimelyRun(limits, cs + later))
            && (!after.Found? ==> after == LedgerError)
            && (after.Found? ==> before.Found? && TerminalPart(after.status) == TerminalPart(before.status))
  {
    hide Run, GateOpens, Examine, TimelyRun, TablesOf, QueueStory, TerminalPart;
    RunKeepsStory(limits, cs);
    RunConcat(INITIAL, limits, cs, later);
    HistoryNeverChanges(Run(INITIAL, limits, cs), limits, later, id);
    GateOfRun(a, limits, cs);
    GateOfRun(a, limits, cs + later);
    if TimelyRun(limits, cs + later) {
      TimelyPrefix(limits, cs, later);
    }
  }

  /** The queue row is read after the log. Whatever was appended in between, the answer is the one that the verified log
      supports. */
  lemma NewerRowSameAnswer(limits: Limits, cs: seq<Command>, later: seq<Command>, id: Id)
    requires id in Run(INITIAL, limits, cs).enqueued
    ensures var s, s' := Run(INITIAL, limits, cs), Run(INITIAL, limits, cs + later);
            var reply, earlier := Examine(s.log, s'.queue, id), Examine(s.log, s.queue, id);
            reply.Found? && earlier.Found? && TerminalPart(reply.status) == TerminalPart(earlier.status)
  {
    hide Run, Examine, QueueStory, TerminalPart;
    RunKeepsStory(limits, cs);
    RunConcat(INITIAL, limits, cs, later);
    NewerRow(Run(INITIAL, limits, cs), limits, later, id);
  }
}
