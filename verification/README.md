# Verity Cordon: a verified model

Verity Cordon decides which text an agent may remember. It appends signed events to a hash chain, edits SQLite tables beside
that log with one hand-written projector per operation, and lets an independent verifier fold the log again and compare. Around
that ledger stand a durable evidence queue, journaled installers, an idempotency table, streamed writes, a rendered memory
document and several compact algorithms. This project models those parts in Dafny and proves what they promise, for every
input and every run.

## How the model is laid out

- **Ledger.** `Domain` holds the values, `Replay` the verifier's fold of memory events, `Projection` the fold of all tables.
  `Ledger` is the state machine: a `Command` is offered with what its caller read earlier (`memoryReads`, `quarantineReads`
  keep every record ever read, so a guard may be as stale as it likes), `Accepted` says when the append commits, `Next` and
  `Run` give the step and the run. `Database` has the table edits themselves: a class whose fields are the tables and whose
  methods insert, update and delete rows one statement at a time. `Invariants`, `SignedLog`, `History`, `Queue` and
  `Conservation` hold what every step keeps.
- **Queries and checks.** `Verifier`, `NoFalseAlarm` and `StalePolicy` (the projection checks), `Status` and `StatusTruth` (what
  the signed history of evidence says), `EvidenceQuery` (the status query: the verification first, then the history), `Materializer` (rebuild), `Chain` and `EventStore` (the hash chain, one append, the head file, restarts).
- **Protocols.** `CodexConfig` and `CodexInstaller` (install, upgrade, uninstall), `DemoTeardown`, `Idempotency`, `Streaming`.
  A crash is modelled by a budget of atomic writes: each write uses one, and when none is left the operation stops there, so
  "for every budget" means "for a crash between any two writes".
- **Algorithms.** `Injection` with `JsonStrings` (the rendered document against the hook's validator), `CanonicalJson` and
  `CanonicalForm`, `PolicyEngine`, `Sanitizer`, `Timestamps`, and `Ordering` (stable sorting by a key).

Code that changes state in the original is a class or a method with a loop here, proved against a function; the promises are then
lemmas about that function. Every quantity is unbounded, as Python's integers are.

## What turned out false, and the exact condition

- The verifier raises no false alarm **if and only if** every ordinary evaluation used the policy that was still active when its
  batch was appended (`NoFalseAlarm.VerifierAcceptsRun`). `StalePolicy.StalePolicyIsRefused` is a run of accepted appends
  that the verifier then refuses: the evaluation projector does not compare the policy, while the rescan projector does.
- The status query answers for queued evidence **if and only if** the chain and the head are sound and the run was timely in that
  sense; otherwise it raises a ledger error, also for evidence whose answer was terminal before (`EvidenceQuery.StatusIsTrue`,
  `EvidenceQuery.StatusNeverChanges`). `StalePolicy.StatusIsLost` is the run: the evidence was queued, evaluated and drained with
  a complete history, and its status is an error.
- An uninstall finishes **unless** all five Codex controls already had their required values before the first installation. Then
  the configuration before and after the edit is the same document, it is taken for the one before, and the removal is refused
  in its last phases whenever it is tried again (`CodexInstaller.Host.Uninstall`, `CodexInstaller.FirstInstallRemovable`; `CodexInstaller.InstallThenRemove` is one).
- The journal entry of an installation can be read back **unless** it reinstalls unchanged digests over a receipt whose strategy
  is already complete (`CodexInstaller.PreparedIsReadable`; `CodexInstaller.ReinstallUnreadable` is one).
- Uninstalling gives back the whole document **unless** a controlled section was present and empty before
  (`CodexConfig.WholeDocumentRestored`; `CodexConfig.EmptySectionLost` is one); the five keys always come back.
- The `changed` flag of a rebuild is right **unless** the inventory table alone has drifted (`Materializer.ChangedIsExact`;
  `Materializer.DriftUnreported` is one).
- A session-start answer is accepted by the hook **unless** both verifications and the policy are valid, a document was rendered,
  and the list of active memories, read after that, is empty: the last one was revoked in between (`Injection.AnswerAccepted`;
  `Injection.LastMemoryRevoked` is one).
- A stream has one terminal event **unless** its batch commits and something after the commit raises; then a second one is
  recorded (`Streaming.Stream.Commit`).
- Text order of timestamps is time order **unless** both lie in one second and the earlier fraction's digits begin the later
  one's (`Timestamps.TextOrderIsTimeOrder`; `Timestamps.HalfSecondFirst` is one), so a due row is selected at most one second early or late.
- All matched text is replaced **unless** a match runs past the end of a kept span and no match starts there
  (`Sanitizer.MatchedTextSurvives`; `Sanitizer.LastCharacterSurvives` is one).
- A teardown of the demo finishes **unless** the artifact's directory holds a file it did not put there
  (`DemoTeardown.Desktop.Teardown`).
- The retry delay never reaches its cap of 300 seconds: its exponent stops at eight, so it is at most 256 (`Conservation.FailedAttemptProgress`).

## Assumptions

Identifiers made by the service are fresh, which the unique keys of the tables enforce by refusing a repeated one. Hashes are ideal: a digest
determines what was hashed, and the chain's body hash is injective. One append is atomic: events, tables and commit together, the head
file after it. `verify()` and `rebuild` are atomic with respect to appends, and so is the status query's verification together
with its reading of the log; the queue row is read later (`EvidenceQuery.NewerRowSameAnswer`). The worker's lock over a queue row is the field
`working`. A command that Codex runs has the same effect when it is run again. Removing a directory tree is one step.
A memory identifier is a lower-case UUID, and a namespace and a kind are in the characters their models allow.

## Model

| member | source | states |
|---|---|---|
| Replay.ReplayMemoryState | src/verity_cordon/ledger/verify.py:440-539 | Three dictionaries updated in place event by event end as the recursive replay of the whole log, for any log |
| Projection.FoldViewIsReplay | src/verity_cordon/ledger/verify.py:440-539 | The memory part of the fold of all tables is that replay |
| Database.MemoryDatabase.StageCapture | src/verity_cordon/memory/service.py:259-372 | A capture inserts its evidence row and, when queued, its pending row exactly if the capacity test and the keys allow it |
| Database.MemoryDatabase.ProjectPlan | src/verity_cordon/memory/service.py:532-685 | The rows written for one candidate, statement by statement, are the fold of that candidate's events, and an insert fails exactly when a key repeats |
| Database.MemoryDatabase.StageEvaluation | src/verity_cordon/memory/service.py:706-749 | All plans, the terminal event and the drained queue row of one batch land together, or the batch is refused |
| Database.MemoryDatabase.StageCompletion | src/verity_cordon/memory/service.py:1191-1232 | A completion takes only a pending row and deletes it with its signed event |
| Database.MemoryDatabase.StageFailure | src/verity_cordon/memory/service.py:1080-1189 | A failed attempt either ends the row with its signed event or reschedules it without one |
| Database.MemoryDatabase.StageApproval | src/verity_cordon/memory/trust_actions.py:156-285 | An approval from a record read earlier edits the three memory tables as its event folds |
| Database.MemoryDatabase.StageBlock | src/verity_cordon/memory/trust_actions.py:287-332 | A block removes the quarantine row as its event folds |
| Database.MemoryDatabase.StageRevocation | src/verity_cordon/memory/trust_actions.py:71-154 | A revocation of a record read earlier closes the memory as its event folds, even when the row changed in between |
| Database.MemoryDatabase.StageRescan | src/verity_cordon/memory/rescan.py:418-550 | The compare-and-set commits exactly if the policy is active and the stored record is the one read, and then equals the fold |
| Database.MemoryDatabase.StageExpiry | src/verity_cordon/memory/service.py:1419-1493 | Expiring a list of memories read earlier equals folding their events, repeats included |
| Database.MemoryDatabase.StageActivation | src/verity_cordon/policies/repository.py:122-193 | Clearing every row and then setting one equals folding the activation, and a changed document under an old reference is refused |
| Database.MemoryDatabase.ActivePolicy | src/verity_cordon/policies/repository.py:47-67 | Returns the one active row, or none when no row is active |
| Database.MemoryDatabase.Append | src/verity_cordon/ledger/store.py:311-449 | Any command either has its whole effect or none, exactly as the state machine says, and the tables stay the fold of the log |
| Database.MemoryDatabase.Serve | src/verity_cordon/ledger/verify.py:440-584 | After any run, however stale the reads, the three memory tables equal the verifier's replay of the log |
| Invariants.RunKeepsViewInv | src/verity_cordon/memory/trust_actions.py:71-285 | In every run, keys match records, active rows are in the inventory, and any record ever read still agrees with the inventory in all that no operation edits |
| Queue.PendingTotals | src/verity_cordon/memory/service.py:334-371 | The capacity query counts the pending rows and the bytes of their content, in any order |
| SignedLog.RunKeepsLogInv | src/verity_cordon/memory/service.py:428-531 | In every run each event's references, stream, session and payload agree with the signed capture or candidate it names, and no identifier repeats |
| Conservation.StepKeepsQueueInv | src/verity_cordon/memory/service.py:334-371 | Every step keeps items, bytes and attempts within limits and every row true to its signed capture |
| Conservation.StepKeepsAccounts | src/verity_cordon/memory/service.py:973-1189 | Every step leaves each enqueued identifier in one place: pending with no terminal event, failed with exactly one failure event, or drained with one completion or with the outcomes of one batch, whose plans' events stand together in the log and after which only rescans came |
| Conservation.DrainedOutcomes | src/verity_cordon/memory/service.py:706-749 | The outcomes of a drained identifier are exactly those of that one batch, one for each plan |
| Conservation.RunKeepsStory | src/verity_cordon/memory/service.py:973-1232 | The same for every run from the empty store |
| Conservation.FailedAttemptProgress | src/verity_cordon/memory/service.py:1080-1189 | A recorded failed attempt ends the row exactly at the limit of attempts, at the age limit or when forced; otherwise the remaining attempts drop by one and the next attempt is later by at most 256 seconds |
| Status.CheckHistory | src/verity_cordon/ledger/queries.py:181-440 | The query's tests pass exactly for a coherent history, and the reported rescan is the one whose decision is latest |
| Status.ExamineEvidence | src/verity_cordon/ledger/queries.py:190-479 | After the verification, the loops of the query compute the answer that the lemmas about the history speak of |
| EvidenceQuery.HistoryReadable | src/verity_cordon/ledger/queries.py:481-498 | The history may be read exactly when the signed checks pass and either a detail or memory table has drifted or the head is sound too |
| EvidenceQuery.GetEvidenceStatus | src/verity_cordon/ledger/queries.py:181-479 | The whole query: a ledger error while the history may not be read, otherwise the examination |
| EvidenceQuery.StatusIsTrue | src/verity_cordon/ledger/queries.py:181-498 | For queued evidence in any reachable state the query answers if and only if chain and head are sound and every evaluation was timely; the answer is terminal exactly when no pending row remains, failed exactly when a failed row exists, and each action is the one the candidate's signed decision took |
| EvidenceQuery.StatusNeverChanges | src/verity_cordon/ledger/queries.py:181-498 | After any later run a terminal answer is repeated, or is a ledger error exactly when some evaluation was not timely; it is never another answer |
| EvidenceQuery.NewerRowSameAnswer | src/verity_cordon/ledger/queries.py:181-479 | A queue row read after later appends does not change the answer that the log read supports |
| StatusTruth.HistoryIsTrue | src/verity_cordon/ledger/queries.py:190-479 | In every reachable state the signed history of queued evidence passes all tests after the verification, and what it reports is true |
| StatusTruth.ReportFromEvents | src/verity_cordon/ledger/queries.py:400-479 | The terminal part of that report is a function of the row and of the original candidates, outcomes, failures and completions in the log |
| StatusTruth.HistoryNeverChanges | src/verity_cordon/ledger/queries.py:190-479 | No later run changes the terminal part of that report |
| Verifier.VerifyEvidenceReferences | src/verity_cordon/ledger/verify.py:180-259 | Passes exactly when the table is the signed captures and every reference resolves to the capture it names |
| Verifier.VerifyPolicyProjection | src/verity_cordon/ledger/verify.py:261-353 | Passes exactly when the rows are the signed activations with the latest one active and each decision names the policy active at its position |
| Verifier.ActiveRow | src/verity_cordon/ledger/verify.py:261-353 | For any log the active row is the latest activation's: none before the first, exactly one afterwards |
| Verifier.VerifyTerminalQueue | src/verity_cordon/ledger/verify.py:355-438 | Passes exactly when failed rows and signed failure events correspond one to one and agree |
| Verifier.VerifyAuxiliaryProjections | src/verity_cordon/ledger/verify.py:586-684 | Passes exactly when candidates, verdicts, assessments and decisions are the rows their events fold to |
| Verifier.VerifyProjections | src/verity_cordon/ledger/verify.py:686-790 | The checks in their order pass exactly when all of them hold; a failure's class names the first check that fails, and is one of the two drift classes exactly when everything signed agrees |
| Verifier.PassingTablesAreTheFold | src/verity_cordon/ledger/verify.py:180-684 | Tables that pass are the fold of the log, in every row and column, when no capture kept protected content |
| NoFalseAlarm.NoOtherAlarm | src/verity_cordon/ledger/verify.py:180-684 | In every reachable state no check but the policy of a decision can fail |
| NoFalseAlarm.TimelyStep | src/verity_cordon/memory/service.py:532-685 | An accepted append keeps the verifier satisfied if and only if, for an ordinary evaluation, its policies are active when it lands |
| NoFalseAlarm.VerifierAcceptsRun | src/verity_cordon/ledger/verify.py:180-684 | After any run the verifier accepts if and only if every accepted evaluation was timely |
| StalePolicy.StalePolicyIsRefused | src/verity_cordon/ledger/verify.py:303-330 | A run of accepted appends that the verifier refuses |
| StalePolicy.StatusIsLost | src/verity_cordon/ledger/queries.py:481-498 | In that run queued evidence with a complete signed history gets a ledger error for its status |
| Materializer.MemoryView.Rebuild | src/verity_cordon/memory/materializer.py:92-193 | When everything but the memory tables verifies, a rebuild ends with those tables equal to the replay, a dry run changes nothing, and the closing verification never refuses; otherwise it refuses and changes nothing |
| Materializer.ChangedIsExact | src/verity_cordon/memory/materializer.py:101-117 | The changed flag means drift if and only if the inventory is not the only table that drifted |
| Materializer.DriftUnreported | src/verity_cordon/memory/materializer.py:105-117 | One inventory row over an empty log is drift that the flag does not report |
| Chain.VerifyChain | src/verity_cordon/ledger/verify.py:87-178 | Returns exactly the longest valid prefix, and on failure the next row's first failed test |
| Chain.SameHeadSameHistory | src/verity_cordon/ledger/verify.py:818-837 | With an injective body hash, two chains that pass and match one head hold identical bodies |
| Chain.TamperingRefused | src/verity_cordon/ledger/verify.py:87-178 | Any edit, drop, reorder, truncation or extension fails the chain or the head |
| EventStore.BatchExtendsChain | src/verity_cordon/ledger/store.py:330-449 | An accepted batch leaves a valid chain and keeps every stored payload true to its digest |
| EventStore.Store.Initialize | src/verity_cordon/ledger/store.py:165-214 | A restarted store is healthy exactly when the head names the last stored event and the key is its own |
| EventStore.Store.InsertBatch | src/verity_cordon/ledger/store.py:330-410 | The append loop computes the chained rows, and fails exactly on a repeated event or a colliding payload |
| EventStore.Store.Append | src/verity_cordon/ledger/store.py:311-449 | A failed batch or projector changes nothing, a successful one extends rows, payloads and tables together, and the head follows; a head error before or after the file was replaced leaves the store unhealthy |
| EventStore.Store.AppendAndRestart | src/verity_cordon/ledger/store.py:198-214 | After a stop at any point and a restart the batch is wholly there or not at all, and health fails exactly for a committed batch whose head file was not replaced |
| CodexConfig.ConfigDocument.RecordChanges | src/verity_cordon/codex/installer.py:493-510 | Records the five previous values, or refuses exactly when a section is no table or a value no boolean |
| CodexConfig.ConfigDocument.ApplyRequired | src/verity_cordon/codex/installer.py:512-516 | Sets all five controls, or refuses exactly when a controlled section is not a table |
| CodexConfig.ConfigDocument.Restore | src/verity_cordon/codex/installer.py:518-533 | Undoes the recorded changes and drops the emptied new sections, or refuses exactly when a controlled section is not a table |
| CodexConfig.AppliedMatches | src/verity_cordon/codex/installer.py:1928-1934 | After applying, every control has its required value |
| CodexConfig.RestoredMatches | src/verity_cordon/codex/installer.py:1936-1946 | After restoring, every control has its recorded value |
| CodexConfig.ControlsRestored | src/verity_cordon/codex/installer.py:518-533 | Whatever was edited in between, restoring gives each control its first value and touches no other key |
| CodexConfig.WholeDocumentRestored | src/verity_cordon/codex/installer.py:512-533 | Applying then restoring is the identity if and only if no controlled section was present and empty |
| CodexConfig.EmptySectionLost | src/verity_cordon/codex/installer.py:530-533 | A document with one empty controlled section does not come back |
| CodexInstaller.PreparedIsReadable | src/verity_cordon/codex/installer.py:1416-1437 | The journal entry is readable if and only if it does not carry over a completed strategy |
| CodexInstaller.Host.Converge | src/verity_cordon/codex/installer.py:793-848 | From every position a crash can leave, the trees reach the target, and during an upgrade a whole previous or target tree is there at every stop |
| CodexInstaller.Host.SweepUnreceipted | src/verity_cordon/codex/installer.py:851-857 | Leftovers without a receipt are cleared; an active tree without a receipt is refused |
| CodexInstaller.Host.RunInstallCommands | src/verity_cordon/codex/installer.py:1478-1545 | When all commands succeed the plugin is registered and journaled; without permission to run them, or when the first fails, nothing changes |
| CodexInstaller.Host.Install | src/verity_cordon/codex/installer.py:1582-1926 | From any state a crash leaves, the confirmed command is never refused and ends at the job's one goal; another preview is refused and changes nothing |
| CodexInstaller.Host.InstallAfterCrashes | src/verity_cordon/codex/installer.py:1731-1906 | After any number of crashes at any write, one undisturbed run reaches the final state of an uninterrupted one |
| CodexInstaller.GoalStartsNext | src/verity_cordon/codex/installer.py:1582-1700 | An installation, finished or with commands still to run, is a start for an upgrade to other digests and for a removal |
| CodexInstaller.Host.RunUninstallCommands | src/verity_cordon/codex/installer.py:1948-1985 | Both registrations are removed and journaled, each once recorded not again |
| CodexInstaller.RestorationChanges | src/verity_cordon/codex/installer.py:1987-2006 | The configuration before and after removal differ if and only if there is something to undo |
| CodexInstaller.Host.Uninstall | src/verity_cordon/codex/installer.py:2017-2337 | From any phase the removal ends with nothing left and the configuration restored, unless there is nothing to undo, when it is refused for good |
| CodexInstaller.Host.UninstallAfterCrashes | src/verity_cordon/codex/installer.py:2159-2337 | The same after any number of crashes |
| CodexInstaller.FirstInstallRemovable | src/verity_cordon/codex/installer.py:2285-2328 | A first installation can be removed if and only if the document lacked a required value before it |
| CodexInstaller.InstallThenRemove | src/verity_cordon/codex/installer.py:2285-2328 | An installation into a configuration with all five values succeeds, and every attempt to remove it is refused |
| CodexInstaller.ReinstallUnreadable | src/verity_cordon/codex/installer.py:1416-1437 | A finished installation whose configuration file is gone: reinstalling is let through and its journal entry cannot be read back |
| CodexInstaller.RemovalRestoresControls | src/verity_cordon/codex/installer.py:2159-2337 | After any number of upgrades, finished or not, and edits, removal puts each control back to its value before the first installation |
| CodexInstaller.RemovalRestoresDocument | src/verity_cordon/codex/installer.py:2159-2337 | With no other edit the whole document comes back if and only if no controlled section was empty |
| DemoTeardown.Configuration.SetManaged | src/verity_cordon/codex/demo_installer.py:1060-1068 | Sets the entry, creating the parent table when it is missing; refused, with nothing changed, exactly when the parent is no table |
| DemoTeardown.Configuration.RemoveManaged | src/verity_cordon/codex/demo_installer.py:1070-1076 | Removes the entry and, when asked, an emptied parent; refused, with nothing changed, exactly when there is no entry |
| DemoTeardown.RemovalUndoesSetting | src/verity_cordon/codex/demo_installer.py:1060-1076 | Removing undoes setting, parent table included, if and only if there was no entry before |
| DemoTeardown.UnrelatedKept | src/verity_cordon/codex/demo_installer.py:888-966 | Neither edit changes any other configuration value |
| DemoTeardown.TransitionExact | src/verity_cordon/codex/demo_installer.py:1422-1573 | The transitions that succeed are exactly the listed edges with their inputs; each yields a valid receipt further along, with the same entry and artifact |
| DemoTeardown.Desktop.RemoveArtifact | src/verity_cordon/codex/demo_installer.py:2619-2727 | From before, between or after rename and unlink, the artifact and its quarantine name end absent |
| DemoTeardown.Desktop.Teardown | src/verity_cordon/codex/demo_installer.py:3352-3592 | A confirmed teardown ends removed from any state, unless the directory holds a foreign file; an unconfirmed one changes nothing |
| DemoTeardown.Desktop.TeardownAfterCrashes | src/verity_cordon/codex/demo_installer.py:3453-3592 | After any crashes it ends removed with entry and artifact gone and every unrelated value unchanged |
| Streaming.EveryShortTextIsScanned | src/verity_cordon/streaming/service.py:244-248 | Every piece of the stream of at most overlap + 1 characters lies in a scanned window |
| Streaming.AllOrNothing | src/verity_cordon/memory/service.py:1343-1399 | If any candidate is not admitted none is, and the others keep their actions |
| Streaming.Stream.Append | src/verity_cordon/streaming/service.py:217-258 | The whole reply and state for every chunk: empty, out of order, over a limit, risky or kept; the tail is the last characters of everything received |
| Streaming.Stream.Abort | src/verity_cordon/streaming/service.py:260-271 | Ends an open stream once; a stream in any other state conflicts and is unchanged |
| Streaming.Stream.Commit | src/verity_cordon/streaming/service.py:273-387 | The whole reply, state and batch for every outcome; memories are admitted only in the batch with the committed event, and a second terminal event appears exactly when something raises after the commit |
| Streaming.OtherStreamsApart | src/verity_cordon/streaming/service.py:297-355 | A batch of other streams neither ends this one nor breaks its all-or-nothing rule |
| Idempotency.IdempotencyStore.Reserve | src/verity_cordon/daemon/idempotency.py:25-72 | Returns the row found, or reserves the key |
| Idempotency.IdempotencyStore.Release | src/verity_cordon/daemon/idempotency.py:118-140 | Deletes only the call's own untouched reservation |
| Idempotency.IdempotencyStore.Run | src/verity_cordon/daemon/idempotency.py:25-116 | The reply to every course of a call: a key with a row is never acted on, a different request and an interrupted reservation conflict, a success answers what it stored |
| Idempotency.IdempotencyStore.RunAll | src/verity_cordon/daemon/idempotency.py:25-140 | Over any calls and crashes each key's action succeeds at most once and all its answers agree up to the duplicate flag |
| JsonStrings.ReadUndoesEscape | src/verity_cordon/crypto/canonical.py:61-76 | Reading a string undoes escaping it, whatever follows |
| CanonicalJson.ParsePrint | src/verity_cordon/crypto/canonical.py:31-76 | Parsing undoes compact printing for every dictionary without floats |
| CanonicalJson.ObjectWithoutDuplicates | src/verity_cordon/crypto/canonical.py:22-28 | Builds the dictionary exactly when no name repeats |
| CanonicalForm.NormalDecides | src/verity_cordon/crypto/canonical.py:61-76 | Values with sorted members are equal exactly when the values are equal up to member order |
| CanonicalForm.ParseUndoesCanonical | src/verity_cordon/crypto/canonical.py:31-76 | Strict parsing of canonical text gives the value up to member order, and its canonical text again |
| CanonicalForm.SameTextSameValue | src/verity_cordon/crypto/canonical.py:61-76 | Equal canonical text if and only if equal values up to member order |
| CanonicalForm.RepeatedNamesNeverParse | src/verity_cordon/crypto/canonical.py:22-38 | Whatever parses has no repeated name at any depth |
| Injection.RenderStatement | src/verity_cordon/memory/injection.py:14-18 | The loop over the reserved delimiters computes the specified text |
| Injection.CleanStatement | src/verity_cordon/memory/injection.py:14-18 | Whatever a statement says, its rendering holds no delimiter, not even one formed by a replacement or an escape |
| Injection.RenderApprovedMemory | src/verity_cordon/memory/injection.py:57-77 | The loop computes the specified document |
| Injection.SelectedFits | src/verity_cordon/memory/injection.py:57-77 | The document never exceeds its budget |
| Injection.SelectedIsWhole | src/verity_cordon/memory/injection.py:57-77 | It consists of whole records in their order |
| Injection.SelectedAll | src/verity_cordon/memory/injection.py:57-77 | When the whole document fits, no record is left out |
| Injection.SelectedEmpty | src/verity_cordon/memory/injection.py:57-77 | Nothing is rendered exactly when no record fits on its own |
| Injection.RenderedIgnoresOrder | src/verity_cordon/memory/injection.py:57-77 | The document does not depend on the order of the memories |
| Injection.RenderedAccepted | src/verity_cordon/codex/hooks.py:423-437 | Every rendered document has each delimiter once, as first and last line, and passes the hook's validator |
| Injection.AnswerAccepted | src/verity_cordon/codex/hooks.py:440-527 | The hook accepts the handler's answer unless both verifications and the policy are valid, a document was rendered and the list of memories is empty |
| Injection.LastMemoryRevoked | src/verity_cordon/daemon/app.py:327-382 | One memory, revoked between rendering and listing: the answer is refused |
| Injection.SessionStart | src/verity_cordon/daemon/app.py:327-382 | The handler's reassigned variables give the specified answer for every result of its two verifications |
| PolicyEngine.MatchedRuleIsLeast | src/verity_cordon/policies/engine.py:189-198 | The rule used is the matching one with the least priority and identifier; none if and only if none matches |
| PolicyEngine.ResultIdsIgnoreOrder | src/verity_cordon/policies/engine.py:230-237 | The ordered result identifiers do not depend on the order of the results, even with equal keys |
| PolicyEngine.EvaluationIgnoresOrder | src/verity_cordon/policies/engine.py:200-264 | The whole evaluation is unchanged under any permutation of results and of rules |
| PolicyEngine.ShadowKeepsWouldAction | src/verity_cordon/policies/engine.py:228-229 | Shadow mode changes the actual action and nothing else |
| PolicyEngine.FailureNeverAdmits | src/verity_cordon/policies/engine.py:100-138 | In enforce mode a high-risk candidate with a detector or semantic failure is never allowed or redacted |
| PolicyEngine.GuardsCannotBeWeakened | src/verity_cordon/policies/engine.py:79-98 | Hard guards block under every policy, and no rule is matched |
| PolicyEngine.AdmittedOnGrounds | src/verity_cordon/policies/engine.py:200-227 | A candidate is admitted only without a guard or a high-risk failure, and then by the least matching rule, the default or a lower-risk failure setting |
| PolicyEngine.LastKnownGoodPolicyProvider.Activate | src/verity_cordon/policies/engine.py:267-293 | A refused policy leaves the active one in place |
| Sanitizer.SelectSpans | src/verity_cordon/detectors/builtin.py:83-91 | The cursor loop makes the greedy choice |
| Sanitizer.KeptSpans | src/verity_cordon/detectors/builtin.py:83-91 | Kept spans are matches, sorted and disjoint; every other match starts inside one; the longest at a place wins |
| Sanitizer.KeptIgnoresOrder | src/verity_cordon/detectors/builtin.py:77-91 | The choice does not depend on the order of patterns and matches |
| Sanitizer.Splice | src/verity_cordon/detectors/builtin.py:95-106 | The loop with its counters weaves gaps of content and numbered placeholders |
| Sanitizer.Sanitize | src/verity_cordon/detectors/builtin.py:77-106 | The text is that weave, and count, types and flag are those of the kept spans |
| Sanitizer.OutsideReproduced | src/verity_cordon/detectors/builtin.py:95-106 | Weaving the originals back gives the content, and the gaps are exactly its uncovered characters in order |
| Sanitizer.MatchedTextSurvives | src/verity_cordon/detectors/builtin.py:83-91 | Matched text survives if and only if a match runs past a kept span and no match starts at that span's end |
| Sanitizer.LastCharacterSurvives | src/verity_cordon/detectors/builtin.py:83-91 | Two overlapping matches of which the second leaves its last character |
| Sanitizer.PlaceholdersDistinct | src/verity_cordon/detectors/builtin.py:97-104 | No two placeholders of one text are equal, whatever the kinds are called |
| Timestamps.CivilRound | src/verity_cordon/core/models.py:559-567 | The calendar fields of a time exist and give the time back |
| Timestamps.ParseUndoesFormat | src/verity_cordon/core/models.py:559-567 | Parsing the text gives the time back, microseconds included |
| Timestamps.SameTextSameTime | src/verity_cordon/core/models.py:559-567 | Equal text if and only if equal time |
| Timestamps.TextOrderIsTimeOrder | src/verity_cordon/core/models.py:559-567 | Text order is time order if and only if the times differ in their seconds or the earlier fraction is no prefix of the later |
| Timestamps.HalfSecondFirst | src/verity_cordon/core/models.py:559-567 | Half a second after the epoch has a smaller text than the epoch |
| Timestamps.DueWithinOneSecond | src/verity_cordon/memory/service.py:985-995 | The string comparison selects due rows right to within one second, and exactly when the whole seconds differ |

## Left out

- Ed25519, SHA-256 and the canonical text of events: hashes are ideal, signatures an abstract predicate; legacy version 1 head and receipt formats are not modelled.
- SQLite and asyncio below atomic appends, and the cancellation of a task inside a commit: named crash points stand for both.
- Regular expressions, detectors and semantic providers: matches, verdicts and assessments are arbitrary inputs; extraction of candidates is too.
- TOML text: configurations are nested maps of parsed values, so comments, order and formatting are not modelled; neither are the backup copies of the file.
- File ownership, modes, symbolic links, locks, executable and runtime trust, subprocess output: only exists, content and atomic replacement remain.
- Statistics, listings, previews for display, CLI, HTTP middleware, browser sessions and the user interface: presentation only.
- Verifier.VerifyProjections: rows and payloads are parsed values, so the failure classes for text that does not parse are not modelled; of several failures of one check the class reported is not specified further.
- Database.MemoryDatabase.StageCapture: captures keep only digests; the protected local retention of content has no writer in the service.
- Database.MemoryDatabase.StageRescan: the sanitised copy and its new evaluation are inputs that keep the original's provenance; how they are computed is not modelled.
- Conservation.RunKeepsStory: the worker's selection and ordering of due rows is not part of the step; any pending row may be claimed, so it covers every selection.
- CodexInstaller.Host.Install: starts from a configuration whose controlled values are booleans or absent and, for an upgrade, required or original; others are refused before anything is written. A reinstall of unchanged digests is excluded as stated above.
- DemoTeardown.Desktop.Teardown: one artifact and one directory stand for the receipt's list, and the demo's installation steps are not modelled.
- Streaming.Stream.Commit: the evaluation in the middle is one step; a call that arrives meanwhile finds the state committing and conflicts, which is the case of a stream that is not open.
- Idempotency.IdempotencyStore.Run: a response whose stored text is the in-progress marker itself is not representable.
- CanonicalForm.ParseUndoesCanonical: floats are kept as their text and excluded, as are lone surrogates, Python's limit on integer digits and its recursion limit.
- Timestamps.ParseUndoesFormat: the parser reads only the form that format_utc writes, with more fraction digits allowed, and times start in 1970.
- PolicyEngine.EvaluationIgnoresOrder: the decision's own identifier, time and policy digest are not part of the evaluation; the digest does depend on the order of the rules.
