# Safety kernel of DriveGuard, verified

DriveGuard puts a language model in a car, and a deterministic kernel between the two decides whether a
side effect runs, how often it runs, and what is reported about it afterwards. This project models that
kernel in Dafny and proves what the kernel is for: that a confirmed action takes effect at most once,
that nothing ambiguous is retried blindly, that what is reported is what happened, and that no queue,
lock, permit or probe gets lost on the way.

Check everything with `dafny verify dfyconfig.toml` (Dafny 4.11).

## How the model is built

* **Outside influences are scripts.** What a handler does, which events are delivered, what the
  reconciler and the revalidator answer, clock readings, generated ids, and what other executions do to a
  shared circuit are inputs of the modelled operations. Every theorem is about all of them, so it covers
  every pattern of failures. Bookkeeping the source does not have (handler calls, effects in the world,
  calls on the circuit, the probe owed) is part of the specification states only.
* **Classes follow the source's objects.** The methods of a class change its fields step by step as the
  source does, and are proved against functions over values. The theorems about whole runs are lemmas
  about these functions.
* **What a function computes is also said without it.** The functions the methods are proved against are
  described once more by what went in: by the script of a run, the history of calls on a circuit or a
  controller, the stream of events, or the command and the clock (`OwnerReports`, `CircuitHistories`,
  `ConfirmationReports`, and the lemmas named `…Told` and `…Iff`).
* **Concurrency is a state machine over segments.** Whatever the source does between two awaits is one
  step; runs are all sequences of steps of all calls.
* **Hashing is taken as collision-free.** A digest is its input, so equality of fingerprints is exactly
  equality of canonical texts. A number is identified with its shortest decimal text, which is what
  JSON.stringify prints.
* **Tools and reconcilers keep their word** where effects in the world are counted: `FaithfulAttempt` says
  that a value means the effect happened, that a failure after which the tool cannot have acted
  (`MayHaveActed`) left no effect, and that EXECUTED and NOT_EXECUTED answers are right. Nothing is assumed
  about other failures.
* **Executions on one circuit.** An owner run takes its circuit, and what others do to it meanwhile, as
  inputs. `SharedCircuits` is about several runs that are each other's others: one history of calls on the
  circuit in which each run finds its own.
* **Collation is a parameter.** localeCompare is any comparison that is a strict weak order; texts may
  compare as equal without being the same, and sorting is stable.

| modules | part of the repository |
|---|---|
| CanonicalText, CanonicalTree, CanonicalReading, CanonicalGraph, ActionFingerprint | canonical serialization, its round trip, and the fingerprints built on it |
| ExecutionConcurrency, RequestAdmission, PermitTracking | bounded admission in the executor and in the API |
| ToolFailure, CircuitBreakers, CircuitHistories, ExecutionRecords, Idempotency | the components of the executor |
| OwnerRun, OwnerTheorems, OwnerEffects, OwnerReports | one owner execution: specification, invariants, effects, and what it reports |
| SharedCircuits | several owner executions on one circuit |
| ExecuteCalls, ExecuteTheorems, ExecuteProgress, Executor | any number of `execute` calls, and the class |
| ActionLifecycle, PendingActionRepository, Confirmation, ConfirmationReports, ConfirmationServices | confirmation and one-shot authorization |
| ConfirmedExecution | confirmation and execution together |
| ExclusiveQueues, Conversations | the promise-chain mutex and its users |
| AgentRuns, PiEvents | agent runs driven by an untrusted event stream |
| Conflicts, Revalidation | whether the context still allows a confirmed action |
| Sorting, Apportionment, SplitManifest | the evaluation split |

## Where the code falls short of its promise

The model keeps the code as it is. Four promises hold only under a condition; a failing input and the exact
condition are proved for each:

* **Truthful outcome.** A handler value that `structuredClone` rejects is caught like a tool failure after
  `execution.succeeded` was emitted: a side effect that happened is reported as FAILED and one attempt is
  logged twice (`UncloneableResultIsMisreported`). `ExactlyOnce` and `RunOutcome` show that an effect is
  misreported exactly in runs whose last attempt returns such a value after announcing its success;
  `TruthfulOutcome` says what this means for tools whose values can always be cloned.
* **Recovery receipts.** A success after retries copies the receipt of the attempt before it, so
  `idempotencyKeyReused` is false when the second attempt succeeds, although that attempt reused the key
  (`ReuseIsMisreported`). `RunOutcome` shows that a run's receipt is wrong exactly when its first attempt is
  retried and its second succeeds, `KeyReuseToldIff` that a tool's receipts are always right exactly when no
  second attempt is permitted or the tool is never retried.
* **Confirm never leaves CONFIRMED.** A clock reading that cannot be written as a timestamp after the
  confirmation was stored leaves the action CONFIRMED (`ConfirmCanStick`); `ConfirmExits` gives the exact
  condition and `NextConfirmRecovers` the way out.
* **Unchanged context.** Conflict detection takes some values as changed that the fingerprint takes as
  unchanged: 0 and -0 (`NegativeZeroTold`), and objects that create canonically equivalent keys in different
  orders (`TiedKeysTold`). `DeepEqualIffSameText` shows that these are the only two ways.

## Model

| member | source | states |
|---|---|---|
| CanonicalText.QuoteUnique | packages/action-lifecycle/src/canonical.ts:7-7 | Unique readability of quoted strings: whatever follows them, two quoted texts that start alike are of the same string, including unpaired surrogates |
| CanonicalText.QuoteVerbatimIff | packages/action-lifecycle/src/canonical.ts:7-7 | A string is quoted as it is exactly if it is well formed and holds no control character, quote or backslash |
| CanonicalText.UnitEscaped | packages/action-lifecycle/src/canonical.ts:7-7 | What JSON.stringify escapes and how: the shorter escape where there is one, else lower-case hexadecimal digits |
| CanonicalText.NumeralUnique | packages/action-lifecycle/src/canonical.ts:9-14 | A printed number ends where the next delimiter begins, so it can be read back |
| CanonicalTree.SortedUnique | packages/action-lifecycle/src/canonical.ts:47-47 | Distinct keys have exactly one sorted arrangement in UTF-16 code-unit order |
| CanonicalTree.SameTreeNormal | packages/action-lifecycle/src/canonical.ts:5-57 | Sorting keys and erasing -0 identifies exactly the trees that are equal up to key order and the sign of zero |
| CanonicalTree.PrintUnique | packages/action-lifecycle/src/canonical.ts:41-53 | Unique readability of the nested text: from any text with any continuation, tree and continuation are determined |
| CanonicalTree.SerializeInjective | packages/action-lifecycle/src/canonical.ts:59-61 | Two values have the same canonical text if and only if they are equal up to key order and the sign of zero |
| CanonicalTree.KeyOrderIrrelevant | packages/action-lifecycle/src/canonical.ts:47-53 | Permuting the keys of an object never changes its text |
| CanonicalTree.PrintWellFormed | packages/action-lifecycle/src/canonical.ts:83-83 | The text has no unpaired surrogates, so encoding it as UTF-8 before hashing loses nothing |
| CanonicalReading.SerializeReadsBack | packages/action-lifecycle/src/canonical.ts:5-61 | Round trip: a reader of JSON text (RFC 8259) reads the canonical text back, with nothing left over, as the same tree up to key order and the sign of zero, with all keys in order |
| CanonicalReading.PrintRead | packages/action-lifecycle/src/canonical.ts:5-57 | Every printed value reads back inside any text that goes on with a delimiter |
| CanonicalReading.KeyLessIff | packages/action-lifecycle/src/canonical.ts:47-47 | The order of keys is decided at their first difference, by the smaller UTF-16 code unit or the shorter key |
| CanonicalGraph.CanonicalizeIffUnfolds | packages/action-lifecycle/src/canonical.ts:18-56 | The visited set decides exactly whether the object graph unfolds to a finite tree, and yields that tree |
| CanonicalGraph.UnfoldsUnique | packages/action-lifecycle/src/canonical.ts:18-56 | A value has at most one tree unfolding |
| CanonicalGraph.AcceptsExactly | packages/action-lifecycle/src/canonical.ts:18-56 | canonicalValue succeeds if and only if no cycle is reachable and everything reachable is legal; sharing without a cycle is accepted |
| CanonicalGraph.CanonicalValue | packages/action-lifecycle/src/canonical.ts:5-57 | The recursion with the mutable set terminates on every graph, restores the set on success and on failure, and returns the specified text or throws |
| CanonicalGraph.CanonicalArray | packages/action-lifecycle/src/canonical.ts:41-41 | The array branch prints its entries in order and stops at the first that throws, with the set restored |
| CanonicalGraph.CanonicalObject | packages/action-lifecycle/src/canonical.ts:47-53 | The object branch prints its members in key order and stops at the first that throws, with the set restored |
| CanonicalGraph.CanonicalSerialize | packages/action-lifecycle/src/canonical.ts:59-61 | Returns the canonical text of the unfolding, and succeeds exactly on acyclic graphs of legal nodes |
| CanonicalGraph.GraphsPrintAlike | packages/action-lifecycle/src/canonical.ts:59-61 | Two accepted graphs, however they share nodes, print the same text if and only if their unfoldings are the same tree |
| ActionFingerprint.FingerprintBinds | packages/action-lifecycle/src/canonical.ts:63-84 | Given collision-free hashing, equal fingerprints mean exactly: same tool, identities and context, and the same arguments up to key order and the sign of zero |
| ExecutionConcurrency.RunInvariant | packages/executor/src/concurrency.ts:82-166 | After any history of acquires, releases and timeouts: counters agree with permits, order and conservation hold, and no queued caller could start |
| ExecutionConcurrency.CapsAndExclusion | packages/executor/src/concurrency.ts:120-147 | Active reads and writes equal the unreleased permits and stay within their caps; two unreleased write permits are never for one vehicle |
| ExecutionConcurrency.StartsInArrivalOrder | packages/executor/src/concurrency.ts:151-166 | Reads start in arrival order, and so do the writes to each vehicle, although other vehicles may overtake |
| ExecutionConcurrency.CallsConserved | packages/executor/src/concurrency.ts:86-118 | Acquires = started + rejected + queued; each is settled at most once, and is unsettled exactly while queued |
| ExecutionConcurrency.ReleaseNeverClamps | packages/executor/src/concurrency.ts:135-147 | The Math.max clamps never bite: a held permit finds its counter positive and its vehicle listed |
| ExecutionConcurrency.TimeoutStartsNobody | packages/executor/src/concurrency.ts:104-112 | The drain after a queue timeout finds nobody to start |
| ExecutionConcurrency.DrainInvariant | packages/executor/src/concurrency.ts:151-166 | Draining ends, keeps the invariant, and leaves nobody waiting who could start |
| ExecutionConcurrency.AcquireTold | packages/executor/src/concurrency.ts:82-118 | After any history a call is refused on arrival exactly if the queue is full, starts at once exactly if the permits held leave room, and else waits behind all others; nobody else is affected |
| ExecutionConcurrency.NobodyWaitsWithRoom | packages/executor/src/concurrency.ts:151-166 | After any history nobody waits for whom the permits held leave room |
| ExecutionConcurrency.RefusedByTimer | packages/executor/src/concurrency.ts:104-112 | A waiting call is refused by its own timer and by nothing else |
| ExecutionConcurrency.ReleaseTold | packages/executor/src/concurrency.ts:135-147 | Releasing a permit marks it and touches no other |
| ExecutionConcurrency.ExecutionConcurrencyController.AcquirePermit | packages/executor/src/concurrency.ts:82-118 | acquire updates the controller exactly as the protocol step Acquire |
| ExecutionConcurrency.ExecutionConcurrencyController.ReleasePermit | packages/executor/src/concurrency.ts:135-147 | release, called any number of times, updates the controller as the protocol step Release |
| ExecutionConcurrency.ExecutionConcurrencyController.QueueTimeout | packages/executor/src/concurrency.ts:104-112 | The queue timer updates the controller as the protocol step Timeout |
| ExecutionConcurrency.ExecutionConcurrencyController.DrainQueue | packages/executor/src/concurrency.ts:151-166 | The drain loop reaches the fixed point of starting the first waiter that can start |
| ExecutionConcurrency.ExecutionConcurrencyController.FindStartable | packages/executor/src/concurrency.ts:153-155 | findIndex returns the first waiter that can start, or none |
| RequestAdmission.RunInvariant | apps/api/src/admission-control.ts:65-128 | After any history the books of the controller are in order |
| RequestAdmission.AdmissionBounded | apps/api/src/admission-control.ts:65-122 | Never more than maxConcurrent active; while accepting, a non-empty queue means every slot is taken; the queue is bounded |
| RequestAdmission.AdmittedInArrivalOrder | apps/api/src/admission-control.ts:65-122 | Admission is strictly in arrival order, ahead of everybody who still waits |
| RequestAdmission.RequestsConserved | apps/api/src/admission-control.ts:65-128 | Each acquire is settled at most once, and has been settled exactly when it is not queued |
| RequestAdmission.ShutdownIsFinal | apps/api/src/admission-control.ts:88-97 | After beginShutdown the queue stays empty, nothing more is admitted and the number active never grows |
| RequestAdmission.AcquireTold | apps/api/src/admission-control.ts:65-86 | After any history a request is admitted at once exactly if the controller accepts and a slot is free, refused exactly if it does not accept or slots and queue are full, and else waits behind all others |
| RequestAdmission.RefusedOnlyBy | apps/api/src/admission-control.ts:75-97 | A waiting request is refused by its own timer or by shutdown, which refuses the whole queue in order |
| RequestAdmission.ReleaseTold | apps/api/src/admission-control.ts:99-112 | Releasing a permit marks it and touches no other |
| RequestAdmission.ReleaseNeverClamps | apps/api/src/admission-control.ts:104-110 | The clamp of active at zero never bites |
| RequestAdmission.RequestAdmissionController.AcquirePermit | apps/api/src/admission-control.ts:65-86 | acquire updates the controller as the protocol step Acquire |
| RequestAdmission.RequestAdmissionController.ReleasePermit | apps/api/src/admission-control.ts:99-112 | release updates the controller as the protocol step Release, and is idempotent |
| RequestAdmission.RequestAdmissionController.QueueTimeout | apps/api/src/admission-control.ts:75-81 | The queue timer updates the controller as the protocol step Timeout |
| RequestAdmission.RequestAdmissionController.Shutdown | apps/api/src/admission-control.ts:88-97 | beginShutdown refuses the whole queue in order and happens once |
| RequestAdmission.RequestAdmissionController.DrainQueue | apps/api/src/admission-control.ts:114-122 | The drain loop admits from the front while slots are free |
| ToolFailure.ClassifiedIff | packages/executor/src/errors.ts:55-94 | A failure is AMBIGUOUS_SIDE_EFFECT exactly when a side-effecting tool may have acted: the dependency timed out or was unavailable, and the failure says it was cut off, or says nothing while the dependency does not absorb repeats; it is RETRYABLE exactly when the dependency did not answer and, for a write, absorbs repeats and has not acted |
| ToolFailure.TimeoutMayHaveActed | packages/executor/src/timeout.ts:12-15 | The timeout of an attempt is a failure after which the tool may have acted: AMBIGUOUS_SIDE_EFFECT for every side-effecting tool, RETRYABLE for every other |
| ToolFailure.CodeTold | packages/executor/src/errors.ts:63-74 | The code says whether the dependency timed out or was unavailable; other executor faults keep theirs and everything else is TOOL_EXECUTION_FAILED |
| ToolFailure.FailureTypeTold | packages/executor/src/recovery.ts:106-121 | The failure type is the one the error names; otherwise the tool's own error code tells TIMEOUT from CONNECTION_ABORT, and all else is DEFINITE_FAILURE |
| ToolFailure.RetryDecidedIff | packages/executor/src/recovery.ts:136-177 | RETRY is decided exactly for transient reads, and for IDEMPOTENT writes that did nothing or are reconciled as NOT_EXECUTED, while attempts remain; RECONCILE exactly for unclear writes not reconciled yet; and the reason given for each decision |
| ToolFailure.AmbiguousFailureTypes | packages/executor/src/errors.ts:78-93 | A failure after which a write may have acted never carries HTTP_503 or DUPLICATE_REQUEST; it carries DEFINITE_FAILURE exactly for an executor fault without a type |
| ToolFailure.AmbiguousRetryIff | packages/executor/src/recovery.ts:146-177 | After a failure of a write that may have acted, RETRY is decided if and only if reconciliation says NOT_EXECUTED, the hint is IDEMPOTENT, attempts remain and the failure has a transient type |
| ToolFailure.ExecuteRead | packages/executor/src/recovery.ts:180-223 | executeRead repeats only transient failures, returns the first value or a receipt with the type and number of the last failure, and stops early only on a failure that is not transient |
| ToolFailure.DelayForRetry | packages/executor/src/retry.ts:39-41 | Delays follow the backoff list; beyond its end its last entry repeats, and an empty list gives no delay |
| CircuitBreakers.ReachableValid | packages/executor/src/circuit-breaker.ts:42-83 | After any calls, CLOSED holds iff the failures are below the threshold and HALF_OPEN iff a probe is active |
| CircuitHistories.OpensExactly | packages/executor/src/circuit-breaker.ts:68-83 | Over any history the circuit is CLOSED exactly while fewer failures in a row were reported than the threshold; the failure that reaches it, or a failed probe, opens it as of that moment |
| CircuitHistories.PermitTold | packages/executor/src/circuit-breaker.ts:42-57 | Over any history: everybody is allowed while the failures in a row are below the threshold; otherwise exactly the first to ask once the cooldown after the last failure is over is the probe, and everybody else is refused and changes nothing |
| CircuitHistories.CooldownHolds | packages/executor/src/circuit-breaker.ts:44-47 | From the opening failure until cooldownMs later every acquire is refused and leaves the circuit as it was |
| CircuitHistories.OneProbe | packages/executor/src/circuit-breaker.ts:51-55 | After a probe was handed out, nobody gets a permit until it is answered |
| CircuitBreakers.CircuitBreaker.Acquire | packages/executor/src/circuit-breaker.ts:42-57 | acquire gives the permit and leaves the entry that CircuitHistories.PermitTold describes by the history; other keys are untouched |
| CircuitBreakers.CircuitBreaker.Succeed | packages/executor/src/circuit-breaker.ts:59-66 | succeeded closes the circuit and reports the previous state |
| CircuitBreakers.CircuitBreaker.Fail | packages/executor/src/circuit-breaker.ts:68-83 | failed reopens a half-open circuit or counts towards the threshold, and reports both states |
| ExecutionRecords.RecordsStayValid | packages/executor/src/lifecycle.ts:11-94 | After any store operations a record's history is a legal path ending in its state, at most three long, and only running records have attempts added |
| ExecutionRecords.FinalPath | packages/executor/src/lifecycle.ts:11-19 | There is one path to each final state: REJECTED right after CREATED, every other through RUNNING |
| ExecutionRecords.TerminalForGood | packages/executor/src/lifecycle.ts:11-19 | A terminal record never changes again |
| ExecutionRecords.ExecutionRecordStore.Create | packages/executor/src/lifecycle.ts:35-54 | create refuses a known executionId and otherwise stores a CREATED record |
| ExecutionRecords.ExecutionRecordStore.Transit | packages/executor/src/lifecycle.ts:64-80 | transition succeeds exactly on legal steps of known records and appends to the history |
| ExecutionRecords.ExecutionRecordStore.AddAttempt | packages/executor/src/lifecycle.ts:82-94 | addAttempt succeeds exactly on running records and appends to the log |
| Idempotency.EntriesAreForGood | packages/executor/src/idempotency.ts:25-46 | Without a durable coordinator, entries, bindings and resolved results never change |
| Idempotency.OwnedOnce | packages/executor/src/idempotency.ts:25-46 | After its first acquisition a key is a duplicate for the same fingerprint and binding, and a conflict for any other |
| Idempotency.IdempotencyManager.Acquire | packages/executor/src/idempotency.ts:25-46 | acquire: owner, duplicate or conflict as specified, adding an entry only for an owner |
| Idempotency.IdempotencyManager.Complete | packages/executor/src/idempotency.ts:37-44 | complete resolves once; every later call is a no-op |
| Idempotency.IdempotencyManager.Release | packages/executor/src/idempotency.ts:53-63 | release deletes an entry only for the same fingerprint and binding |
| OwnerTheorems.AttemptKeeps | packages/executor/src/executor.ts:490-750 | Each pass of the retry loop either re-enters it with all attempts failed, all retries justified, a consistent circuit and no probe owed, or ends the run well |
| OwnerTheorems.LastAttemptEndsRun | packages/executor/src/executor.ts:751-756 | The return after the retry loop is unreachable |
| OwnerTheorems.RunEndsWell | packages/executor/src/executor.ts:428-757 | Every owner run ends with a terminal record whose state is the returned status, a legal history, an attemptCount that is the number of handler calls and at most maxAttempts, attempts numbered 1..attemptCount of which only the last may have succeeded, and the probe answered; after a value that cannot be cloned the last attempt is logged twice, as succeeded and then as failed, and the status is FAILED; REJECTED iff authorization failed |
| OwnerTheorems.NoCallBeforeAuthorization | packages/executor/src/executor.ts:432-477 | The handler is called, and RUNNING reached, only after the execution's own authorization was consumed |
| OwnerReports.AttemptReported | packages/executor/src/executor.ts:490-750 | By the script alone: an attempt is repeated if and only if its handler threw, calling again cannot repeat an effect, attempts remain and its events were delivered; otherwise status, error, payload and receipt follow from what was thrown or returned, reconciled and delivered |
| OwnerReports.UnsafeIff | packages/executor/src/executor.ts:484-487 | Calling again can repeat an effect exactly for side-effecting tools whose hint is NON_IDEMPOTENT |
| OwnerReports.AttemptLeaves | packages/executor/src/executor.ts:490-609 | An attempt leaves one log entry per outcome, and on the circuit one permit and one answer: success for a value, failure for a failure that speaks against the dependency, success for a probe that failed otherwise |
| OwnerReports.RunReported | packages/executor/src/executor.ts:428-757 | The whole report of a run by its script: why each attempt but the last was repeated, what the last one reports, the complete log, everything the circuit breaker was told, and what a run reports that makes no attempt |
| OwnerReports.NoBlindRetry | packages/executor/src/executor.ts:610-727 | Over a whole run the handler is called again only after it threw and calling again cannot repeat an effect: if a side-effecting tool may have acted, only after the reconciler answered NOT_EXECUTED, with an IDEMPOTENT tool and attempts left; a side-effecting NON_IDEMPOTENT tool is called at most once |
| OwnerEffects.ExactlyOnce | packages/executor/src/executor.ts:490-757 | With faithful tools and reconciler: at most one effect, SUCCEEDED means exactly one, and an effect is reported as SUCCEEDED or OUTCOME_UNKNOWN if and only if the last attempt does not return an uncloneable value after its success was announced |
| OwnerEffects.TruthfulOutcome | packages/executor/src/executor.ts:490-757 | For cloneable results the reported status is truthful under every pattern of outcomes, event failures, reconciler answers and interference |
| OwnerEffects.UncloneableResultIsMisreported | packages/executor/src/executor.ts:548-563 | Counterexample for every valid configuration and every side-effecting tool: a value structuredClone rejects makes an executed side effect end as FAILED, with two log entries for one attempt |
| OwnerEffects.RunOutcome | packages/executor/src/executor.ts:428-757 | Per script: a run fails to clone exactly when its last attempt reaches its handler, which returns an uncloneable value, and circuit.closed, where due, and execution.succeeded are delivered; its receipt is wrong about the reuse of the key exactly when the first attempt is retried and the second succeeds; with faithful tools and reconciler its effects are counted right |
| OwnerEffects.ReuseIsMisreported | packages/executor/src/executor.ts:554-561 | Counterexample for every configuration with a second attempt and every tool that may be retried: the dependency is unavailable once, the retry succeeds with attemptCount 2, and its RECOVERED receipt says the key was not reused |
| OwnerEffects.KeyReuseToldIff | packages/executor/src/executor.ts:554-561 | idempotencyKeyReused is right in every run of a tool if and only if maxAttempts is 1 or the tool is never retried |
| SharedCircuits.RunAnswersProbes | packages/executor/src/executor.ts:490-757 | Whatever the others do to the circuit in between, a run asks for a permit only while it owes no answer to a HALF_OPEN probe, and owes none when it ends |
| SharedCircuits.ProbeNeverLost | packages/executor/src/executor.ts:490-757 | However owner executions interleave on one circuit, whenever it is HALF_OPEN one of them is under way that took the probe and has reported neither success nor failure |
| Executor.ReliableToolExecutor.BeginExecution | packages/executor/src/executor.ts:136-273 | The first segment of execute updates table, records and controller as Begin says, whose outcome for every arrival ExecuteTheorems.ArrivalDecides describes |
| Executor.ReliableToolExecutor.RejectBusy | packages/executor/src/executor.ts:275-286 | A refused owner's record becomes REJECTED and its entry is resolved with EXECUTOR_BUSY |
| Executor.ReliableToolExecutor.Deduplicate | packages/executor/src/executor.ts:204-260 | A duplicate reports its owner's result, or FAILED for its own record when its event is lost |
| Executor.ReliableToolExecutor.TransitDuplicate | packages/executor/src/executor.ts:840-857 | #transitionDuplicate moves a CREATED record to REJECTED, or through RUNNING to the owner's status |
| Executor.ReliableToolExecutor.RunAdmitted | packages/executor/src/executor.ts:277-287 | An admitted owner runs, releases its permit and resolves its entry, whatever the outcome |
| Executor.ReliableToolExecutor.ExecuteOwner | packages/executor/src/executor.ts:428-757 | #executeOwner, in place on breaker and records, returns and stores exactly what RunOwner says and touches no other key or record |
| Executor.ReliableToolExecutor.AttemptLoop | packages/executor/src/executor.ts:490-756 | The for loop over attempts returns from inside the loop with the result of the specified run |
| Executor.ReliableToolExecutor.RunAttempt | packages/executor/src/executor.ts:491-507 | Taking the permit and announcing a probe, with the probe answered when the event fails |
| Executor.ReliableToolExecutor.StartAttempt | packages/executor/src/executor.ts:508-527 | Announcing the attempt and calling the handler |
| Executor.ReliableToolExecutor.HandlerReturned | packages/executor/src/executor.ts:528-562 | The path after the handler returned, including both announcements of circuit.closed when the value cannot be cloned |
| Executor.ReliableToolExecutor.CatchFailure | packages/executor/src/executor.ts:563-609 | The catch block: log, breaker, events, then the ambiguous or the plain path |
| Executor.ReliableToolExecutor.ReportAttemptFailure | packages/executor/src/executor.ts:564-582 | What the log and the breaker learn from a failed attempt, and whether the circuit opened or closed |
| Executor.ReliableToolExecutor.Ambiguous | packages/executor/src/executor.ts:610-707 | Reconciliation of an ambiguous write and what follows from each answer |
| Executor.ReliableToolExecutor.Unambiguous | packages/executor/src/executor.ts:708-748 | Retry or give up after an unambiguous failure |
| Executor.ReliableToolExecutor.FinishExecution | packages/executor/src/executor.ts:815-838 | #finish moves a RUNNING record to the status it returns |
| Executor.ReliableToolExecutor.FinishAfterEffectEventFailure | packages/executor/src/executor.ts:785-797 | #finishAfterSuccessfulEffectEventFailure: OUTCOME_UNKNOWN for side effects, FAILED otherwise |
| Executor.ReliableToolExecutor.FinishAfterFailedAttemptEventFailure | packages/executor/src/executor.ts:799-813 | #finishAfterFailedAttemptEventFailure: OUTCOME_UNKNOWN for ambiguous failures, FAILED otherwise |
| PermitTracking.TicketsUnique | packages/executor/src/concurrency.ts:82-147 | No two permits are for one call, and a refused call has neither permit nor queue place |
| PermitTracking.NothingLeaks | packages/executor/src/concurrency.ts:126-147 | A controller that accounts for no call holds no permit, no vehicle and no waiter |
| ExecuteTheorems.RunKeeps | packages/executor/src/executor.ts:136-288 | The invariant of concurrent execute calls holds over every interleaving of their segments |
| ExecuteTheorems.OneCallerPerKey | packages/executor/src/executor.ts:185-288 | All handler calls under one idempotency key are made by one execute call |
| ExecuteTheorems.KeyRunsAtMostOnce | packages/executor/src/executor.ts:185-288 | Over any interleaving, handler calls per key stay within maxAttempts, and there is at most one if the tool that is called is unsafe to repeat; requests under the key that run nothing do not matter |
| ExecuteTheorems.OwnerResolvesEntry | packages/executor/src/executor.ts:262-287 | An owner's entry is unresolved while it runs and then holds exactly what it returned |
| ExecuteTheorems.ReturnedForGood | packages/executor/src/executor.ts:262-287 | A call that returned never changes, so each entry is resolved once and for all |
| ExecuteTheorems.DuplicatesRepeatOwner | packages/executor/src/executor.ts:204-260 | Each duplicate reports its owner's status, error and payload, except FAILED when it made its own record and its event could not be delivered |
| ExecuteTheorems.SuccessIsEarned | packages/executor/src/executor.ts:136-288 | Nothing is reported as SUCCEEDED without a handler call: a call that succeeded is an owner that made the handler calls it reports, or repeats one |
| ExecuteTheorems.ArrivalDecides | packages/executor/src/executor.ts:136-268 | A request is turned away on arrival exactly when it is invalid, its key is bound to another fingerprint or binding, or its id has a record; it then reports REJECTED with that error, not retryable, without a handler call and for good, and no record that existed changes; otherwise it waits for its key's owner or queues as the owner |
| ExecuteTheorems.RefusalTold | packages/executor/src/executor.ts:270-276 | An owner the controller refused reports REJECTED with EXECUTOR_BUSY as retryable, without a handler call, and so do its record and its entry |
| ExecuteTheorems.RecordsAgree | packages/executor/src/executor.ts:190-287 | Every record created by a call is a legal path: CREATED until its owner starts, RUNNING with the attempts of the handler calls so far while it runs, and final with the reported status once the call returned |
| ExecuteTheorems.CompletionMoves | packages/executor/src/executor.ts:815-838 | What is left of a run before it returns is one legal transition of its record to the reported status |
| ExecuteTheorems.OneWriterPerVehicle | packages/executor/src/executor.ts:270-284 | Two side-effecting owners under way at once are for different vehicles |
| ExecuteTheorems.EveryPermitReturned | packages/executor/src/executor.ts:277-284 | When every call has returned, no permit is held and nobody queues |
| ExecuteProgress.NeverStuck | packages/executor/src/executor.ts:136-288 | No deadlock: provided handlers, events and reconcilers answer, all calls have returned or one of them can take its next step, whatever queue, permits and duplicates wait for |
| ExecuteProgress.OwnStepShrinks | packages/executor/src/executor.ts:136-288 | Every step of a call brings it closer to its return and changes no other call |
| ExecuteProgress.EverybodyReturns | packages/executor/src/executor.ts:136-288 | Once no more requests arrive, every schedule ends after a bounded number of steps per call, with all calls returned, whichever queue timers fire |
| ActionLifecycle.AcceptedIff | packages/action-lifecycle/src/authorization-consumption.ts:8-79 | A consumption is accepted if and only if the action is ready, the authorization unconsumed and unexpired, every bound field matches, and the arguments are the confirmed ones up to key order and the sign of zero |
| ActionLifecycle.IssuerConsumerAgree | packages/agent-runtime/src/production-runtime.ts:394-430 | The request built from any ready record passes verification exactly when the authorization is unconsumed and unexpired |
| ActionLifecycle.ConsumedIsConfirmed | packages/action-lifecycle/src/authorization-consumption.ts:30-78 | An accepted command carries the confirmed arguments, tool, vehicle, session and user |
| ActionLifecycle.IntactAlike | packages/action-lifecycle/src/integrity.ts:6-50 | Two records that pass the integrity check under one fingerprint are of the same call, identities and context, and their policy decision is about that call |
| ActionLifecycle.TransitionKeeps | packages/action-lifecycle/src/repository.ts:91-104 | transition succeeds exactly on legal steps, and keeps the record invariant exactly for the steps the service asks for (CANCELLED, REJECTED, EXPIRED, REPLAN_REQUIRED) |
| ActionLifecycle.AcceptKeeps | packages/action-lifecycle/src/repository.ts:106-121 | acceptConfirmation succeeds exactly on waiting actions and swaps token for confirmation id; the record stays sound exactly if it is stamped before the expiry |
| ActionLifecycle.AuthorizeKeeps | packages/action-lifecycle/src/repository.ts:123-145 | authorize succeeds exactly on CONFIRMED actions and makes READY and the authorization appear together; the record stays sound exactly if the authorization carries its action |
| ActionLifecycle.ConsumeKeeps | packages/action-lifecycle/src/repository.ts:147-164 | consumeAuthorization succeeds exactly on unconsumed records and changes nothing else; the record stays sound exactly if it was ready |
| PendingActionRepository.InMemoryPendingActionRepository.Create | packages/action-lifecycle/src/repository.ts:56-66 | create refuses a known actionId and otherwise stores the record with its integrity checked |
| PendingActionRepository.InMemoryPendingActionRepository.Get | packages/action-lifecycle/src/repository.ts:68-72 | get hands out the stored record, and only with its integrity intact; a missing and a damaged record are told apart, and in a sound repository every stored id is found |
| PendingActionRepository.InMemoryPendingActionRepository.TransitionRecord | packages/action-lifecycle/src/repository.ts:91-104 | The map changes in the one record, and only on success |
| PendingActionRepository.InMemoryPendingActionRepository.AcceptRecord | packages/action-lifecycle/src/repository.ts:106-121 | The map changes in the one record, and only on success |
| PendingActionRepository.InMemoryPendingActionRepository.AuthorizeRecord | packages/action-lifecycle/src/repository.ts:123-145 | The map changes in the one record, and only on success |
| PendingActionRepository.InMemoryPendingActionRepository.ConsumeRecord | packages/action-lifecycle/src/repository.ts:147-164 | The map changes in the one record, and only on success |
| Confirmation.CreatedSound | packages/action-lifecycle/src/service.ts:189-297 | What create stores satisfies the record invariant |
| ConfirmationReports.CreateTold | packages/action-lifecycle/src/service.ts:189-297 | An action is created exactly for a trusted, bound REQUIRE_CONFIRMATION decision at R2 or R3 about this user and vehicle with fitting arguments, and then waits for exactly that from now until now plus the confirmation's time |
| Confirmation.ConfirmExits | packages/action-lifecycle/src/service.ts:417-549 | confirm keeps every record sound, authorizes exactly the waiting actions whose checks all pass, and leaves an action CONFIRMED if and only if a clock reading it needs cannot be written as a timestamp |
| ConfirmationReports.ConfirmReported | packages/action-lifecycle/src/service.ts:417-549 | What confirm makes of every sound record, with the times it is stamped with; an issued authorization is for this action and confirmation, carries the snapshot and version of the revalidated context, is issued at completion and expires its time to live later |
| ConfirmationReports.ConfirmAnswers | packages/action-lifecycle/src/service.ts:417-549 | confirm answers with an outcome exactly when its authorization, or its return to planning, was announced; INVALID_COMMAND, INVALID_STATE, CONFIRMATION_EXPIRED, identity and token errors are given exactly in their cases |
| ConfirmationReports.ConfirmedIsAccepted | packages/agent-runtime/src/production-runtime.ts:394-430 | However many operations come in between, the request built from an authorized confirmation is accepted exactly when nobody consumed the authorization first and the clock is before completion plus its time to live |
| Confirmation.ConfirmNeverSticks | packages/action-lifecycle/src/service.ts:417-549 | With valid clocks confirm never exits leaving CONFIRMED, whichever event, revalidation or id generation fails |
| Confirmation.ConfirmCanStick | packages/action-lifecycle/src/service.ts:539-539 | Counterexample: in the last minute of the year 9999 the authorization's expiry cannot be written and the action stays CONFIRMED |
| Confirmation.NextConfirmRecovers | packages/action-lifecycle/src/service.ts:432-446 | The next confirm with a valid clock sends a stuck action to REPLAN_REQUIRED without an authorization |
| Confirmation.RecordsStaySound | packages/action-lifecycle/src/service.ts:350-597 | Over any operations in any order: READY iff authorized, consumed implies READY, no token hash iff a confirmation id, a legal history, CONFIRMED stamped before the expiry |
| Confirmation.AuthorizedOnce | packages/action-lifecycle/src/service.ts:528-541 | At most one authorization is ever issued for an action; once issued it stays |
| Confirmation.ConsumedOnce | packages/action-lifecycle/src/service.ts:373-415 | At most one consumption of an action's authorization succeeds, over any run |
| Confirmation.ConfirmHandsOff | packages/action-lifecycle/src/service.ts:541-547 | An authorized outcome of confirm is the stored action with the stored authorization |
| Confirmation.ResumeHandsOff | packages/action-lifecycle/src/service.ts:350-371 | An outcome of resume is the stored action with the stored authorization, ready to be handed to execution |
| ConfirmationReports.TerminateTold | packages/action-lifecycle/src/service.ts:551-597 | reject and cancel end exactly the waiting actions of their own session and user, stamped with the clock, and refuse all others unchanged with the right error |
| ConfirmationReports.ExpireTold | packages/action-lifecycle/src/service.ts:559-577 | expire ends a waiting action exactly once its time is over, refuses before that, and reports an expired action as it is |
| ConfirmationReports.FallbackTold | packages/action-lifecycle/src/service.ts:306-314 | create's fallback cancels a waiting action as of its last change, and touches no other |
| ConfirmationReports.ResumeTold | packages/action-lifecycle/src/service.ts:350-371 | resume hands out exactly the ready actions of their own session and user, and changes nothing |
| ConfirmationReports.ClockTold | packages/action-lifecycle/src/service.ts:448-449 | An expiry is reached from its own millisecond on, and a time to live is added in milliseconds |
| ConfirmationReports.ConsumeTold | packages/action-lifecycle/src/service.ts:373-415 | A consumption is stamped with the clock; AUTHORIZATION_ALREADY_USED and AUTHORIZATION_EXPIRED are given exactly in their cases, and a refused one changes nothing |
| Confirmation.HandOffAccepted | packages/agent-runtime/src/production-runtime.ts:394-430 | However many operations come in between, the request built from a confirmation is accepted exactly when nobody consumed the authorization first and it has not expired |
| ConfirmationServices.ConfirmationService.CreateAction | packages/action-lifecycle/src/service.ts:189-338 | create stores and announces the action, and cancels it when the event is lost |
| ConfirmationServices.ConfirmationService.ConfirmAction | packages/action-lifecycle/src/service.ts:417-549 | confirm, step by step on the repository, does what Confirm says to this record and nothing to others |
| ConfirmationServices.ConfirmationService.AcceptAction | packages/action-lifecycle/src/service.ts:476-491 | Storing the confirmation, unless create's fallback cancellation came first |
| ConfirmationServices.ConfirmationService.FinishConfirmation | packages/action-lifecycle/src/service.ts:492-548 | Announcing, revalidating and then authorizing or replanning, with the outcome and the authorization ConfirmationReports.ConfirmReported describes |
| ConfirmationServices.ConfirmationService.TerminateAction | packages/action-lifecycle/src/service.ts:551-597 | reject and cancel |
| ConfirmationServices.ConfirmationService.ExpireAction | packages/action-lifecycle/src/service.ts:559-577 | expire |
| ConfirmationServices.ConfirmationService.ResumeReady | packages/action-lifecycle/src/service.ts:350-371 | resumeReadyForExecution returns the stored authorization and changes nothing |
| ConfirmationServices.ConfirmationService.ConsumeExecutionAuthorization | packages/action-lifecycle/src/service.ts:373-415 | consumeExecutionAuthorization verifies before it consumes, and consumes only what it verified |
| ConfirmedExecution.RunsOnlyConsumed | packages/executor/src/executor.ts:444-477 | An R2/R3 execution reaches RUNNING, calls its handler or takes effect only if its own consumption succeeded |
| ConfirmedExecution.RefusedExecutionTold | packages/executor/src/executor.ts:444-477 | An execution whose authorization cannot be consumed is REJECTED without a handler call, with the code for used, expired, mismatching or missing authorizations |
| ConfirmedExecution.OneExecutionRuns | packages/executor/src/executor.ts:444-477 | Under any interleaving of confirmations, rejections, cancellations, expiries, resumptions, consumptions and executions, at most one execution of an action reaches RUNNING |
| ConfirmedExecution.ActionTakesEffectOnce | packages/executor/src/executor.ts:428-757 | A confirmed action takes effect at most once, over all its executions together |
| ExclusiveQueues.ResolvedIff | packages/action-lifecycle/src/repository.ts:75-82 | A chained promise is resolved exactly when everybody who queued earlier under the key has left |
| ExclusiveQueues.FifoMutex | packages/action-lifecycle/src/repository.ts:74-89 | At most one operation per key runs at a time, in arrival order |
| ExclusiveQueues.EntryIffOutstanding | packages/action-lifecycle/src/repository.ts:85-88 | The queue map has an entry for a key exactly while a call with it is outstanding |
| ExclusiveQueues.EarliestProceeds | packages/action-lifecycle/src/repository.ts:82-88 | A throwing operation releases too: the earliest outstanding call is inside or free to enter, and no other is |
| ExclusiveQueues.ExclusiveQueue.Queue | packages/action-lifecycle/src/repository.ts:75-81 | Queueing chains a new promise behind the stored one |
| ExclusiveQueues.ExclusiveQueue.PreviousResolved | packages/action-lifecycle/src/repository.ts:82-82 | Following the chain of promises decides whether the wait is over |
| ExclusiveQueues.ExclusiveQueue.BeginOperation | packages/action-lifecycle/src/repository.ts:82-84 | The operation starts once the wait is over |
| ExclusiveQueues.ExclusiveQueue.EndOperation | packages/action-lifecycle/src/repository.ts:85-88 | The finally block opens the gate and deletes the entry only if it is still the last |
| Conversations.MessagesInOrder | packages/memory/src/in-memory.ts:91-123 | Over all concurrent appends a session holds for each turn, in arrival order, the user's and then the assistant's message, and messages[i].sequence == i |
| Conversations.InMemoryConversationRepository.AppendToSession | packages/memory/src/in-memory.ts:97-105 | One turn adds its two messages with the next two numbers to its session only |
| AgentRuns.RunsStayValid | packages/agent-runtime/src/agent-run.ts:24-107 | Whatever transitions are requested, the history is a legal path that only grows, and a terminal status is final |
| AgentRuns.PathTold | packages/agent-runtime/src/agent-run.ts:24-107 | A run prepares context and capabilities before its model runs, processes a tool only right after requesting it, resumes only after processing, only then runs its model once more, and succeeds only from a model that runs or has resumed |
| AgentRuns.LegalIff | packages/agent-runtime/src/agent-run.ts:24-41 | Each status with the statuses a run can come from: a run can be cancelled or failed exactly while it has not ended |
| AgentRuns.AgentRun.Transit | packages/agent-runtime/src/agent-run.ts:97-107 | transition moves and records exactly the legal steps |
| PiEvents.StreamSafe | packages/agent-runtime/src/pi-event-adapter.ts:89-192 | For every event stream and every pattern of sink failures: no illegal run transition is attempted, pending and completed calls are disjoint, and a pending call implies TOOL_PROCESSING |
| PiEvents.CallsCompleteOnce | packages/agent-runtime/src/pi-event-adapter.ts:112-165 | By the stream and its answers: each call id starts at most once and ends at most once, after its start |
| PiEvents.CompleteIffAllEnded | packages/agent-runtime/src/pi-event-adapter.ts:60-67 | assertComplete passes if and only if every call the stream started has ended |
| PiEvents.CallsAnswered | packages/agent-runtime/src/pi-event-adapter.ts:112-165 | Whatever the stream, a start is accepted exactly if the stream has not started that id before, and an end exactly while its call is pending under the same name |
| PiEvents.TurnsAnswered | packages/agent-runtime/src/pi-event-adapter.ts:89-192 | A turn with results resumes the model exactly while tools are processed and every started call has ended, and is refused otherwise; only accepted starts, such turns and the turn after them change the status |
| PiEvents.ErrorsCounted | packages/agent-runtime/src/pi-event-adapter.ts:56-58 | toolErrorCount is the number of accepted ends that report an error |
| PiEvents.SafeIdsInjective | packages/agent-runtime/src/pi-event-adapter.ts:73-80 | Different raw call ids never share a safe id, and safe ids are numbered from 1 without gaps |
| PiEvents.PiEventAdapter.ObserveEvent | packages/agent-runtime/src/pi-event-adapter.ts:89-192 | observe changes adapter and run exactly as specified, also when it throws |
| PiEvents.PiEventAdapter.ToolStarted | packages/agent-runtime/src/pi-event-adapter.ts:112-140 | tool_execution_start: activation precedes the event, so a lost event leaves the call active; PiEvents.CallsAnswered describes its answers by the stream |
| PiEvents.PiEventAdapter.ToolEnded | packages/agent-runtime/src/pi-event-adapter.ts:141-165 | tool_execution_end: a lost event leaves the call active |
| PiEvents.PiEventAdapter.TurnEnded | packages/agent-runtime/src/pi-event-adapter.ts:166-188 | turn_end resumes the model only when tool results came and no call is pending |
| Conflicts.SortedKeysEqualIff | packages/context/src/conflict.ts:98-104 | For any consistent collation, comparing sorted key lists decides whether two objects have the same keys, those that collate alike in the same order |
| Conflicts.DeepEqualIffSameText | packages/context/src/conflict.ts:89-105 | Two values are deeply equal if and only if they have the same canonical text, no corresponding position holds 0 and -0, and objects create keys that collate alike in the same order: exactly then conflict detection and fingerprints agree |
| Conflicts.NegativeZeroTold | packages/context/src/conflict.ts:90-90 | Counterexample with -0: one canonical text, but not deeply equal |
| Conflicts.TiedKeysTold | packages/context/src/conflict.ts:98-104 | Counterexample with two canonically equivalent keys: one canonical text, but created in different orders the objects are not deeply equal |
| Conflicts.DeepEqualReflexive | packages/context/src/conflict.ts:90-90 | The Object.is shortcut for identical references never changes the answer |
| Sorting.SortsAlikeIff | packages/context/src/conflict.ts:98-99 | Two arrangements of the same distinct elements sort to the same sequence exactly when they arrange elements that compare as equal alike |
| Conflicts.ValueAt | packages/context/src/conflict.ts:80-87 | The loop over path segments reads the value at the path, or undefined |
| Conflicts.LookupTold | packages/context/src/conflict.ts:80-87 | A path reads, for its last segment, the property of what the rest of the path reads |
| Conflicts.ChangedIff | packages/context/src/conflict.ts:162-164 | A path is unchanged exactly if it leads nowhere both times or to deeply equal values |
| Conflicts.DetectPassesIff | packages/context/src/conflict.ts:128-181 | detect passes exactly when every relevant path is known and reads the same before and after; an unknown path wins over a change |
| Revalidation.SelectEffectiveFreshness | packages/agent-runtime/src/context-loader.ts:99-113 | The search down the precedence list selects the same result as the fold of the revalidator, and its fallback is unreachable |
| Revalidation.SelectedIsFirstWorst | packages/action-lifecycle/src/revalidator.ts:21-31 | selectFreshness returns the first result of the greatest severity |
| Revalidation.FreshIff | packages/action-lifecycle/src/revalidator.ts:102-126 | The combined freshness is FRESH exactly when every part is |
| Revalidation.ValidIff | packages/action-lifecycle/src/revalidator.ts:71-163 | VALID is returned exactly when the tool matches, the same user's and vehicle's context was loaded, all of it is fresh, every relevant value is known and unchanged, and all requirements are available |
| Revalidation.ReasonsTold | packages/action-lifecycle/src/revalidator.ts:71-163 | The reason revalidation gives in every case: the worst freshness, then unknown before changed paths, capabilities before services; a valid answer says whether versions moved |
| Apportionment.LargestRemainderUnique | evals/native/split.ts:74-90 | The description of the largest-remainder allocation determines it |
| Apportionment.ShareWithinSize | evals/native/split.ts:77-90 | No category gives up more cases than it has, and its share is the floor or the ceiling of its quota |
| Apportionment.ExtraToLargest | evals/native/split.ts:82-90 | Extra cases go to the largest fractional parts, in list order among equal ones |
| Apportionment.RemainingCovered | evals/native/split.ts:80-81 | The units left after the floors are no more than the categories with a fractional part |
| Apportionment.Allocate | evals/native/split.ts:80-90 | The loop drives `remaining` to zero and leaves the largest-remainder allocation |
| SplitManifest.SplitIsPartition | evals/native/split.ts:92-102 | Development and holdout partition the case ids |
| SplitManifest.HoldoutTotal | evals/native/split.ts:80-102 | The holdout has round(0.3 N) cases |
| SplitManifest.SharesPerCategory | evals/native/split.ts:94-102 | Each category gives the holdout its allocation and development the rest |
| SplitManifest.HoldoutRanksFirst | evals/native/split.ts:92-102 | Within a category no development case's hash collates before a holdout case's |
| SplitManifest.OrderIrrelevant | evals/native/split.ts:59-125 | Any order of the same cases gives the same manifest, for any consistent collation, unless two ids both hash and collate alike |
| SplitManifest.CreateNativeSplitManifest | evals/native/split.ts:59-125 | Returns the described manifest, or fails exactly on an invalid digest, repeated ids or mixed versions |
| SplitManifest.CategoryCounts | evals/native/split.ts:46-57 | The counting loop counts the ids of each category |
| SplitManifest.Group | evals/native/split.ts:69-72 | Grouping keeps each category's ids in input order |
| SplitManifest.Divide | evals/native/split.ts:92-102 | The best-ranked part of each group goes to the holdout, the rest to development |

## Left out

- The durable coordinator and the Postgres, Redis and NATS stores: the executor is modelled with
  `durableCoordinator` undefined, on the in-memory repositories.
- Policy engine, tool registry, schema checks and identifier patterns: their verdicts are inputs
  (`invalid`, `allowed`, `trusted`, `formed`).
- Timestamps of execution records, events and results, and contents of events: an event is delivered or
  not. A clock that throws inside the executor, and with it the catch in `execute` that turns a throwing
  owner into FAILED, is not modelled.
- Real timers and abort signals: a timeout is a fault a handler call may end with, and a queue timer is a
  step that may happen. A handler that keeps running after its timeout matters only through the
  reconciler's answers.
- Observers of the controllers are taken to be inert, and duplicates' copies of a result to be cloneable.
- The branch of `confirm` for a record that is EXPIRED after acceptConfirmation, which the in-memory
  repository never takes.
- The awaits inside a locked confirmation operation: operations of one action exclude each other
  (`ExclusiveQueues.FifoMutex`), so each is one step. Only the fallback cancellation of `create` runs
  outside the lock; it may come between any two operations and also between an operation's reading of the
  record and its first update, after which it no longer has an effect.
- Conflicts.ValueAt: reads the own properties of plain objects only. The source would also read the entries of
  an array and inherited properties, but no known path leads to either.
- SplitManifest.OrderIrrelevant: takes 0.3 as exactly 3/10, the number of categories as a parameter and their
  names as listed in collation order.
- Session leases in `confirmAndExecute`, LLM and Pi agent, goal routing, argument binding, HMI, routes,
  observability, benchmarks and response scorers: plumbing or text heuristics.
