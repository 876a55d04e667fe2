# A verified model of the HooshiX agent runtime

This project models the parts of the HooshiX agent whose correctness is hardest to see from the
code, in Dafny, and proves what the runtime is built to guarantee. `dafny verify dfyconfig.toml`
checks all of it.

**The durable task engine** (`TaskDomain`, `TaskEngine`, `Engine*`, `ClosedAgentLoop`,
`TaskRuntime`, `SelfHealing`). The engine is a transition system: one step is one durable write,
one tool invocation, or a change in memory, and a crash may come between any two. Tools, policy,
templates and the ownership fence are unconstrained. Invariants are proved for every step, and the
theorems are about all runs. The loop itself is also written imperatively, over the fields it
updates, and proved to be a run of the transition system; so are run, resume and crash recovery.

**The canonical fingerprint** (`Canonical`, `CanonicalJson`, `CanonicalMeaning`, `Fingerprint`).
The printer, a reader that inverts it, and a definition of sameness that neither sorts nor prints.

**Files with compare-and-restore** (`FileStore`, `FileUndo`, `TextReplace`), **plan checks**
(`PlanGraph`, `PlanValidator`), **context ownership** (`Ownership`, `Handoff`, `HandoffTheorems`,
`HandoffRuns`, `ContextTransfer`), **bounded state** (`WindowLimiter`, `LogWriter`, `Metrics`).

## Where the code does not keep a stated property

- At-most-once does not hold of every plan: crash recovery inspects only the first step that is not
  completed (`StaleMutationIsReplayed`), and a second run may start behind a step that waits for an
  approval, whose resumption then walks into what that run left in flight (`HeldMutationIsReplayed`).
  A mutation that a first pass can reach is invoked at most once in all runs if and only if it is
  guarded: it is the first step or runs only on success, and it and every step before it depend on
  all the steps back to the nearest one that runs only on success (`ExactlyGuardedRunsAtMostOnce`).
  Among plans of mutations these are the success chains (`ExactlyChainsRunAtMostOnce`).
- Crash recovery stores the loop's result name as the task state. After a pause for approval this is
  `pending_approval`, which is no state, and the task can never be continued
  (`RecoveryStoresItsState`, `RecoveryCanLoseATask`, `PausedRecoveryIsLost`).
- Resuming takes its step from the latest checkpoint and resets it whatever its row says. A second
  grant for the step that was checkpointed last invokes it again although it is completed or unknown
  (`SecondGrantRepeatsAStep`); as long as every resumption is of a step that is not final, finality
  holds in all runs (`UnknownStopsTheTask`), and one more resumption keeps it if and only if its step
  is not final (`ResumeRespectsFinality`).
- A dependency that waits for an approval is neither failed nor completed. A second run starts at a
  later pending step, and success-only dependents behind it are invoked although the dependency has
  not run (`WaitingDependencyIsIgnored`). A dependency of an invoked success-only step has succeeded
  if and only if it lies at or after the start of the run, or was stored as succeeded before the run
  (`SuccessStepsFollowSuccess`, `RunFollowsSuccess`).
- A stored row need not agree with its receipt. An unknown outcome has an unknown receipt with two
  exceptions: crash recovery does not look at a receipt that is closed (`QuarantineForgetsSuccess`),
  and the ownership fence leaves the receipt unopened (`FencedOutcomeHasNoReceipt`), or open, if the
  executor itself rejects with a fence error (`FencedOutcomeStaysOpen`); the local executor does not.
  There are no others (`StoredRowsAgree`). The failed or blocked row of a mutation that a first pass
  can reach agrees with its receipt in all runs if and only if the mutation is guarded
  (`ExactlyGuardedAgrees`).
- The design sends a transfer through DRAINING; the adapter commits straight from APPROVED
  (`CommitSkipsDraining`).
- A context is meant to have one open transfer, and concurrent transfers are meant to roll back
  rather than rebind twice. The check for an open intent and the insertion are separate database
  calls and no constraint forbids a second row, so two preparations can both insert, and both
  transfers can commit from one epoch (`TwoTransfersCommit`). A run keeps to one open intent at every
  point if and only if each insertion finds none (`OneOpenThroughout`); a second transfer can commit
  if and only if it was approved, with its pre-flight passed, when the first one did
  (`SecondCommit`, `SharedEpochs`).
- The adapter's comment says that a lease that moved after the pre-flight makes the commit roll back.
  The transaction compares the lease with a fresh read of itself, so it does not
  (`CommitTakesFromSource`, `StaleTransferCommits`).
- Infinity and NaN print as `null`, and minus zero as `0` (`UnwritableNumbersCollide`,
  `WritableValuesAreToldApart`).
- A lease is valid at the instant of its deadline; the fence already refuses it
  (`FenceAgainstValidity`).

## What is taken from outside

Persistence calls succeed, except that beginning a receipt may be fenced. Clocks, identifiers,
tickets, tool results, policy verdicts, template resolution and error classification are inputs.
SHA-256 is an injective function where injectivity is needed. A finite number is its shortest decimal
text. Restoring assumes nothing about other writers but what `RestoreFile` states.

## Model

| member | source | states |
|---|---|---|
| `EngineTheorems.GuardedRunsAtMostOnce` | src/core/loop/closed-agent-loop.ts:358-533 | For every valid plan, every guarded mutation of it and every sequence of runs, resumptions, recoveries, grants, cancellations and crashes: two invocations of the mutation have the known failure of the first between them, and once it was looked at and not skipped all steps before it are completed. |
| `EngineTheorems.ChainRunsAtMostOnce` | src/core/loop/closed-agent-loop.ts:358-533 | For every success-chain plan and every sequence of runs, resumptions, recoveries, grants, cancellations and crashes: two invocations of the same mutation have the known failure of the first between them, nothing is invoked after an outcome became unknown, a completed step is never invoked again, and every step that was looked at has an all-completed prefix. |
| `EngineHeld.ExactlyGuardedRunsAtMostOnce` | src/core/recovery/crash-recovery.ts:56-134 | For every mutation of every valid plan that some first pass can reach: all runs invoke it at most once if and only if it is guarded. |
| `EngineHeld.ExactlyGuardedPlans` | src/core/recovery/crash-recovery.ts:56-134 | The same for whole plans with read-only steps and any run conditions, if every mutation can be reached. |
| `EngineHeld.AllCanBeReached` | src/core/loop/closed-agent-loop.ts:244-265 | Every step can be reached by a first pass unless some step up to it waits for a failure. |
| `EngineHeld.HeldMutationIsReplayed` | src/core/runtime/task-runtime-service.ts:166-196 | If some step up to the mutation does not depend on an earlier one with nothing between them that runs only on success, a run invokes the mutation twice with no known failure in between: the earlier step waits for an approval, a run starts behind it, and its resumption comes to the mutation again. The run is constructed. |
| `EngineReplay.ExactlyChainsRunAtMostOnce` | src/core/recovery/crash-recovery.ts:56-134 | The special case of plans whose steps are all mutations: all runs are at-most-once if and only if the plan is a success chain, whether or not every step can be reached. |
| `EngineReplay.StaleMutationIsReplayed` | src/core/recovery/crash-recovery.ts:62-111 | Recovery looks only at the first step that is not completed: any valid plan in which a mutation can be reached without some earlier step has a run that invokes it twice with no known failure in between. The run is constructed. |
| `EngineTheorems.UnknownStopsTheTask` | src/core/loop/closed-agent-loop.ts:229-233 | In every run of every plan whose resumptions are all of steps that are neither completed nor unknown at that point, no tool is invoked after an outcome became unknown, completed steps are final, at most one step is unknown, and a pass that ends over an unknown step reports failed over a failed task. |
| `EngineReplay.ResumeRespectsFinality` | src/core/loop/resume-orchestrator.ts:18-81 | After every such run, for any recovery limit, one more resumption that the latest checkpoint allows keeps unknown and completed steps final, whatever follows it but further resumptions, if and only if its step is neither: otherwise resetting it to pending invokes it again. |
| `EngineApprovals.SecondGrantRepeatsAStep` | src/core/loop/resume-engine.ts:13-40 | A complete run, with every checkpoint kept, in which a completed mutation is invoked again: in two runs the first of two independent steps exits non-zero and the second asks; its first grant completes it and its second grant, still for the latest checkpoint, repeats it. |
| `EngineTheorems.ReceiptDiscipline` | src/core/loop/closed-agent-loop.ts:358-533 | In every run of every plan: each mutating invocation has its own receipt, begun before it; a receipt is finalised at most once, after it was begun; a mutation saved as completed has the succeeded receipt of that attempt; the failure counter is the number of failed attempts on record. |
| `EngineTheorems.StatusAgreesWithReceipt` | src/core/loop/execution-receipt.ts:34-49 | Inside the loop, in every reachable state, a receipt about to be finalised is open, so the already-final error cannot occur, and the status the loop is about to save agrees with the receipt, except for an unknown outcome caused by the ownership fence. |
| `EngineAgreement.StoredRowsAgree` | src/core/loop/closed-agent-loop.ts:401-577 | In every reachable store: a completed mutation has a succeeded receipt for its latest attempt; an unknown outcome recorded by the loop has an unknown receipt, or, where the fence failed, an open one or none; one assigned by crash recovery has any receipt but an open one; a failed or blocked row ends with the failure of its latest attempt. |
| `EngineAgreement.ExactlyGuardedAgrees` | src/core/recovery/crash-recovery.ts:62-111 | For every mutation of every valid plan that some first pass can reach: in all runs, if it is stored as failed or blocked it has no receipt or a failed one for its latest attempt, if and only if it is guarded. |
| `EngineAgreement.ExactlyChainsAgree` | src/core/recovery/crash-recovery.ts:62-111 | The special case of plans whose steps are all mutations: this holds of all steps if and only if the plan is a success chain. |
| `EngineAgreement.GuardedFailureAgrees` | src/core/loop/closed-agent-loop.ts:280-357 | The positive half, for every guarded mutation of every valid plan. |
| `EngineAgreement.HeldMutationIsRefused` | src/core/runtime/task-runtime-service.ts:166-196 | The run behind a waiting step can leave the mutation blocked with an open receipt. |
| `EngineAgreement.ChainFailuresAgree` | src/core/loop/closed-agent-loop.ts:280-357 | The same for every mutation of a success chain. |
| `EngineAgreement.StaleMutationIsRefused` | src/core/recovery/crash-recovery.ts:62-134 | Any valid plan in which a mutation can be reached without some earlier step has a run that leaves the mutation blocked with an open receipt. The run is constructed. |
| `EngineAgreement.FencedOutcomeHasNoReceipt` | src/core/loop/closed-agent-loop.ts:487-512 | Every mutation that can be reached has a run in which the fence refuses its receipt: it is recorded as unknown, has no receipt, and was not invoked in that attempt. |
| `EngineAgreement.FencedOutcomeStaysOpen` | src/core/loop/closed-agent-loop.ts:487-512 | With an executor that itself rejects with a fence error, which the local one does not, every mutation that can be reached has a run that records it as unknown and leaves its receipt open. |
| `EngineAgreement.QuarantineForgetsSuccess` | src/core/recovery/crash-recovery.ts:93-120 | Every mutation that can be reached with all earlier steps completed has a run that quarantines it although its receipt says that it succeeded. |
| `EngineAgreement.NextAgrees` | src/core/loop/closed-agent-loop.ts:234-629 | Every input keeps the agreement of rows and receipts, and its strict form for a guarded mutation. |
| `EngineTheorems.RunConditionsHold` | src/core/loop/closed-agent-loop.ts:239-265 | A pass that reaches verification has skipped exactly those open steps whose dependencies, as they ended, break the run condition; resolved steps and steps before the start are as they were. |
| `EngineTheorems.FailureSkipsDescendants` | src/core/loop/closed-agent-loop.ts:244-265 | Every open success-only descendant of a failed, blocked or skipped step, along any path, ends cancelled and was never invoked in the pass. |
| `EngineDependencies.SuccessStepsFollowSuccess` | src/core/loop/closed-agent-loop.ts:244-271 | In every run, when a success-only step has been invoked, a dependency of it has succeeded if and only if it lies at or after the start of the pass or had succeeded when the pass began; none has failed, been blocked or been skipped. |
| `EngineDependencies.RunFollowsSuccess` | src/core/runtime/task-runtime-service.ts:166-196 | The same in terms a caller can check before a run: the stored rows and the start step. |
| `EngineDependencies.WaitingDependencyIsIgnored` | src/core/runtime/task-runtime-service.ts:166-196 | A run from a created plan in which a success-only step is invoked while its dependency still waits for an approval, because a second run starts behind it. |
| `EngineTheorems.PassIsBounded` | src/core/loop/closed-agent-loop.ts:578-629 | At every point of every run, a pass has invoked tools at most (steps - start + maxRecovery) times, spent at most maxRecovery recoveries, and slept at most 1000*(2^r - 1) and 30000*r milliseconds. |
| `EngineTheorems.BackoffBound` | src/core/loop/closed-agent-loop.ts:47-50 | The sum of the first r back-off delays is at most 1000*(2^r - 1) and at most 30000*r. |
| `EngineTheorems.TransitionsAreLegal` | src/core/loop/closed-agent-loop.ts:179-233 | The first move throws exactly from completed, cancelled or an unknown state name; from every other entry state no pass attempts an illegal transition, and it ends with its result paired with the stored state. |
| `EngineTheorems.RecoveryStoresItsState` | src/core/recovery/crash-recovery.ts:145-163 | After the caller's last save the stored state is the one paired with the result, unless crash recovery paused for an approval; then, and only then, a name outside the state union is stored. |
| `EngineApprovals.RecoveryCanLoseATask` | src/core/recovery/crash-recovery.ts:145-161 | Every non-empty valid plan has a run after which such a name is stored. |
| `EngineTheorems.PausedRecoveryIsLost` | src/core/recovery/crash-recovery.ts:160-161 | Once such a name is stored, no input of any kind invokes a tool or writes a step or a receipt of the task again; only its requests, and by a cancellation its state, still change. |
| `EngineCoherence.NextCoherent` | src/core/loop/closed-agent-loop.ts:234-629 | Every input keeps memory and store in agreement: they differ at most at the step under the index, in the ways each program point allows, and the task state fits the program point. |
| `EngineReceipts.NextAccounted` | src/core/loop/closed-agent-loop.ts:374-533 | Every input keeps the receipt table, the attempt counters and the order of begun, dispatched and finished events consistent. |
| `EngineFinality.NextFinal` | src/core/loop/closed-agent-loop.ts:229-233 | Every input that does not resume a final step keeps completed and unknown rows final, and the log free of invocations after them. |
| `EnginePlaces.NextPlaced` | src/core/loop/closed-agent-loop.ts:234-629 | Up to a guarded step every input keeps the invariant behind the guarantee: what was looked at behind a success-only step came after completed steps, open requests are single and for waiting steps, and no pass is before that step while one is open. |
| `EngineAtMostOnce.NextSound` | src/core/loop/closed-agent-loop.ts:234-629 | Every input keeps the record of a guarded mutation in order: while it may be invoked again, all its invocations are recorded as failed, and a pass that has yet to decide on it does not find it in flight. |
| `EnginePass.NextWalks` | src/core/loop/closed-agent-loop.ts:234-629 | Over a valid plan every input keeps the meaning of what a pass has walked, and its counts. |
| `ClosedAgentLoop.Loop.RunClosedAgentLoop` | src/core/loop/closed-agent-loop.ts:190-642 | The imperative loop, for every environment: it throws exactly from a dead state, otherwise ends with result, memory state and stored state paired; it is a run of the transition system, and over a valid plan keeps the bounds on invocations, recoveries and back-off. |
| `ClosedAgentLoop.Loop.WalkPlan` | src/core/loop/closed-agent-loop.ts:234-642 | The walk ends for every environment (each turn passes a step or spends a recovery) and follows the transition system. |
| `ClosedAgentLoop.Loop.WalkStep` | src/core/loop/closed-agent-loop.ts:234-629 | One turn: either the loop leaves with a result, or it has passed one step or spent one recovery; it follows the transition system. |
| `ClosedAgentLoop.Loop.CancelStep` | src/core/loop/closed-agent-loop.ts:244-265 | A step whose run condition is broken is saved as cancelled and passed. |
| `ClosedAgentLoop.Loop.PauseForApproval` | src/core/loop/closed-agent-loop.ts:311-342 | The step, the task state, the request and the whole plan are written in this order, as four steps of the transition system. |
| `ClosedAgentLoop.Loop.BeginAttempt` | src/core/loop/closed-agent-loop.ts:363-385 | Templates are resolved, then the running row and its receipt are committed together, or the fence refuses; the matching steps of the transition system are taken. |
| `ClosedAgentLoop.Loop.AwaitTool` | src/core/loop/closed-agent-loop.ts:401-486 | The timed outcome of the tool: a value, late or not, decides the step; a late rejection or silence is unknown; a rejection in time is caught. |
| `ClosedAgentLoop.Loop.HandleThrow` | src/core/loop/closed-agent-loop.ts:487-629 | The catch clause: a fence error or an uncertain timeout ends the pass with the task failed, anything else is recorded and perhaps retried. |
| `ClosedAgentLoop.Loop.Mends` | src/core/loop/closed-agent-loop.ts:578-629 | A transient failure is retried while recoveries last; the step is passed otherwise. |
| `ClosedAgentLoop.Loop.VerifyTask` | src/core/loop/closed-agent-loop.ts:632-642 | The verdict is taken over all steps of the plan, after leaving recovering. |
| `TaskRuntime.Task.Run` | src/core/runtime/task-runtime-service.ts:136-234 | Walks exactly when a start step exists, the task is not dead and both retry budgets allow it; answers completed exactly when every step is resolved; otherwise changes nothing. What it does is a run of the transition system. |
| `TaskRuntime.Task.DependenciesMet` | src/core/runtime/task-runtime-service.ts:186-196 | The gate is open exactly when every dependency of the start step is completed, or failed and the step is corrective. |
| `TaskRuntime.Task.Recover` | src/core/recovery/crash-recovery.ts:51-163 | Crash recovery of one task is the recovery command followed by the pass it starts. |
| `TaskRuntime.Task.Quarantines` | src/core/recovery/crash-recovery.ts:93-120 | An interrupted mutation gets an unknown receipt, if its receipt was open, and an unknown row, and fails the task. |
| `TaskRuntime.Task.Resume` | src/core/runtime/task-runtime-service.ts:269-339 | Refuses, and changes nothing, exactly when the request is not granted, is not for the step of the latest checkpoint, or the task is in no resumable state; otherwise consumes the grant, resets that step and walks from it. What it does is a run of the transition system. |
| `TaskRuntime.RecoverInterruptedTasks` | src/core/recovery/crash-recovery.ts:42-190 | Every discovered task is recovered on its own, in order; no other task changes. |
| `SelfHealing.Walk` | src/core/trace/self-healing-controller.ts:4-21 | With any recovery provider, including one that inserts steps, the walk ends, keeps ids distinct and every original step, and invokes at most (steps - start + 2*maxRecovery) times. |
| `SelfHealing.InsertionStaysDistinct` | src/core/trace/self-healing-controller.ts:4-13 | Inserting a created step keeps step ids distinct. |
| `CanonicalMeaning.PrintingIsUnambiguous` | src/core/governance/r2-approval-fingerprint.ts:7-17 | In front of any two continuations that end a value, two printed texts are equal exactly when the values are the same (up to key order, undefined properties and numbers JSON cannot write) and the continuations are equal. |
| `CanonicalMeaning.PrintsTheSame` | src/core/governance/r2-approval-fingerprint.ts:7-17 | Two serializable values print the same if and only if they are the same. |
| `CanonicalJson.CanonicalParses` | src/core/governance/r2-approval-fingerprint.ts:7-17 | A reader recovers the normal form of every printed value, and what follows it. |
| `CanonicalMeaning.PrintsWhenSerializable` | src/core/governance/r2-approval-fingerprint.ts:8-12 | Printing throws exactly when something unserializable is reached, or undefined anywhere but as a property. |
| `CanonicalMeaning.SameIsNormal` | src/core/governance/r2-approval-fingerprint.ts:14-16 | Sameness, defined by looking up keys, coincides with equality of normal forms. |
| `CanonicalMeaning.WritableValuesAreToldApart` | src/core/governance/r2-approval-fingerprint.ts:7-17 | Values without non-finite numbers and minus zero are told apart exactly up to key order and undefined properties. |
| `CanonicalMeaning.UnwritableNumbersCollide` | src/core/governance/r2-approval-fingerprint.ts:8-12 | Infinity prints as null and minus zero as zero, so the unrestricted claim is false. |
| `CanonicalJson.FilterThenSort` | src/core/runtime/r3-task-request-hash.ts:7-17 | Filtering undefined keys before sorting gives the same properties in the same order as sorting first. |
| `Quoting.UnescapeEscape` | src/core/governance/r2-approval-fingerprint.ts:9 | Every string, lone surrogates included, is recovered from its quoted form, whatever follows. |
| `Fingerprint.FingerprintsBindEffects` | src/core/governance/r2-approval-fingerprint.ts:36-54 | A fingerprint is refused exactly when the identity is incomplete or an argument cannot be printed; two are equal exactly when task, step, action, tool, arguments and scope are the same (for an injective digest). |
| `FileUndo.SequencesUnwind` | src/services/filesystem/filesystem-service.ts:213-456 | After any sequence of create, write, modify and delete over any paths, restoring the returned backups in reverse order brings every file back, and no restore is refused. |
| `FileUndo.RestoreComparesFirst` | src/services/filesystem/filesystem-service.ts:381-454 | A restore changes at most its target, only when the target equals the recorded post-mutation state, and then the target is as before the mutation; it succeeds exactly when the target is in the recorded previous or post state. |
| `FileUndo.RestoreTwice` | src/services/filesystem/filesystem-service.ts:418-425 | A repeated restore changes nothing and says so. |
| `FileUndo.DisplacedUndoesRestore` | src/services/filesystem/filesystem-service.ts:429-454 | Restoring the displaced backup undoes the restore. |
| `FileStore.FileSystem.Create` | src/services/filesystem/filesystem-service.ts:213-231 | Creates only an absent file, with the row that undoes it; refuses in the order of the source's checks. |
| `FileStore.FileSystem.Write` | src/services/filesystem/filesystem-service.ts:243-286 | Writes unless too large, outside, stale or not backed up, with the row that undoes it. |
| `FileStore.FileSystem.Modify` | src/services/filesystem/filesystem-service.ts:288-318 | Replaces every occurrence, or refuses for one of eight reasons in the source's order, with the row that undoes it. |
| `FileStore.FileSystem.Delete` | src/services/filesystem/filesystem-service.ts:320-354 | Deletes with the row that undoes it; an absent file is left and no row is made. |
| `FileStore.FileSystem.RestoreFile` | src/services/filesystem/filesystem-service.ts:361-456 | For any interference between the backup of the displaced bytes and the second look: only the recorded state is overwritten, nothing but the target changes, and the final verification never fails. |
| `TextReplace.SplitIsTheCut` | src/services/filesystem/filesystem-service.ts:307-313 | The pieces are the only cutting at the leftmost non-overlapping occurrences, and none contains the search text. |
| `TextReplace.ReplaceIsExact` | src/services/filesystem/filesystem-service.ts:307-316 | The new length is the old one plus occurrences times (replacement - search); there are no occurrences exactly when the search text is absent; replacing by itself changes nothing. |
| `PlanGraph.AssertTaskInvariants` | src/domain/task/task.ts:44-69 | Accepts exactly the plans with distinct ids, known dependencies and no cycle, and yields an order of the steps after their dependencies. |
| `PlanGraph.CycleCheck.Visit` | src/domain/task/task.ts:59-67 | The depth-first visit terminates, returns with the node finished and the stack as it was, or exhibits a cycle. |
| `PlanGraph.OrderedIsAcyclic` | src/domain/task/task.ts:59-68 | A graph whose nodes can be listed after their dependencies has no cycle. |
| `PlanValidator.ValidateTaskPlan` | src/application/services/legacy-task-plan-validator.ts:42-66 | Fills in the default chain in place, and accepts exactly the titled, non-empty plans with distinct ids, dependencies and template references to earlier steps only, and accepted tools. |
| `PlanValidator.ValidateTemplateReferences` | src/application/services/legacy-task-plan-validator.ts:26-40 | Over distinct ids there are no errors exactly when every template refers to an earlier step; every error names the right reason. |
| `PlanValidator.OrderedPlansPass` | src/application/services/legacy-task-plan-validator.ts:45-59 | Every plan the validator accepts passes the depth-first check. |
| `PlanValidator.PassingPlansCanBeOrdered` | src/domain/task/task.ts:59-68 | Every plan that passes the depth-first check can be reordered, each step exactly once, so that the validator accepts it. |
| `PlanValidator.AcceptedPlansAreValid` | src/application/services/legacy-task-plan-validator.ts:45-59 | The plans the engine theorems speak of are exactly those the validator accepts. |
| `PlanValidator.DefaultPlansAreChains` | src/application/services/legacy-task-plan-validator.ts:48 | A plan without declared dependencies and run conditions is a success chain. |
| `WindowLimiter.FewerThanTwiceTheLimit` | src/infrastructure/server/http-security.ts:61-79 | For every run with a clock that never goes back, at most 2*limit - 1 calls of a key (none for limit zero) are allowed in any half-open interval as long as a window. |
| `WindowLimiter.TheBoundIsReached` | src/infrastructure/server/http-security.ts:61-79 | For every positive limit, every window longer than one tick and every non-empty table, a run that reaches the bound. |
| `WindowLimiter.TableIsBounded` | src/infrastructure/server/http-security.ts:65-75 | The table never holds more than maxKeys buckets. |
| `WindowLimiter.AnswersAsUnbounded` | src/infrastructure/server/http-security.ts:65-78 | As long as no key was turned away by a full table, every answer is that of a limiter that keeps every bucket. |
| `WindowLimiter.WaitingHelps` | src/infrastructure/server/http-security.ts:70-76 | Waiting as long as a refusal says is enough for the window to be over, or for the full table to have expired. |
| `WindowLimiter.HttpWindowLimiter.Allow` | src/infrastructure/server/http-security.ts:65-78 | The method on the bucket map computes the reference step. |
| `WindowLimiter.HttpWindowLimiter.Prune` | src/infrastructure/server/http-security.ts:68 | Deleting expired buckets one by one leaves exactly the others. |
| `HandoffTheorems.TransferFencesForever` | src/domain/context/ownership-fence.ts:58-75 | A task that captured its ownership before a transfer committed is fenced at every later point of every run, even if its binding regains the context. |
| `HandoffTheorems.PassingTasksAgree` | src/domain/context/ownership-fence.ts:58-75 | In every run, of two bound tasks of a context that pass the fence at an earlier and a later point, the earlier held a matching valid lease and no later epoch; equal epochs have equal bindings; and at the later point the earlier task still passes exactly when the epochs are equal. |
| `Ownership.FenceAgainstValidity` | src/domain/context/ownership-lease.ts:70-77 | For a matching lease the fence passes exactly when the lease is valid and its deadline has not come: the two differ at the instant of the deadline. |
| `HandoffTheorems.IntentsAreWellKept` | src/application/services/context-transfer.ts:73-195 | In every reachable state tickets differ, stamps tell how far an intent came, and a context's epoch exceeds the number of its committed transfers. |
| `HandoffTheorems.OneOpenThroughout` | src/application/services/context-transfer.ts:91-114 | Each context has at most one open intent at every point of a run if and only if every insertion that goes through finds none of its context. |
| `HandoffTheorems.InsertionKeepsOneOpen` | src/application/services/context-transfer.ts:95-114 | One insertion keeps to one open intent if and only if its context has none at that moment. |
| `HandoffTheorems.UndisturbedInsertion` | src/application/services/context-transfer.ts:95-114 | If no intent of the context is inserted between the check and the insertion, the insertion finds none. |
| `HandoffRuns.TwoTransfersCommit` | src/application/services/context-transfer.ts:91-114 | A complete run in which two preparations interleave, two intents of a context are open, and both transfers commit from the same epoch. |
| `HandoffTheorems.SecondCommit` | src/adapters/outbound/persistence/sqlite/repositories/handoff-intent.adapter.ts:232-304 | Once a transfer of a context has committed, another intent of it can still be committed if and only if it is committed already, or was approved with its pre-flight passed at that moment. |
| `HandoffTheorems.SharedEpochs` | src/adapters/outbound/persistence/sqlite/repositories/handoff-intent.adapter.ts:232-304 | Two transfers of a context that commit from one recorded epoch, in any run: when the first did, the other was already approved with its pre-flight passed, or committed. |
| `HandoffTheorems.OneOpenEpochsDiffer` | src/application/ports/outbound/context.port.ts:150-166 | In a run that keeps to one open intent no two transfers of a context commit from one epoch. |
| `HandoffTheorems.IntentsChangeTwice` | src/domain/context/transfer-intent.ts:83-97 | Along any run an intent changes state at most twice, and its source, target, epoch, ticket, creation and expiry, and every stamp once set, are never rewritten. |
| `HandoffTheorems.CommittedOnlyFromApproved` | src/adapters/outbound/persistence/sqlite/repositories/handoff-intent.adapter.ts:232-304 | An intent becomes committed only from approved, by the transaction of a commit that passed its pre-flight; the epoch goes up by one and the new binding owns the context. |
| `HandoffRuns.CommitSkipsDraining` | src/domain/context/transfer-intent.ts:71-81 | No reachable intent is ever draining, a run commits without it, and the edge taken is not in the transition table. |
| `HandoffTheorems.CommitTakesFromSource` | src/adapters/outbound/persistence/sqlite/repositories/handoff-intent.adapter.ts:241-284 | A commit finds the lease with the epoch and the binding that its intent records if and only if the epoch is still the recorded one. |
| `HandoffRuns.StaleTransferCommits` | src/adapters/outbound/persistence/sqlite/repositories/handoff-intent.adapter.ts:262-284 | A complete run in which a transfer commits although a third binding acquired the lease after the pre-flight. |
| `HandoffTheorems.RunsMoveLeases` | src/adapters/outbound/persistence/sqlite/repositories/context-lease.adapter.ts:92-246 | Over any run no epoch goes back, and an owner and its token change only together with the epoch. |
| `ContextTransfer.TransferService.PrepareHandoff` | src/application/services/context-transfer.ts:73-122 | Four database calls with anything by other processes in between: the lease is read, an open intent or a known ticket refuses, and the intent is inserted with the epoch that was read. |
| `ContextTransfer.TransferService.InsertIntent` | src/adapters/outbound/persistence/sqlite/repositories/handoff-intent.adapter.ts:153-178 | The insertion goes through exactly when the ticket is new; nothing else is checked. |
| `ContextTransfer.TransferService.ApproveHandoff` | src/application/services/context-transfer.ts:132-144 | Approves exactly a prepared, unexpired intent presented with its ticket. |
| `ContextTransfer.TransferService.CommitHandoff` | src/application/services/context-transfer.ts:158-182 | Pre-flight, any actions of other processes, then the transaction. |
| `ContextTransfer.TransferService.CancelHandoff` | src/application/services/context-transfer.ts:189-195 | Cancels exactly the intents that are not terminal. |
| `LogWriter.RotatingLog.Write` | deploy/windows/internal/host/logwriter.go:79-95 | What is retained, oldest slot first, stays a suffix of all bytes ever written and loses at most its oldest slot; the counter is the size of the active file; no file exceeds the bound or the largest payload unless a rename failed. |
| `LogWriter.RotatingLog.Rotate` | deploy/windows/internal/host/logwriter.go:53-77 | Drops the oldest slot or nothing; the active file is empty afterwards unless it could not be renamed. |
| `LogWriter.RotatingLog.ShiftHistory` | deploy/windows/internal/host/logwriter.go:60-70 | The downward loop moves every history file one slot back. |
| `Metrics.McpMetrics.RecordToolCall` | src/mcp/metrics.ts:65-102 | Lifetime counters are those of the full history and the sum over the buckets; named buckets count their tool exactly; there are at most 128; the recent list is the end of the history, between 100 and 200 calls once there are that many. |
| `Metrics.McpMetrics.RecordSessionCreated` | src/mcp/metrics.ts:105-119 | A new session is added and counted once; the peak becomes the larger of itself and the number of sessions. |
| `Metrics.McpMetrics.RecordSessionClosed` | src/mcp/metrics.ts:122-126 | A closed session is forgotten; the counters stay. |

## Left out

- Reconciliation, appended steps and replanning: the engine's plan is fixed; reconciled statuses are read but never written.
- Steps inserted by a custom recovery provider are modelled in `SelfHealing` on ids and counts only, not inside the transition system; the built-in decision never inserts one.
- EngineTheorems.UnknownStopsTheTask: excludes resumptions of final steps, because with them the property is false; `ResumeRespectsFinality` gives the exact condition.
- EngineTheorems.PassIsBounded: counts invocations with the built-in recovery decision; `SelfHealing.Walk` covers any provider.
- EngineHeld.ExactlyGuardedRunsAtMostOnce: speaks of mutations that some first pass can reach. The others need the success of a step and of every step whose failure that step waits for; for them being guarded is sufficient (`GuardedRunsAtMostOnce`), and whether it is necessary, which depends on how retries of earlier steps combine, is not decided.
- EngineAgreement.ExactlyGuardedAgrees: the same restriction, for the same reason.
- TaskRuntime.Task.Resume: of the checks that bind a grant to its request, the step of the latest checkpoint is modelled; arguments, tool, expiry, principal and session are taken to match.
- Checkpoints are best effort: any of them may be lost. The exit of a fence failure or an uncertain timeout writes none in the source and may write one in the model, for a step that was checkpointed when it began.
- Heartbeats, timelines, step outputs and error texts: observability, no effect on control.
- The tool a step selects is a fixed part of the step; its dependence on resolved arguments is not modelled.
- The task execution lease: a command is only accepted while no pass is running.
- PlanValidator.ValidateTaskPlan: finding the templates inside the arguments, trimming the title and checking tool arguments are inputs of the step.
- fingerprintTaskCreate: its payload is a further record printed by the same printer.
- Sparse arrays and objects with their own serialisation: not values an argument can have.
- FileUndo.SequencesUnwind: speaks of calls without idempotency keys; a cached answer makes no change and returns an old backup.
- FileStore.FileSystem.RestoreFile: a write by another process between the second look and the replacement is not modelled; the source does not detect it either.
- Directories, symbolic links, path canonicalisation, authorisation and audit of file operations: foreign calls.
- HandoffTheorems.IntentsAreWellKept: does not promise one open intent per context, because the code does not keep it; `OneOpenThroughout` gives the exact condition.
- Blank identifiers are modelled as empty; trimming is not.
- FORK handoffs, bindings and grants: not part of this model.
- LogWriter.RotatingLog.Write: history renames inside the shifting loop succeed; a failure there could lose a middle slot.
- The metrics snapshot (averages and percentiles): a read-only summary.
- HTTP server, MCP registration, command policy, redaction, process control: transport and string matching.
