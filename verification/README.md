# AgentForge durable execution: a Dafny verification

AgentForge runs workflows as event-sourced instances. An instance is nothing but its event
log. Workers lease it, fold the log into a projection, plan over the dependency graph, start
waves of steps, and append what happened. Workers crash; leases are taken over; operators
pause, resume and abort; humans and deadlines resolve escalations. This project models that
engine and proves what holds in every run.

The layers, bottom up:

- `Domain`, `Events`, `Fold`, `FoldLaws`: the transition tables, the projection, the event
  vocabulary, the fold and its laws.
- `Dag`, `Planner`, `Validation`: Kahn layering with cycle detection, the planner, the graph
  check that admits a definition.
- `Driver`: the batches one `drive` appends, as a machine that moves from append to append.
- `Legality`: which event may follow which projection. A legal event is accepted by the fold
  and keeps the invariants. Everything said about histories is drawn from this.
- `Batches`, `Phases`: every batch the driver emits is a run of legal events, and each append
  leaves what the next one relies on.
- `Fields`: what each field of a projection says about the log.
- `Waves`, `Policies`, `LoopMoves`, `Retrials`: what the driver's batches and moves leave behind, told
  without the functions that build them.
- `Operators`, `Answers`: the batches of the operator, of the escalation controller and of a
  requeue, and what each answer and request does.
- `Leasing`, `Protocol`: the lease row, and one instance served by any number of workers. A
  state holds the log and its authors, the lease row, all leases ever granted, every drive in
  flight and the escalation rows controllers have read. Actions are acquire, heartbeat,
  release, begin, one append of a drive, crash, operator request, a controller's look at a row,
  its decision in a later transaction, and requeue, in any order.
- `Logs`, `Seeding`, `Safety`, `Theorems`, `Money`: the protocol's invariant, its preservation
  along every run, and what follows.
- `Unseeded`: what happens if no read carries the defined steps.
- `Tenure`: when a lease is granted and how long it is good for.
- `Tidiness`, `Stale`: exactly which decisions keep "every open escalation's step waits", and a
  run with one that does not.
- `Stuck`: what becomes of an idle instance, and how to tell before resolving an escalation.
- `Convergence`, `DriverLoop`: the driver's own loops and why a drive ends.
- `Traces`, `Solo`: a drive as the row of its moves, and those moves as protocol actions. This
  joins the loops to the protocol.
- `EventStore`, `Refinement`, `Writers`: the store as a class whose read models refine the log,
  its link to the protocol's commits, and the unguarded writers against it.
- `SideEffects`, `Outbox`: attempts at one external effect, interleaved and crashing; the
  outbox and its two operations.

What comes from outside is an input: step outcomes, clocks, new ids, provider replies, the
order of a set's elements. Times and money are reals. A transaction is one atomic step.

Findings the model makes precise:

- The store snapshots at the first commit, without a definition. A read through the snapshot
  therefore never seeds the defined steps, and the planner's direct lookup fails unless an
  event mentions each of them (`ReadCoversIffMentioned`, `FaultsExactly`). With such reads alone no
  step is ever started (`UnseededNeverStarts`). In the protocol a read may or may not be seeded,
  and the claims hold for both.
- Model-call recordings are appended together with the step's outcome and a failure clears
  them. So at every start the list handed to the step for replay is empty
  (`EveryStartWasDue`). Architecture decision 5 promises more.
- The escalation controller reads the row and the instance in two transactions and looks only
  at the instance's status again. A decision from a row answered in the meantime can move a step
  out from under a newer escalation (`DecisionTidyIff`, `LateSweep`). Completions, attempts,
  fencing, spend and ledger survive this; "an open escalation's step waits" does not.
- A drive that falls through to IDLE leaves the instance RUNNING, where no decision is taken. The
  open escalations can never be answered and no step ever starts again (`IdleForGood`). Two
  approvals raised together lead there when one is answered, its step finishes and nothing else
  can run (`StrandsIff`).
- Effects of a provider without idempotency keys can land twice exactly while an attempt that may
  call is still in flight (`LandsAgainIff`); without overlap they cannot.
- An attempt still in flight can turn a compensated outbox row back, so one landing can be undone
  twice (`LateReportUndoesTwice`). A compensation is final exactly when it begins with nothing in
  flight (`UndoneForGoodIff`) and does not die before its mark.
- A requeue of a step that holds an output completes it a second time (`TwoCompletions`,
  `RequeueRepeatsIff`). Limited to failed steps it cannot.
- Spend charged to an instance is forgotten by the tenant ledger if the worker dies between the
  two writes; the ledger is never ahead (`LedgerNeverExceedsCharges`,
  `TenantLedgerNeverExceeds`).

## Model

| member | source | states |
|---|---|---|
| `Theorems.CompletesAtMostOnce` | src/agentforge/core/driver.py:303-485 | In every run (any workers, interleaving, crashes, operator and escalation actions) a step has at most one StepCompleted, and it carries the number of that step's own latest StepStarted before it |
| `Theorems.EveryPrefix` | src/agentforge/core/driver.py:165-235 | Every prefix of every reachable log projects; COMPLETED means every defined step settled; at most max_concurrent_steps run; each step has at most one open escalation, and a step under one is not pending, running or failed, even after decisions from outdated rows |
| `Theorems.EveryStartWasDue` | src/agentforge/core/driver.py:248-296 | At every StepStarted of every reachable log: dependencies COMPLETED or SKIPPED (also from FAILED), approval granted, no open escalation, cost below the limit, a free slot, next attempt number, no recorded model call to replay |
| `Theorems.AttemptsAndRetries` | src/agentforge/core/driver.py:461-476 | Between creation or a requeue of the step and its next requeue, attempts are 1, 2, 3, ... without a gap across crashes and approvals, and at most max_retries retries are scheduled |
| `Theorems.ApprovalComesFirst` | src/agentforge/core/driver.py:272-290 | The first escalation on a requires_approval step is the explicit approval |
| `Theorems.IdleOnlyWhenHeld` | src/agentforge/core/driver.py:212-233 | A drive of a reachable state falls through to IDLE only while some step waits for a human or is under an open escalation: the graph alone never leaves the planner without a move |
| `Stuck.IdleForGood` | src/agentforge/core/escalation.py:253-266 | When a drive that is up to date gives up as IDLE, every event of every continuation, whatever workers, operators and controllers do, is a change of the instance's status: no step starts, completes or is skipped, no escalation is answered |
| `Stuck.StuckForGood` | src/agentforge/core/driver.py:172-235 | The same from any state whose log leaves nothing running, nothing to start and not everything settled in an instance that is running, paused or failed, if the drive under the latest lease has read that and written nothing |
| `Stuck.IdleIffHeld` | src/agentforge/core/driver.py:238-296 | With nothing in flight the planner is idle, at any time, if and only if not all is settled, no step has failed and every step that could start is under an open escalation |
| `Stuck.StrandsIff` | src/agentforge/core/escalation.py:268-318 | Checkable before resolving: once the escalation's step is done and nothing else has moved, the planner is idle if and only if another step is unsettled and every other step is held by another open escalation or behind one |
| `Stuck.DecisionStrandsIff` | src/agentforge/core/escalation.py:268-318 | A decision that skips a step, or accepts the work of one that has run, leaves the planner idle at all times if and only if that condition holds beforehand |
| `Theorems.ParkedWakesToWork` | src/agentforge/core/driver.py:219-232 | A parked instance's wakeup is attained by a delayed step and is the earliest of all scheduled retries, and from then on the planner dispatches or blocks on the budget |
| `Theorems.FaultsExactly` | src/agentforge/core/driver.py:248-249 | A move fails on a step lookup exactly when the planner runs on a projection without an entry for some defined step |
| `Unseeded.UnseededNeverStarts` | src/agentforge/core/persistence/event_store.py:165-172 | If no read carries the defined steps, as none does through a snapshot made without the definition, then in every run of a workflow with at least one step every event after the creation moves the instance's status: no step is ever started |
| `Unseeded.FirstDriveFaults` | src/agentforge/core/driver.py:143-249 | And the fault is reached at once: the first such drive of any new instance sets it running, comes to plan and fails on the lookup |
| `Theorems.MovesAreAccepted` | src/agentforge/core/driver.py:903-922 | The fold never rejects a driver batch of a reachable state: an append fails exactly when the lease or the version is lost |
| `Theorems.WritersAreAccepted` | src/agentforge/core/escalation.py:167-214 | A decision from a row seen pending at any earlier time commits, with exactly its events, if and only if the instance is waiting and the step table permits its move, which it always does while the step waits; an operator request commits if and only if it is allowed |
| `Tidiness.DecisionTidyIff` | src/agentforge/core/escalation.py:253-318 | A permitted decision, from however old a row, keeps "every open escalation's step waits" if and only if it aborts, concerns no step, answers the open escalation, or finds none open on the step; it always keeps one open escalation per step |
| `Tidiness.TidyLogIffCalm` | src/agentforge/core/events/fold.py:117-124 | In a legal log every prefix has every open escalation's step waiting if and only if no event moves a step out from under an open escalation |
| `Tidiness.SteadyRunsAreTidy` | src/agentforge/core/escalation.py:167-250 | In every run without such a decision, every open escalation's step waits, in every prefix of the log |
| `Tidiness.SteadyDecisionsCommit` | src/agentforge/core/escalation.py:167-214 | In such a run every decision on an open escalation of a waiting instance commits, with exactly its events |
| `Stale.LateSweep` | src/agentforge/core/escalation.py:216-250 | A run in which the sweep applies an answered approval's automatic action to a step escalated again since: the step ends READY under an open escalation and the planner is idle at all times |
| `Theorems.ProjectionIsTheLog` | src/agentforge/core/driver.py:903-922 | A driver's locally folded projection equals the fold of the durable log up to its version, whatever others appended since |
| `Theorems.OnlyTheLatestGrantPasses` | src/agentforge/core/leasing.py:155-169 | The k-th grant has fence k, and of all leases ever issued exactly the latest passes the guard, whatever the clocks say |
| `Theorems.SupersededForGood` | src/agentforge/core/leasing.py:81-112 | A superseded lease never passes the guard again in any continuation |
| `Theorems.GuardedFencesRise` | src/agentforge/core/persistence/event_store.py:132-145 | Fence tokens of guarded events never decrease along the log |
| `Theorems.OneWinnerPerVersion` | src/agentforge/core/persistence/event_store.py:136-163 | Two commits at the same expected version never both succeed, whatever happens between them |
| `Theorems.DriveWritesOneRun` | src/agentforge/core/control.py:48-79 | All events of one drive are one contiguous run right after the log it read, so no driver overwrites an operator's transition it had not seen |
| `Theorems.RunGrows` | src/agentforge/core/persistence/event_store.py:147-157 | Logs, authors and grants are append-only along every run |
| `Safety.RunKeeps` | src/agentforge/core/driver.py:143-162 | The protocol invariant (legal log, fences, authorship, rows read by controllers, every drive's projection and phase assertion) holds after every sequence of actions, decisions from outdated rows and requeues of failed steps included |
| `Safety.DecideKeeps` | src/agentforge/core/escalation.py:253-318 | A decision in its own transaction after the row was read: exactly when it commits, exactly what it appends, and that it keeps the invariant and the cost |
| `Safety.RequeueKeeps` | src/agentforge/core/dead_letter.py:131-153 | A requeue of a dead-lettered instance, of no step or of a failed one, commits, appends one event and keeps the invariant and the cost |
| `Safety.AppendOutcome` | src/agentforge/core/driver.py:903-922 | A drive's append succeeds exactly when it is empty or still current, and then log, local projection, authorship and other drives agree |
| `Seeding.LocalFold` | src/agentforge/core/driver.py:922-922 | Folding a legal batch onto the driver's own projection gives the log's projection, whether or not its steps were seeded |
| `Money.LedgerNeverExceedsCharges` | src/agentforge/core/driver.py:454-459 | With non-negative charges what the ledger records for an instance never exceeds its charged cost; with a budget service and without crashes it equals it once nothing awaits recording; cost is the sum of CostCharged |
| `Money.TenantLedgerNeverExceeds` | src/agentforge/core/driver.py:454-459 | Over any number of a tenant's instances, each in any run of its own, the ledger never exceeds the sum of what their logs charge |
| `Money.SpendIsBounded` | src/agentforge/core/driver.py:284-290 | With a positive, never lowered limit and at most C per attempt, cost stays below limit + max_concurrent_steps * C in every run |
| `Money.StepCost` | src/agentforge/core/driver.py:374-459 | Only a committed outcome batch moves the cost, by exactly what its attempts charged |
| `Phases.MoveSound` | src/agentforge/core/driver.py:165-235 | Every append of a drive is legal event by event, re-establishes what the next phase relies on, and moves the cost by the wave's charges only |
| `Phases.RecoverSound` | src/agentforge/core/driver.py:869-890 | Recovery puts exactly the steps left running back to READY, attempts kept, and touches nothing else |
| `Phases.ExecuteSound` | src/agentforge/core/driver.py:372-454 | Recording a wave ends each of its steps as its outcome says, with no step left running |
| `Phases.PolicySound` | src/agentforge/core/driver.py:560-602 | Whatever the failure policy, the terminal failure's batch is legal |
| `Policies.PolicyMeans` | src/agentforge/core/driver.py:560-602 | What each policy leaves: a blown budget or escalate a human (cost_threshold, max_retries), rollback ROLLED_BACK or, stuck, a workflow-level escalation, dead_letter DEAD_LETTERED, pause PAUSED, and no other escalation |
| `Policies.PolicyActions` | src/agentforge/core/driver.py:604-784 | Escalations raised by the policy abort if nobody answers |
| `Phases.RollbackSound` | src/agentforge/core/driver.py:707-737 | A rollback batch is legal, compensates only completed steps and ends ROLLED_BACK |
| `Policies.RollbackMeans` | src/agentforge/core/driver.py:690-737 | After a rollback a step is COMPENSATED if and only if it was COMPLETED and has a compensation action; every other step is as it was; the instance is rolled back and finished |
| `Policies.CompensatesBackwards` | src/agentforge/core/driver.py:690-731 | Steps are compensated in reverse definition order, each by its own action |
| `Policies.UndosAreOnRecord` | src/agentforge/core/driver.py:712-721 | Every undone effect the instance has on record is on record as compensated |
| `Phases.GateSound` | src/agentforge/core/driver.py:786-838 | The approval batch is legal: every gated step waits and the instance with it |
| `Policies.GatesMeanWaiting` | src/agentforge/core/driver.py:786-838 | It adds one open escalation per gated step, in order, each an explicit approval under its own id, due after the step's timeout if it has one |
| `Policies.GateActions` | src/agentforge/core/driver.py:809-825 | Each approval asked for carries its step's own automatic action |
| `Phases.ReviewSound` | src/agentforge/core/driver.py:487-526 | The review batch is legal on the steps that just completed, whose dependents are still pending |
| `Policies.ReviewsMeanWaiting` | src/agentforge/core/driver.py:487-526 | It adds one open escalation per reviewed step, in order, with the attempt's own reason and timeout, and the instance waits |
| `Policies.ReviewActions` | src/agentforge/core/driver.py:497-511 | Each review carries the automatic action its attempt asked for |
| `Policies.CompletionMeans` | src/agentforge/core/driver.py:537-558 | Completion leaves exactly the completed steps' outputs under _outputs and no other key changed |
| `Policies.BlockMeans` | src/agentforge/core/driver.py:840-866 | A blown budget pauses the instance and puts the step on record |
| `Batches.StartLegal` | src/agentforge/core/driver.py:311-333 | Starting a wave runs exactly the dispatched steps, each on its next attempt, and nothing else moves |
| `Batches.OutcomesLegal` | src/agentforge/core/driver.py:374-454 | The outcome batch concludes exactly the wave's steps and adds exactly its charges |
| `Batches.RetriesLegal` | src/agentforge/core/driver.py:461-476 | The retry batch only sets retry times of steps that failed in the wave |
| `Waves.RetriesMean` | src/agentforge/core/driver.py:461-476 | After it each failed step is due after its backoff if its failure is retryable and its attempt is at most max_retries, and has no retry time otherwise |
| `Retrials.GivesUpOnlyWhenSpent` | src/agentforge/core/driver.py:461-476 | Over an undisturbed drive a step that failed stands FAILED without a retry only if its last failure was not retryable or its attempt exceeded max_retries |
| `Waves.OutcomesMean` | src/agentforge/core/driver.py:431-453 | Each step of a wave ends as its own attempt did: completed with its output and time, or failed with its error |
| `Waves.ChargesAreBooked` | src/agentforge/core/driver.py:391-402 | What an attempt charged, money and tokens in and out, is booked on its own step |
| `Waves.EffectMeans` | src/agentforge/core/driver.py:403-430 | A new effect is on record as executed under its name, a deduplicated one under none, one on record keeps its entry |
| `Waves.EffectsAreOnRecord` | src/agentforge/core/driver.py:403-430 | Every effect any attempt of the wave reports is on record as executed |
| `Waves.CallsAreOnRecord` | src/agentforge/core/driver.py:376-390 | A completed attempt's model calls are on record, in order, after those before it |
| `Waves.StartsAreDispatched` | src/agentforge/core/driver.py:311-333 | A wave starts exactly the dispatched attempts, in order, in the worker's name |
| `Planner.MakePlan` | src/agentforge/core/driver.py:238-296 | The planner's loops compute a plan that says exactly: the first step failed for good; without one, precisely the gated steps; without either and with the budget out, the first wanted step; otherwise wanted steps in definition order, one left out only when every slot is taken; all settled if and only if so with nothing running; the earliest retry to come |
| `Planner.PlanSays` | src/agentforge/core/driver.py:238-296 | The same of the plan the theorems speak about, from candidates, open and granted escalations, budget and running steps alone |
| `Planner.CandidateIff` | src/agentforge/core/driver.py:248-267 | A step is a candidate if and only if it is PENDING or READY with every dependency COMPLETED or SKIPPED, or FAILED with its retry due |
| `LoopMoves.FailureEndsIt` | src/agentforge/core/driver.py:197-211 | A step failed for good: the drive ends by the failure policy applied to the first such step, with the status and the escalation the policy prescribes |
| `LoopMoves.GatesEndIt` | src/agentforge/core/driver.py:204-207 | Else, approvals to ask for: the drive ends waiting, with one new open escalation for exactly the gated steps |
| `LoopMoves.BlockEndsIt` | src/agentforge/core/driver.py:200-203 | Else, budget out and a step wanted: the drive pauses on the first such step and records it with what was left of the budget |
| `LoopMoves.WantedStarts` | src/agentforge/core/driver.py:212-216 | Else, a step wanted: a wave starts, in definition order, filling the slots, each step on its next attempt |
| `LoopMoves.SettledCompletes` | src/agentforge/core/driver.py:217-218 | Everything settled: the instance completes with exactly the completed steps' outputs in its context |
| `LoopMoves.DelayedParks` | src/agentforge/core/driver.py:219-232 | Nothing to do but a retry to come: the instance is parked until the earliest one |
| `LoopMoves.OtherwiseRests` | src/agentforge/core/driver.py:172-196 | An instance that is not running is set running if new or parked, and ends the drive with nothing written otherwise |
| `LoopMoves.WaveMeans` | src/agentforge/core/driver.py:303-526 | An undisturbed wave closes each step as its own attempt says: completed with its output, held for review with its output, or failed and due again exactly as its policy says; the instance waits if and only if some attempt asked for a review |
| `Planner.DispatchMeans` | src/agentforge/core/driver.py:284-290 | Every dispatched step is startable, none twice, and the wave fits the free slots |
| `Planner.GatesMean` | src/agentforge/core/driver.py:272-283 | Every gated step is a candidate that requires an approval nobody asked for, and none is gated twice |
| `Planner.IdleExactly` | src/agentforge/core/driver.py:238-296 | With nothing running the plan is empty if and only if nothing failed for good, nothing is delayed, every candidate is under an open escalation and not all is settled |
| `Planner.IdleOnlyIfBlocked` | src/agentforge/core/driver.py:248-267 | On a validated definition the plan is empty only if some step waits, is compensated, or has an open escalation: an acyclic graph always has a source |
| `Planner.WakeupIsProductive` | src/agentforge/core/driver.py:261-267 | At or after the planned wakeup the planner acts |
| `Planner.EarliestMeans` | src/agentforge/core/driver.py:261-266 | The wakeup is the minimum over the delayed steps and lies in the future |
| `Convergence.StartUsesOne` | src/agentforge/core/driver.py:254-267 | Dispatching a step uses up one of its remaining dispatches |
| `Convergence.QuietNoMore` | src/agentforge/core/driver.py:374-484 | No event a wave writes gives a step a dispatch back |
| `Convergence.RemainingFitsAllowance` | src/agentforge/core/driver.py:464-464 | Remaining dispatches never exceed the sum of 1 + max_retries |
| `DriverLoop.StartedEvents` | src/agentforge/core/driver.py:311-332 | The growing list of start events is the specified batch |
| `DriverLoop.OutcomeEvents` | src/agentforge/core/driver.py:374-453 | The nested loops over results build the specified outcome batch |
| `DriverLoop.RetryEvents` | src/agentforge/core/driver.py:461-474 | The loop schedules exactly the failed, retryable attempts numbered at most max_retries, each for its next attempt after its backoff |
| `DriverLoop.ApprovalEvents` | src/agentforge/core/driver.py:786-838 | The approval loop builds the specified batch |
| `DriverLoop.DispatchWave` | src/agentforge/core/driver.py:303-485 | A wave writes only legal events, exactly the drive's moves, and leaves nothing running and fewer dispatches; lost midway, what it wrote is still legal |
| `DriverLoop.CloseWave` | src/agentforge/core/driver.py:461-485 | The last two appends of a wave write exactly the retry and review moves and leave nothing running |
| `DriverLoop.CloseReviews` | src/agentforge/core/driver.py:478-485 | The last append writes exactly the review move |
| `DriverLoop.RunLoop` | src/agentforge/core/driver.py:172-235 | On any projection read: at most 2 + sum of (1 + max_retries) iterations, no convergence error when that is at most 1000, all writes legal and exactly the drive's moves in order, the report true of the instance left behind, and a lookup fault only if the projection lacks a defined step |
| `DriverLoop.Drive` | src/agentforge/core/driver.py:143-162 | A whole drive, recovery included, keeps the same promises |
| `Solo.TraceIsARun` | src/agentforge/core/driver.py:143-235 | A drive's moves, taken as protocol steps while nobody interferes, extend the log by exactly its trace and leave the drive where the trace ends |
| `Solo.DriveIsARun` | src/agentforge/core/driver.py:143-235 | A whole undisturbed drive as protocol steps: the log grows by exactly its events and projects to the instance it reports on |
| `Traces.TraceConcat` | src/agentforge/core/driver.py:172-235 | Two stretches of a drive are one |
| `DriverLoop.FinishReports` | src/agentforge/core/driver.py:59-68 | The reported result names the status the last append leaves the instance in |
| `Legality.LegalKeepsInv` | src/agentforge/core/events/fold.py:48-64 | A legal event is accepted by the fold and keeps every projection invariant |
| `Legality.RunningBounded` | src/agentforge/core/driver.py:284-290 | Legal events never exceed the concurrency limit; only a start makes a step RUNNING |
| `Legality.WaitingRests` | src/agentforge/core/driver.py:487-526 | Nothing runs while an instance waits for a human |
| `Legality.AllLegalAt` | src/agentforge/core/events/fold.py:318-355 | Every event of a legal run is legal at the fold of what precedes it |
| `History.CompletionsExact` | src/agentforge/core/events/fold.py:137-143 | Completions in a legal run equal the outputs its fold holds: never or once |
| `History.StartsAreConsecutive` | src/agentforge/core/events/fold.py:127-134 | Without a requeue of the step, starts in a legal run count up from the projected attempts to the final ones |
| `History.CompletionFollowsStart` | src/agentforge/core/driver.py:431-441 | A completion carries the attempt of the latest start before it |
| `History.RetriesAreBounded` | src/agentforge/core/driver.py:464-474 | Without a requeue of the step, retries scheduled plus retries left never exceed what the policy had left |
| `History.EscalatedIffRaised` | src/agentforge/core/events/fold.py:216-226 | The fold shows an escalation on a step exactly when the run raised one |
| `History.FirstEscalationIsApproval` | src/agentforge/core/driver.py:786-838 | In a legal run the first escalation on an approval step is the explicit one |
| `History.RequeueRepeatsIff` | src/agentforge/core/dead_letter.py:131-153 | The fold takes a requeue of any step on every dead-lettered instance and lets the step start and complete again; that is its second completion if and only if it already holds an output, and never when the requeue is limited to a FAILED step |
| `History.TwoCompletions` | src/agentforge/core/events/fold.py:103-111 | A concrete log the fold accepts in which one step completes twice |
| `Fold.FoldEvents` | src/agentforge/core/events/fold.py:318-355 | The loop over the stream computes the fold, with the same error at the same event |
| `Fields.FoldShows` | src/agentforge/core/events/fold.py:318-355 | Of any stream that folds, field by field (context key, status, limit, every time stamp, each step's status, attempts, output, error, model, retry time): the value of its last writer, or a new instance's if nobody wrote it |
| `Fields.LastWriterWins` | src/agentforge/core/events/fold.py:68-282 | The same over any accepted run of events from any projection |
| `Fields.AdvanceWrites` | src/agentforge/core/events/fold.py:68-282 | Each accepted event writes exactly the fields it should, a human's modification key by key over the context, and leaves every other field alone |
| `Fields.BooksAddUp` | src/agentforge/core/events/fold.py:191-213 | A step's cost and tokens are what was charged to it, the instance's all that was charged, and the errors those of the log in order |
| `Fields.CallsSinceFailure` | src/agentforge/core/events/fold.py:146-188 | A step's recorded model calls are those since its last failure |
| `Fields.EscalationsAre` | src/agentforge/core/events/fold.py:216-242 | The escalations are those the log raised, in order, with step, reason and deadline, each resolved if and only if a later event answered it or timed it out |
| `Fields.LastEffectWins` | src/agentforge/core/events/fold.py:245-282 | An effect is on record as executed or compensated as the last such event on its key says |
| `FoldLaws.StatusAcceptedIff` | src/agentforge/core/domain/enums.py:57-152 | A status event is accepted if and only if it names the status it finds and the new one may be entered from there, listed by target |
| `FoldLaws.FoldSplit` | src/agentforge/core/events/fold.py:318-355 | fold(a ++ b) = fold(b, base = fold(a)) for every stream and split, with the same verdict and error |
| `FoldLaws.FoldDefinitionIndependent` | src/agentforge/core/events/fold.py:68-76 | Folding with a definition accepts exactly the same streams and differs only by default entries of defined steps no event mentions |
| `FoldLaws.HandleSeeded` | src/agentforge/core/events/fold.py:40-45 | Seeding commutes with every handler and both reject together |
| `FoldLaws.NumberedFolds` | src/agentforge/core/persistence/event_store.py:93-116 | A batch numbered by append_new folds exactly as its drafts replay |
| `FoldLaws.CostIsSumOfCharges` | src/agentforge/core/events/fold.py:191-199 | Instance cost moves by exactly the charged amounts |
| `FoldLaws.FoldAllAlike` | src/agentforge/core/events/fold.py:68-76 | Folding the rest of a stream with the definition over a projection made without it accepts what it would accept otherwise and differs at most in default entries |
| `EventStore.SnapshotPlusTail` | src/agentforge/core/persistence/event_store.py:308-338 | Snapshot plus tail equals the full fold, with fewer than 50 tail events |
| `EventStore.CommitSound` | src/agentforge/core/persistence/event_store.py:118-175 | A taken batch leaves every instance's snapshot and index row faithful to its fold |
| `EventStore.NextSnapshot` | src/agentforge/core/events/snapshot.py:39-40 | A commit keeps the snapshot if it is less than 50 events behind and otherwise rewrites it; either way it holds the fold of a prefix |
| `EventStore.RowsStayOk` | src/agentforge/core/persistence/event_store.py:177-218 | With fresh ids every escalation row tells its folded reference's step, reason and deadline and is pending exactly while it is unresolved, for every instance |
| `EventStore.RowIs` | src/agentforge/core/persistence/event_store.py:177-218 | A row carries step, reason, deadline and automatic action from the event that first raised it, and is pending, resolved or timed out as the last closing event says |
| `EventStore.ProjectEscalations` | src/agentforge/core/persistence/event_store.py:177-218 | The loop over events computes the specified rows |
| `EventStore.Project` | src/agentforge/core/persistence/event_store.py:308-338 | The projection is the fold of the tail over the snapshot, refused on an unknown instance, a rejected fold or a foreign tenant |
| `EventStore.FoldedIsContiguous` | src/agentforge/core/events/fold.py:326-333 | A stream that folds is numbered from 1 without a gap |
| `EventStore.ReadCoversIffMentioned` | src/agentforge/core/persistence/event_store.py:165-172 | A read through the snapshot covers a definition if and only if an event mentions each of its steps, since the first commit snapshots without a definition |
| `EventStore.AppendReplays` | src/agentforge/core/persistence/event_store.py:93-116 | Appending drafts at the stream's version folds as they replay on the projection |
| `EventStore.PrefixFolds` | src/agentforge/core/persistence/event_store.py:246-258 | Every prefix of a stored stream folds, with or without a definition |
| `EventStore.Store.Commit` | src/agentforge/core/persistence/event_store.py:118-175 | Succeeds exactly when the guard passed, the version matches, the events belong to the instance and the longer stream folds for the tenant; otherwise nothing changes (an empty batch refreshes the wakeup, then fails) |
| `EventStore.Store.Append` | src/agentforge/core/persistence/event_store.py:63-91 | Pre-numbered append; empty is answered without a transaction, misnumbered refused |
| `EventStore.Store.AppendNew` | src/agentforge/core/persistence/event_store.py:93-116 | Numbers drafts from the expected version and commits them whole or not at all |
| `EventStore.Store.GetInstance` | src/agentforge/core/persistence/event_store.py:234-244 | Answers exactly for the owning tenant; without a definition it is the fold of the whole stream, with one it is that fold up to default entries of defined steps |
| `EventStore.Store.StateAt` | src/agentforge/core/persistence/event_store.py:246-258 | Time travel returns the fold of the prefix at the version and never fails on a stored stream |
| `EventStore.Store.constructor` | src/agentforge/core/persistence/event_store.py:53-61 | An empty store has faithful read models |
| `Refinement.StoreTakesWhatCommitTakes` | src/agentforge/core/persistence/event_store.py:118-175 | The store takes a batch exactly when the protocol's commit does, and then holds the longer log |
| `Refinement.StreamIsLog` | src/agentforge/core/persistence/event_store.py:308-338 | Folding the stored stream is projecting the protocol's log |
| `Leasing.LeaseStore.AcquireRunnable` | src/agentforge/core/leasing.py:53-114 | Grants claimable instances in candidate order, up to the limit: one goes without only if the limit is used up by claimable ones before it; each gets the next fence of its row and a fresh expiry; all other rows unchanged |
| `Leasing.EligibleServes` | src/agentforge/core/leasing.py:57-74 | The claim query filters, then limits: no claimable instance is missed while there is room, none is skipped for a later one |
| `Tenure.AcquireExactly` | src/agentforge/core/leasing.py:53-114 | In every reachable state a worker is granted the instance if and only if it is pending, running or parked, its wakeup has come and the last lease has expired |
| `Tenure.HeldUntilExpiry` | src/agentforge/core/leasing.py:57-70 | Until a lease expires nobody else is granted the instance and the holder keeps passing the guard, whatever else happens |
| `Tenure.HeartbeatAndRelease` | src/agentforge/core/leasing.py:116-144 | A heartbeat keeps the lease for another term, a release ends it before the last heartbeat, and neither touches anyone else's |
| `Leasing.LeaseStore.Heartbeat` | src/agentforge/core/leasing.py:116-132 | Extends exactly the worker's own rows and returns their ids; worker and fence never change |
| `Leasing.LeaseStore.Release` | src/agentforge/core/leasing.py:134-144 | Expires the worker's own row and nothing else |
| `Leasing.LeaseStore.Guard` | src/agentforge/core/leasing.py:155-169 | Passes exactly for the row's worker and fence |
| `Leasing.EligibleFits` | src/agentforge/core/leasing.py:57-74 | The claim query returns each instance once and at most the limit |
| `Leasing.EligibleIsSelectable` | src/agentforge/core/leasing.py:66-70 | Everything the claim query returns is runnable, due and not held by an unexpired lease |
| `Operators.DecisionAcceptedIff` | src/agentforge/core/escalation.py:268-318 | On a waiting instance a decision, stale or not, is accepted if and only if the step table allows the move it makes; aborts and workflow-level decisions always |
| `Operators.DecisionSound` | src/agentforge/core/escalation.py:268-318 | A permitted decision on any escalation the instance has, open or long resolved, is legal event by event, moves only the step it names and moves the instance to the stated status |
| `Answers.AnswerMeans` | src/agentforge/core/escalation.py:268-318 | Approve and modify complete a step with output and queue one without; skip skips; abort moves no step. About a step the instance runs again, about the workflow it is rolled back, on abort it fails. The escalation and no other is closed, the modification overrides the context key by key, a new limit replaces the old |
| `Answers.AnswerTakenIff` | src/agentforge/core/escalation.py:268-318 | On a waiting instance an answer is taken unless it skips a completed step or approves a skipped one: if and only if |
| `Answers.AnswerIsOnRecord` | src/agentforge/core/escalation.py:167-250 | The log names the human's answer, or the deadline's action: approve, skip, and abort for anything else |
| `Answers.ApprovedMayRun` | src/agentforge/core/escalation.py:279-293 | Approving or modifying a step that waits before its first run makes it a candidate nothing holds back |
| `Answers.SkippedForGood` | src/agentforge/core/escalation.py:294-305 | A skipped step stays skipped and is never a candidate again |
| `Theorems.DecideMeans` | src/agentforge/core/escalation.py:253-318 | In every run a decision from a row once seen pending is taken if and only if the instance waits and it is not too late, and then does exactly that |
| `Theorems.DecidesFromPendingRows` | src/agentforge/core/escalation.py:253-258 | Every row a controller decides from was pending in some prefix of the log |
| `Operators.RequeueSound` | src/agentforge/core/dead_letter.py:131-153 | A requeue limited to a failed step of a dead-lettered instance is legal and moves no money |
| `Operators.ControlSound` | src/agentforge/core/control.py:45-69 | An allowed operator transition is legal and changes only the status |
| `Answers.RequestMeans` | src/agentforge/core/control.py:36-69 | Pause leads to PAUSED, resume to RUNNING, abort to FAILED, each exactly from the statuses listed, and nothing else about the instance changes |
| `Operators.TransitionEvents` | src/agentforge/core/escalation.py:268-318 | The branch-by-branch list, literally for each answer: at most one move of the step, then one of the instance |
| `Writers.Transition` | src/agentforge/core/control.py:45-79 | Whatever rivals write, the request is applied at most once, to the state it was checked against; it gives up only after five lost races |
| `Writers.AppliedConcludes` | src/agentforge/core/control.py:58-74 | Appended at the version read, an allowed transition is taken and the stream folds to its target |
| `Writers.ExpireDue` | src/agentforge/core/escalation.py:216-250 | Streams only grow; exactly the fired escalations' rows end timed out |
| `Writers.TimeoutClosesItsRow` | src/agentforge/core/escalation.py:224-234 | A timeout batch closes its own row and no other |
| `SideEffects.KeyedEffectsLandOnce` | src/agentforge/core/side_effects.py:104-174 | With a key-honouring provider every interleaving of attempts and crashes lands the effect at most once and all successful outcomes agree |
| `SideEffects.ReconciledEffectsLandOnce` | src/agentforge/core/side_effects.py:133-141 | Without key support a truthful reconcile gives the same when attempts do not overlap |
| `SideEffects.LandsExactly` | src/agentforge/core/side_effects.py:130-141 | One action lands the effect once more if and only if it is a call, not refused, of an attempt in flight that may call, and the provider does not recognise the key of an effect it has |
| `SideEffects.LandsAgainIff` | src/agentforge/core/side_effects.py:130-141 | Without key support a landed effect can land again in some continuation if and only if an attempt that may call is still in flight |
| `SideEffects.TwoCallersLandTwice` | src/agentforge/core/side_effects.py:130-141 | Without key support two attempts that may call land the effect twice, from any cell in which nothing has landed |
| `SideEffects.OverlapLandsTwice` | src/agentforge/core/side_effects.py:104-141 | Such a cell is reached: a run of two overlapping attempts that lands twice |
| `SideEffects.CompensatedIsFinal` | src/agentforge/core/side_effects.py:127-128 | A compensated key with nothing in flight is never executed again in any continuation |
| `SideEffects.CompensatedUntilReported` | src/agentforge/core/side_effects.py:127-174 | One action takes a row out of COMPENSATED if and only if an attempt still in flight reports |
| `SideEffects.UndoAgainIff` | src/agentforge/core/side_effects.py:176-206 | From any cell some continuation has the provider undo the effect once more, unless the row is compensated, no attempt is in flight and no compensation has the row in its list: if and only if |
| `SideEffects.UndoneForGoodIff` | src/agentforge/core/side_effects.py:176-206 | A whole compensation undoes an executed effect once, and it can be undone again if and only if, as it begins, an attempt is in flight or another compensation has the row in its list |
| `SideEffects.OrderlyUndoesOnce` | src/agentforge/core/side_effects.py:176-206 | When compensations begin with nothing in flight and none dies between the provider's undo and the mark, the provider undoes the effect at most once, whatever attempts come between |
| `SideEffects.LateReportUndoesTwice` | src/agentforge/core/side_effects.py:127-206 | A run with a key-honouring provider: one landing, undone twice, because an attempt in flight turns the row back |
| `Outbox.Box.Claim` | src/agentforge/core/outbox.py:129-138 | A new key is pending with one attempt and goes last; a known one counts one more |
| `Outbox.Box.Mark` | src/agentforge/core/outbox.py:140-148 | Changes the named fields of one known row; an unknown key is ignored |
| `Outbox.Box.Execute` | src/agentforge/core/side_effects.py:81-174 | One attempt changes the row, the provider and the caller's answer as the attempt function says; other keys untouched |
| `Outbox.AttemptIsARun` | src/agentforge/core/side_effects.py:81-174 | An uninterrupted attempt is one run of the interleaved protocol |
| `Outbox.AttemptMeans` | src/agentforge/core/side_effects.py:115-174 | When an attempt succeeds, what it tells and stores, when it is failed, refused or deduplicated, and when the effect lands once more: if and only if each |
| `Outbox.Box.Compensate` | src/agentforge/core/side_effects.py:176-222 | Undoes executed rows newest first and marks them done; a refusal, noted as failed, or a death between the provider's undo and the mark leaves exactly an oldest-first prefix executed and nothing else changed |
| `Outbox.Box.Series` | src/agentforge/core/side_effects.py:81-222 | Over any series of attempts and compensations each key is undone at the provider once for every compensation that died on it, and once more if it is compensated now and was not before; so without deaths no key is undone twice |
| `Outbox.UndoIsARun` | src/agentforge/core/side_effects.py:182-206 | What a compensation does to one key is one run of the interleaved protocol: list, undo, mark |
| `Outbox.CompensateTally` | src/agentforge/core/side_effects.py:176-222 | A compensation adds exactly the keys it undid, each once, to the compensated keys |
| `Outbox.ExecutedMeans` | src/agentforge/core/outbox.py:150-160 | The list holds exactly the rows of that instance and tenant whose status is EXECUTED |
| `Outbox.ExecutedInOrder` | src/agentforge/core/outbox.py:150-160 | The list names them in the order they were claimed |
| `Dag.TopologicalLayers` | src/agentforge/core/domain/dag.py:27-50 | Succeeds if and only if all dependencies are known and the graph has no cycle; layers partition the steps, sorted, each at the length of its longest dependency chain |
| `Dag.ValidateDependencies` | src/agentforge/core/domain/dag.py:14-24 | Accepts exactly known, acyclic graphs, and each error names a real fault |
| `Dag.StuckSetHasCycle` | src/agentforge/core/domain/dag.py:41-44 | A set of steps each waiting on another of the set contains an actual cycle |
| `Dag.AcyclicHasSource` | src/agentforge/core/domain/dag.py:41-44 | Any set of steps of an acyclic graph has one that depends on none of the others |
| `Validation.ValidateGraph` | src/agentforge/core/domain/definition.py:67-79 | Accepts exactly the definitions with distinct ids, known dependencies, no cycle, and side effects declared wherever there is a compensation |
| `Validation.CheckCompensations` | src/agentforge/core/domain/definition.py:75-79 | Finds a compensation without side effects exactly when there is one |
| `Validation.HasDuplicates` | src/agentforge/core/domain/definition.py:69-72 | Finds duplicate step ids exactly when there are some |
| `Validation.BackoffRises` | src/agentforge/core/domain/definition.py:28-31 | Backoff delays are positive, capped and never shrink |
| `Validation.BackoffSteps` | src/agentforge/core/domain/definition.py:28-31 | The first delay is the base and each next one the multiple of the one before, both up to the cap |

## Left out

- Requeue: the protocol's action is limited to failed steps, or to no step; the source does not check, and what an unchecked requeue does is `RequeueRepeatsIff`. Dead-letter rows themselves are not modelled.
- Crashes between StepFailed and its retry, and between StepCompleted and its review, are runs of the protocol, but no claim is made that the retry or the review survives them.
- Fold handlers are modelled on values, each split into its effect on the named step and on the rest; the deep copy and in-place update of the source's instance are not captured.
- Protocol: one instance at a time; rows of different instances meet only in `EventStore` and `Leasing`. SQL, isolation levels and SKIP LOCKED are replaced by atomic transactions.
- RunLoop: appends either succeed or raise as the environment says; that they raise exactly on a lost lease or version is the protocol's `MovesAreAccepted`. All events of one batch share one timestamp.
- Execute: keys are independent cells, since idempotency keys are digests taken to be injective; the digest itself is not modelled.
- ValidateGraph: the patterns and ranges of single fields are taken as met.
- StrandsIff: speaks of the moment the escalation's step is done and nothing else has moved; what other steps do meanwhile is the planner's `IdleIffHeld`.
- Error records: without the attempt number, and a blown budget's message is one fixed text.
- StepContext, runners and LLM replay: represented by step outcomes.
- Budget views, the daily tenant limit and the cost router: only the order of charging and recording is modelled.
- Rollback handlers of single steps are one input saying whether undoing succeeded.
- API routes, authentication, notifications, metrics, tracing, worker loops, configuration, agents and providers: off the durability path.
