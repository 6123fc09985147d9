# Tsukinome: what every run keeps

Tsukinome turns GitHub issues into pull requests. It is a deterministic orchestrator around collaborators
that may answer anything or throw: the model, GitHub, the sandbox. This project models the orchestrator and
proves what holds whatever the collaborators do.

## How the model is built

**The pipeline.** `Pipeline` holds a run's states, context, tasks and history; `Steps` the awaited calls a
handler is made of; `HandlerSpec` every handler as a function of the run it finds, the answers of its
collaborators (`Answers`) and an oracle (`Faults`) that decides at every numbered await whether the call
throws or the worker dies there. `Orchestration` is the system as a state machine: deliver a webhook, or die
over one, process a job, sweep until done or dead, let time pass. `RunSafety`, `RunProgress`, `WorldSafety`,
`Locality`, `WorldFlow`, `Liveness`, `Movement`, `Drain`, `HumanGate`, `QueueSafety`, `PlanGate`, `TaskLedger`
and `TaskHistory` prove properties of it over all sequences of steps; `Chronicle` says once which events a step
may add to the history of a run, and `Windows` which faults strand one. `Outcomes` gives for each handler the
run, the history and the job its answers call for, without any fault, and proves that every execution that
returns leaves just that; `Endings` says of every execution how it ends: which calls it makes, in which order,
and whose failure it swallows. `Undisturbed`, `SmoothSteps` and `Journey` follow executions in which nothing goes
wrong, through the worker and on to the pull request, and `FixOutcomes` says what a fix leaves even when it is
cut short. `Scenarios` drives one issue through the machine, step by step, and `Witnesses` uses it to reach every
state that the other modules call possible but undesirable.

**The imperative side.** `MemoryStore`, `Gateway`, `Execution`, `Handlers`, `Worker`, `App` and `Stale` are the store
and the programs that update it in place. Each method's contract says that the store it leaves is the one
the state machine prescribes, so what is proved of the machine holds of the programs.

**The test-first loop.** `Sandbox`, `Tdd` and `TaskCommits` model the sandbox and the branch as two maps
from path to content; `Toolchain` is test-setup detection and bootstrap on the same sandbox.

**Smaller parts.** `JobQueue` and `Retry` (leases, attempts, backoff), `Pricing` and `Cost` (money),
`Branch` (branch names), `Redaction` and `CodeSession` (tokens, opening a sandbox), `Setup` (OAuth states,
sessions, credentials).

A run's `history` and `heard`, the queue's `claims`, the world's `deaths`, the sandbox's `runs` and the setup
`trace` are history variables: they record what happened and no operation reads them.

## Assumptions

- One worker, as src/worker/worker.ts:293-296 states. Webhooks and sweeps happen between handler executions.
- Store calls do not throw. A call that throws has had no effect, but for `Sandbox.CodeSandbox.WriteFiles`,
  which may have written some of its files and torn one. A comment or a commit counts as made when its call
  returns.
- The clock does not run backwards. Test runs leave the file tree as it is.
- Paths are in normal form: no answer names one file by two of them, as `a` and `./a` would.
- A run is identified by its installation, repository and issue, which is how the store finds it.

## What the proofs found

- There are two ways to lose a run for good, and no third: a retryable throw in one of two windows, or the
  death of the worker over one of the run's own jobs (`Liveness.LostOnlySo`). Deaths over other runs, and
  throws anywhere else, cost it nothing (`WorldFlow.AlwaysFlows`).
- The throw leaves the run in `Planning`, or in `Specifying` with a spec and no clarify job. A run over which
  the worker never died, left without a job, is neither at a gate nor closed exactly if that has happened
  and its job was not dead-lettered (`Liveness.NoOrphanedRun`); and both shapes are reached
  (`Witnesses.ThrowsLoseRuns`).
- The death may fall between the write of a state and the enqueueing of its job. Every one of the eight
  handlers that hand a run on can lose it so, in five states (`Witnesses.DeathsLoseRuns`). A death during
  planning leaves `Planning`, from which nothing leads on either (`Liveness.StuckIsFrozen`).
- Which throws those are can be read off what the execution finds and meets alone (`Windows.StrandedIff`).
- PROGRESS-POST-GA.md:28-30 also lists `Implementing` among the states no retry recovers. A throw does not
  strand a run there: it has a live implement job until the worker dies over one of its jobs. A worker that
  dies between src/worker/handlers.ts:968 and 969, or between 1336 and 1337, does.
- Outside the gates, a run never moves again exactly if no live job would act on it
  (`Movement.NeverMovesIff`).
- A closed run stays closed, whatever happens, exactly if it has its spec or no job to draft it is left:
  specifying is the one handler that does not look at the state it finds (`Movement.ClosedForeverIff`). The
  condition fails in a reachable state, by a death of the worker (`Witnesses.ClosedRunsReopen`), and without
  one it never does (`Movement.ClosedWithoutDeath`).
- A decision at the plan gate is taken when its job runs and looks at the state of the run alone. With "use X"
  and "/approve" both waiting, the first puts a new plan before the gate and the second approves it: code
  reaches the branch under a plan, and a test set-up with it, that nobody who approved it can have seen
  (`Witnesses.ApprovalOvertaken`). That can happen to a plan exactly if an approval that was told before the
  plan was recorded still waits while the plan has none (`PlanGate.ApprovedUnseenIff`); where none ever does,
  every code commit follows an approval told after its plan (`PlanGate.CodeFollowsPlan`).
- The plan is recorded whole exactly if the worker does not die while it is recorded
  (`RunProgress.AllRecordedIff`); what is missing is never recorded later (`HumanGate.PlanNeverGrows`), and
  the pull request opens without it (`Witnesses.DeathTruncatesPlan`).
- A plan is taken apart into tasks once in the life of a run. Once they are done, a plan approved after a
  rework commits no task at all (`TaskLedger.FinishedForGood`).
- A task is committed twice only if the worker died in between, and each death costs one commit at most
  (`TaskLedger.CommitsArePaid`).
- A fix commit is counted as a round exactly if the worker does not die at the count
  (`RunSafety.FixRoundCountedIff`, `Witnesses.FixWithoutItsRound`).
- A delivery enqueues its job exactly if the first step that takes it up does not die over it and finds its
  run waiting for it (`QueueSafety.DeliveryLandsIff`). One that is lost so stays lost: redelivery is ignored
  (`QueueSafety.CrashLosesDelivery`).
- A worker that dies between the claim of an issue's first job and the creation of its run leaves no trace in
  any run, and each such death buys the job one attempt more (`QueueSafety.AttemptsCapped`,
  `Witnesses.AttemptsWithoutRun`).
- The refactor step leaves attested contents for every answer of the model exactly if no sandbox call breaks
  once it has begun to write (`Tdd.RefactorSoundIff`, `Tdd.RunUnsoundRefactor`).
- Redaction removes a token from every text exactly if the token neither begins nor ends with a star nor
  holds three in a row (`Redaction.RemovedIff`).
- A branch is read back as the number it names exactly if that number has 53 significant bits at most and
  does not overflow (`Branch.ReadExactlyIff`).
- Completing a job does not check who holds its lease (`JobQueue.LateRetryResurrects`).
- A reminder hides an unreachable run from the sweep until the week is over, and does nothing else to the
  time a run is given (`Stale.PingDelaysNothing`, `Stale.PingHidesUnreachable`).
- A reminder is recorded exactly if the process does not die after posting it (`Stale.ReminderRecordedIff`);
  otherwise the next sweep posts it again (`Witnesses.RemindedTwice`).
- A credential is stored though its session has expired exactly if the validator takes longer than the session
  had left (`Setup.SetupPages.HandleKeySubmit`, `Setup.RunLateSubmit`).
- What the install command changes when a sandbox is opened is part of the residue with which the tasks start
  (`TaskCommits.ImplementInSandbox`).

## Model

| member | source | states |
|---|---|---|
| Liveness.NoOrphanedRun | src/worker/handlers.ts:218-1592 | in every reachable state, a run without a job over which the worker never died is neither at a gate nor closed exactly if a throw in one of two windows stranded it and its job was not dead-lettered; then it is in one of two stuck shapes and nothing ever moves it |
| Liveness.LostOnlySo | src/worker/handlers.ts:151-1592 | in every reachable state, a run that is not closed and that nothing will move was stranded by a throw in one of the two windows, or the worker died over one of its own jobs |
| Liveness.StrandedForGood | src/worker/handlers.ts:888-938 | whatever happened since, a run stranded by such a throw has failed with its last attempt or is stuck in one of the two shapes, and nothing moves it |
| RunProgress.StrandedExactly | src/worker/handlers.ts:308-341 | an execution strands its run exactly if a retryable error escapes it, leaves the run stuck with nothing enqueued, and its retry would do nothing |
| Windows.StrandedIff | src/worker/handlers.ts:218-1050 | read off the run, the answers and the faults alone: specifying strands exactly if everything up to the record of the spec returns and the announcement throws a retryable error, planning exactly if the first of its calls that goes wrong does, a refusal's comment included; no other handler ever does |
| Witnesses.ThrowsLoseRuns | src/worker/handlers.ts:308-341 | one throw after the spec is recorded, or once planning has begun, leads to a reachable state without a death in which the run has no job, is not at a gate, and never moves again |
| Witnesses.DeathsLoseRuns | src/worker/handlers.ts:187-1337 | for each of the eight handlers that hand a run on, a reachable state in which the worker died before the enqueueing, the job it held is left but does nothing, and the run never moves again |
| Liveness.FrozenForever | src/worker/handlers.ts:849-853 | a run outside the gates that no live job acts on never changes again but for its record of deaths, whatever is delivered, retried, swept or killed |
| Liveness.FrozenIff | src/worker/handlers.ts:151-1592 | between two steps, a run that is neither new nor at a gate is frozen exactly if the one job its state can still be driven by is not in the queue |
| Movement.NeverMovesIff | src/worker/worker.ts:219-287 | in every reachable state, such a run is frozen exactly if no schedule of webhooks, retries, sweeps and deaths ever changes it |
| Liveness.StuckIsFrozen | src/worker/handlers.ts:228-231 | a run between two steps is stuck for good exactly if it is in Planning, or in Specifying with a spec and no clarify job |
| Liveness.TerminalForever | src/worker/handlers.ts:228-231 | while the worker lives, nothing of a Failed, Aborted or Unsupported run changes again, if it did not die over that run before |
| Movement.ClosedForeverIff | src/worker/handlers.ts:228-233 | in every reachable state, no schedule, with whatever deaths, ever changes a closed run exactly if it has its spec or no live specifying job is left for it |
| Movement.ClosedWithoutDeath | src/worker/handlers.ts:228-233 | that condition holds of every closed run over which the worker never died |
| Movement.DeathReopensClosedRun | src/worker/handlers.ts:228-233 | wherever the condition fails, some schedule puts the closed run back into Specifying |
| Witnesses.ClosedRunsReopen | src/worker/handlers.ts:255-266 | it fails in a reachable state: the worker died after refusing a repository and before its job was done |
| Witnesses.DeathTruncatesPlan | src/worker/handlers.ts:1137-1154 | a reachable state in which the worker died while it recorded the tasks of a plan, and the pull request has opened over the recorded ones only |
| RunProgress.AllRecordedIff | src/worker/handlers.ts:1137-1154 | recording a decomposition of n tasks adds n exactly if the worker does not die at any of them, and exactly then goes on |
| HumanGate.PlanIsRecordedWhole | src/worker/handlers.ts:1137-1270 | a run over which the worker never died has recorded every task of its last decomposition, and each of its pull requests opened with all of them recorded and none open |
| HumanGate.PlanNeverGrows | src/worker/handlers.ts:1137-1140 | a list of tasks once begun never gets longer |
| Locality.ProcessJobLocal | src/worker/worker.ts:219-287 | processing a job touches no other run, no job of another, and claims none |
| WorldFlow.AlwaysFlows | src/worker/worker.ts:219-287 | over any history, with the worker dying at any await from the claim on, until it dies over a run that exists, the job the run's state waits for is in the queue, at most one job drafts its spec, and its plan is recorded whole |
| Drain.WorkIsBounded | src/worker/worker.ts:305-311 | over any history without worker deaths, jobs processed plus remaining weight is at most the initial weight plus 1092 for each webhook |
| Drain.QueueDrains | src/worker/worker.ts:305-311 | without new webhooks the number of jobs ever processed is at most the weight of the queue |
| Drain.QueueEmpties | src/worker/worker.ts:305-311 | without webhooks and deaths, a worker that gets as many turns as the queue weighs, each after a pause, leaves no live job; then every run is at a gate, closed, or stuck by a throw in one of the two windows |
| Drain.ProcessJobWeight | src/worker/handlers.ts:864-885 | every processed job strictly lowers the weight, although clarifying and planning enqueue each other |
| HumanGate.HumanGate | src/worker/handlers.ts:964-972 | every setup, task and fix commit in a run's history happens under an approval of the last plan put before the gate, by a comment that a human told the run, before or after that plan was made, and that holds a slash and the letters of approve, in either case, at the end of the comment or of the word; a setup commit only if that plan announced it; a pull request only with every task done |
| PlanGate.ApprovedUnseenIff | src/worker/handlers.ts:959-972 | in every reachable state in which a plan waits for its first approval, some schedule has it approved by a comment told before it was recorded exactly if such a comment waits in the queue by then |
| PlanGate.CodeFollowsPlan | src/worker/handlers.ts:959-1028 | over any history in which no such comment ever waits for a plan that has no approval, every code commit follows an approval, of the plan in force, by a comment told after that plan was recorded |
| Witnesses.ApprovalOvertaken | src/app.ts:118-126 | otherwise not: a state, reached without a death, in which a plan nobody had seen was approved by a waiting reply and the test set-up it announced was committed |
| HumanGate.CapsHold | src/worker/handlers.ts:987-1028 | over a run's whole life, whatever dies: at most four plan commits, one re-clarification, one recorded reminder, three guided rounds for each task, three counted fix rounds; fix commits between those rounds and those rounds plus the worker's deaths, and posted reminders between the recorded ones and those plus the sweep's deaths |
| HumanGate.FixCapHolds | src/worker/handlers.ts:1517-1576 | without a death over the run, its fix commits are the rounds counted, at most three |
| RunSafety.FixRoundCountedIff | src/worker/handlers.ts:1567-1576 | a fix that is not committed leaves nothing; one that is has its round counted exactly if the worker does not die at the count |
| Witnesses.FixWithoutItsRound | src/worker/handlers.ts:1567-1576 | a reachable state with more fix commits than counted rounds |
| HumanGate.TasksCloseInOrder | src/worker/handlers.ts:1169-1260 | done tasks form a prefix; at the help gate the recorded help is for the first open task; under review none is open |
| TaskLedger.CommitsArePaid | src/worker/handlers.ts:1238-1253 | for every set of task ids, the commits made for them are at most those of them that are done plus the worker's deaths over the run |
| TaskLedger.OneCommitEach | src/worker/handlers.ts:1238-1253 | each task is committed once at most, and once more at most for each of those deaths |
| TaskLedger.FinishedForGood | src/worker/handlers.ts:1137-1139 | once all tasks of a list that is not empty are done, no task is ever committed again, whatever plan is approved later |
| TaskHistory.ClosedTaskHasAccount | src/worker/handlers.ts:1223-1253 | over any history, with whatever throws and deaths, every closed task has in the history of its run a commit made for it or an attempt that found it satisfied |
| TaskHistory.PullRequestHasAccounts | src/worker/handlers.ts:1397-1412 | each pull request follows one of the two for every task recorded by then |
| HumanGate.BudgetHolds | src/llm/gateway.ts:73-125 | what a run spent is the sum of its recorded calls, all but the last sum to less than the budget, and if every call costs something there are no more calls than budget units |
| HumanGate.CountersNeverGoBack | src/worker/handlers.ts:1318-1337 | between any two states of the system the budget of a run stays, and no counter of it goes back, but for the help rounds of a task that was closed since |
| HumanGate.CeilingIsSetOnce | src/worker/handlers.ts:155-169 | the step that creates a run gives it its installation's ceiling on a subscription that has one, otherwise the deployment's, otherwise the default, which is also what a death right after the creation leaves |
| QueueSafety.ClaimsCounted | src/store/memory-store.ts:84-125 | in every reachable state attempts equal claims and exceed the cap by lease reclaims only; no unexpired lease was claimed again; every other claim waited out its backoff |
| QueueSafety.AttemptsCapped | src/store/memory-store.ts:110-125 | no job is attempted more than three times plus once for each death of the worker over a job of its issue, counted from the claim on, whether or not there is a run yet |
| Witnesses.AttemptsWithoutRun | src/worker/worker.ts:219-224 | for every number, a reachable state with a job attempted that often over an issue that has no run |
| QueueSafety.OverForever | src/store/memory-store.ts:100-125 | done and failed jobs never change again, and no job is lost, altered or un-attempted, under one worker that may die anywhere |
| QueueSafety.OneJobPerDelivery | src/app.ts:53-68 | a delivery id enqueues at most one job in the life of the system, however often it is redelivered |
| QueueSafety.RedeliveryIgnored | src/app.ts:101-107 | delivering the same webhook again changes nothing |
| QueueSafety.DeliveryEnqueues | src/app.ts:39-207 | a first delivery enqueues exactly the job it asks for: an opened issue always, a comment the job of the gate its run is parked at, a review a fix for a run under review, anything else nothing |
| QueueSafety.DeliveryIgnoredIff | src/app.ts:39-207 | a delivery changes nothing exactly if it came before, names no installation, is by a bot, is a review that asks for no change, or is on a branch that is not the product's |
| QueueSafety.CommentRoutedIff | src/app.ts:79-148 | a comment becomes the one reply job that has something to do for the run as it stands, and nothing where none has |
| QueueSafety.ReviewRoutedIff | src/app.ts:151-207 | a review of the product's branch for an issue becomes a fix exactly if that issue's run waits for a review |
| QueueSafety.DeliveryLandsIff | src/app.ts:53-75 | over any history a delivery not seen before enqueues its job, once, exactly if the first step that takes it up does not die over it and the delivery asks for a job in the state found then |
| QueueSafety.CrashLosesDelivery | src/app.ts:53-68 | a process that dies after marking a delivery and before enqueueing its job loses it: no redelivery ever enqueues it |
| WorldSafety.AlwaysSafe | src/worker/worker.ts:219-287 | every reachable state keeps the invariant of every run, every job and the queue, with the worker dying at any await from the claim on and the sweep after any comment |
| WorldSafety.ProcessJobSafe | src/worker/worker.ts:219-287 | one worker step keeps that invariant through retry, refusal, dead letter and death |
| WorldSafety.DeliverSafe | src/app.ts:39-207 | so does every webhook |
| WorldSafety.SweepSafe | src/worker/stale.ts:58-91 | so does the sweep |
| WorldFlow.DispatchFlow | src/worker/worker.ts:223-284 | a settled execution leaves its run the job it waits for |
| RunSafety.HandleSafe | src/worker/worker.ts:45-83 | every handler keeps its run's invariant wherever it is cut short |
| RunSafety.ProduceSpecSafe | src/worker/handlers.ts:218-358 | specifying keeps the invariant |
| RunSafety.StartPlanSafe | src/worker/handlers.ts:888-938 | planning keeps the caps: the plan is committed at most once more than it is revised, even when a worker dies between commit and count |
| RunSafety.TaskLoopSafe | src/worker/handlers.ts:1169-1260 | every turn of the task loop keeps tasks in order and the help for the first open one |
| RunSafety.ResumeImplementationSafe | src/worker/handlers.ts:1292-1340 | accepting guidance keeps the bound on guided rounds |
| RunSafety.FixSafe | src/worker/handlers.ts:1448-1592 | fixing keeps the fix cap, up to the one round a dying worker may not have counted |
| RunProgress.HandleProgress | src/worker/worker.ts:45-83 | what a handler enqueues may follow its job and may run; and its run's new need is served by what it enqueued, by its own retry, or by another job |
| RunProgress.IdleIsNotNeeded | src/worker/handlers.ts:434-443 | a handler declines only runs that do not wait for it |
| RunProgress.GuidanceUsesARound | src/worker/handlers.ts:1318-1337 | an accepted resume uses exactly one round of the first open task within the cap, and one that is not accepted uses none |
| Plan.DefinitionOfReady | src/pipeline/plan.ts:131-137 | ready exactly if no reason is given, and each reason exactly if its list is wrong |
| Plan.DecisionIff | src/pipeline/plan.ts:142-146 | a comment approves exactly if somewhere in it stands a slash, then the letters of approve in either case, then its end or a character that belongs to no word; it aborts exactly if it does not approve and the same holds for abort |
| Plan.NoCommand | src/pipeline/plan.ts:142-146 | a comment without a slash asks for changes, and so does /approve with more letters after it |
| Plan.ImplAbortIff | src/worker/handlers.ts:1311 | at the help gate a comment aborts exactly if the first thing in it but spaces is a slash and the letters of abort in either case, whatever follows |
| Text.TrimIs | src/web/setup-handlers.ts:158 | trimming takes away the spaces at both ends and nothing else |
| Retry.BackoffGrows | src/worker/retry.ts:25-29 | the first retry waits the base, later ones no less than earlier ones, and none more than the ceiling |
| Retry.BackoffDoubles | src/worker/retry.ts:25-29 | each attempt doubles the wait until the ceiling |
| JobQueue.NextClaimable | src/store/memory-store.ts:86-94 | nothing exactly if no job is claimable, otherwise the smallest claimable id |
| JobQueue.ClaimKeeps | src/store/memory-store.ts:84-98 | claiming keeps attempts equal to claims and claims apart by an expired lease or a backoff |
| JobQueue.RetryKeeps | src/store/memory-store.ts:110-125 | so does failing or retrying |
| JobQueue.LateRetryResurrects | src/store/memory-store.ts:100-125 | a second worker that lost its lease puts a finished job back in the queue exactly if attempts remain |
| MemoryStore.InMemoryStore.EnqueueJob | src/store/memory-store.ts:70-82 | adds a queued job under the next id |
| MemoryStore.InMemoryStore.ClaimNextJob | src/store/memory-store.ts:84-98 | claims the smallest claimable job, or changes nothing |
| MemoryStore.InMemoryStore.MarkJobDone | src/store/memory-store.ts:100-103 | finishes the job if it exists |
| MemoryStore.InMemoryStore.FailOrRetryJob | src/store/memory-store.ts:110-125 | buries the job exactly if its attempts are used up, otherwise requeues it after its backoff |
| MemoryStore.InMemoryStore.FindOrCreateRun | src/store/memory-store.ts:127-147 | one run for each issue, new ones in the initial state with the default budget |
| MemoryStore.InMemoryStore.UpdateRunState | src/store/memory-store.ts:149-155 | sets the state and the staleness clock of that run only |
| MemoryStore.InMemoryStore.UpdateRunContext | src/store/memory-store.ts:157-163 | sets the context and the staleness clock of that run only |
| MemoryStore.InMemoryStore.GetStaleRuns | src/store/memory-store.ts:188-193 | exactly the runs in the given states idle since before the given time, each once, in the order of their creation |
| MemoryStore.InMemoryStore.MarkRunPinged | src/store/memory-store.ts:195-199 | records the ping and leaves the staleness clock alone |
| MemoryStore.InMemoryStore.TryMarkEventProcessed | src/store/memory-store.ts:201-205 | true exactly for the first delivery of an id |
| MemoryStore.InMemoryStore.RecordLlmCall | src/store/memory-store.ts:217-225 | the call is recorded, its cost spent, and what remains returned |
| MemoryStore.InMemoryStore.RecordArtifact | src/store/memory-store.ts:242-255 | the run has that artifact, once |
| MemoryStore.InMemoryStore.RecordTask | src/store/memory-store.ts:262-274 | appends a pending task under the next id |
| MemoryStore.InMemoryStore.UpdateTask | src/store/memory-store.ts:283-290 | sets the status of that task only |
| Gateway.LlmGateway.Call | src/llm/gateway.ts:73-125 | refused exactly if the budget is used up, without asking the provider; an answer is charged and keeps the books; a refusal, an exception or an answer without a price changes nothing |
| Execution.Execution.AskModel | src/agents/runner.ts:85-116 | one agent call: an answer that does not parse has been paid for |
| Handlers.DoIssueOpened | src/worker/handlers.ts:151-199 | acknowledges once and hands on to specifying |
| Handlers.DoProduceSpec | src/worker/handlers.ts:218-358 | specifies, refuses an unsupported repository or a spent budget, and hands on to the clarification gate |
| Handlers.DoClarify | src/worker/handlers.ts:419-529 | passes, parks or bounces by the number of questions |
| Handlers.DoResumeClarification | src/worker/handlers.ts:539-636 | replaces the spec by the one re-emitted from the answers and hands on to planning |
| Handlers.RunArchitectAndCommit | src/worker/handlers.ts:758-829 | refuses a missing recipe before the model call, commits the plan, then records it |
| Handlers.DoProducePlan | src/worker/handlers.ts:839-939 | enforces the Definition of Ready, re-clarifies once, plans and parks |
| Handlers.DoResumePlanDecision | src/worker/handlers.ts:948-1051 | approves, aborts or revises within the cap |
| Handlers.DoImplement | src/worker/handlers.ts:1063-1283 | bootstraps, decomposes once, works through the tasks, and always closes the sandbox |
| Handlers.WorkOnTask | src/worker/handlers.ts:1169-1260 | one task: stops at a spent budget, parks a stalled task, closes a satisfied one, commits and closes a landed one |
| Handlers.DoResumeImplementation | src/worker/handlers.ts:1292-1340 | aborts, fails at the cap, or accepts guidance and re-enters implementation |
| Handlers.DoReview | src/worker/handlers.ts:1351-1436 | opens the pull request and parks for review |
| Handlers.DoFix | src/worker/handlers.ts:1448-1592 | asks back, routes a rework to the plan gate, or fixes within the cap |
| Handlers.DispatchJob | src/worker/worker.ts:45-83 | runs the handler of the job's type |
| Outcomes.HandleReturns | src/worker/handlers.ts:151-1592 | an execution of any handler that returns, whatever throws it swallowed on the way, leaves exactly the run, the history and the job that the fault-free reference of its answers gives |
| Outcomes.SpecificationReturns | src/worker/handlers.ts:218-358 | of specifying: refused for its repository or for a spent budget before or after the intake call, otherwise with the drafted spec committed, recorded, told and kept |
| Outcomes.ClarificationReturns | src/worker/handlers.ts:419-529 | of clarifying: on to planning without questions, parked with up to four, failed beyond |
| Outcomes.AnsweredReturns | src/worker/handlers.ts:539-636 | of an answered clarification: the new spec committed, told and kept in place of the old one |
| Outcomes.FirstPlanReturns | src/worker/handlers.ts:839-939 | of planning: a ready spec is planned or refused, one that is not goes back to clarification once, if it is open questions that remain, and fails otherwise |
| Outcomes.DecisionReturns | src/worker/handlers.ts:948-1051 | of a decision at the plan gate, read off the characters of the comment: approved, aborted, or planned anew within the cap |
| Outcomes.ImplementationReturns | src/worker/handlers.ts:1063-1283 | of implementing: the set-up, the decomposition and one attempt at each open task, in order, each landed one committed and each satisfied one noted before it is closed, until one parks or closes the run or all are done |
| Outcomes.GuidanceReturns | src/worker/handlers.ts:1292-1340 | of guidance: aborted, failed at the cap, or kept for the same task with its round counted |
| Outcomes.ReviewReturns | src/worker/handlers.ts:1351-1436 | of reviewing: the pull request opened over the tasks as they stand, then told |
| Outcomes.FixReturns | src/worker/handlers.ts:1448-1592 | of a fix: asked back, sent back, refused, or attempted and committed, each with its cost |
| Endings.HandleEnds | src/worker/handlers.ts:151-1592 | how every execution of any handler ends, read off the run, the answers and the faults alone: the first of its calls to go wrong ends it with its error, but for those whose failure is swallowed, and a spent budget ends where its refusal does |
| Endings.ImplementationEnds | src/worker/handlers.ts:1063-1283 | of implementing: set-up, decomposition and each attempt in turn, with the budget they leave; the sandbox is closed however that ends, unless the worker is dead |
| Endings.FixEnds | src/worker/handlers.ts:1448-1592 | of a fix: triage, sandbox, attempt, commit and count, with a spent budget refused only once the sandbox is closed |
| Undisturbed.HandleCompletes | src/worker/handlers.ts:151-1592 | where every call returns and every answer parses, the execution returns, and so leaves what the reference gives |
| SmoothSteps.StepCompletes | src/worker/worker.ts:219-287 | such a step of the worker finishes its job, leaves its run and the next job as the reference gives them, and touches nothing else |
| SmoothSteps.AnswersReplaceSpec | src/worker/handlers.ts:539-636 | whatever throws or dies in the step, a run that goes on to planning from an answered clarification has the spec re-emitted from the answers, whatever its spec was before, and is otherwise what it was |
| SmoothSteps.PlanningGoes | src/worker/handlers.ts:839-939 | a planning step in which nothing goes wrong ends at the plan gate, in clarification or failed, each exactly as spec, set-up and budget say |
| SmoothSteps.AnswersReachTheGate | src/worker/handlers.ts:539-939 | so over the two steps an answered clarification leads to the plan gate exactly if the re-emitted spec is ready |
| FixOutcomes.VagueAsksBack | src/worker/handlers.ts:1499-1503 | every execution on a vague comment, whatever it meets, moves money and posts one question at most; queue, context and tasks stay, and so does the state unless the budget is spent |
| FixOutcomes.SentBackIff | src/worker/handlers.ts:1505-1511 | the run leaves for the plan gate, with the same comment enqueued, exactly if triage asks for a rework and nothing goes wrong on the way |
| FixOutcomes.FixCommittedIff | src/worker/handlers.ts:1517-1576 | a fix is committed exactly if the comment is actionable, the attempt lands within cap and budget and nothing goes wrong up to the commit; nothing of the context but that round ever changes |
| Journey.IssueReachesPlanGate | src/worker/handlers.ts:151-939 | a new issue of a supported repository whose spec is ready and raises no question is carried to the plan gate if its four calls cost less than the budget, and spends exactly their cost |
| Journey.ApprovalReachesReview | src/worker/handlers.ts:948-1436 | an approved plan no task of which stalls is carried to a pull request over all its tasks, each closed, if what remains of the budget is more than the calls cost |
| Worker.JobWorker.AdmitJob | src/worker/handlers.ts:155-169 | creates the run once and sets its ceiling once |
| Worker.JobWorker.SettleJob | src/worker/worker.ts:223-284 | done, refused with the run closed, retried, or dead-lettered with the run closed |
| Worker.JobWorker.ProcessNextJob | src/worker/worker.ts:219-287 | one worker step of the state machine; false exactly if nothing was claimable |
| Worker.JobWorker.DrainQueue | src/worker/worker.ts:305-311 | the drain loop ends with nothing claimable, after at most as many jobs as the queue weighs |
| App.WebhookApp.OnIssueOpened | src/app.ts:39-75 | one delivery step for an opened issue |
| App.WebhookApp.OnInstallationDeleted | src/app.ts:21-36 | one delivery step without a job; the credential of that installation is forgotten exactly if the delivery is the first and its purge does not throw |
| App.WebhookApp.OnIssueComment | src/app.ts:79-148 | one delivery step: the reply goes to the gate the run is parked at |
| App.WebhookApp.OnReviewComment | src/app.ts:151-180 | one delivery step: a fix for the run whose branch it is |
| App.WebhookApp.OnReviewSubmitted | src/app.ts:183-207 | one delivery step: requested changes become a fix |
| Stale.ClosedIff | src/worker/stale.ts:62-89 | the sweep closes a run exactly if it waits at a gate and its week is over with the closing comment posted and recorded, or nobody found, or its first reminder found nobody |
| Stale.PingedIff | src/worker/stale.ts:68-71 | a run is pinged exactly once due and never before, and the ping does not count as activity |
| Stale.ReminderRecordedIff | src/worker/stale.ts:68-71 | a visit posts a reminder exactly if one is due and none was recorded, and records it exactly if the process does not die in between |
| Witnesses.RemindedTwice | src/worker/stale.ts:68-71 | a reachable state in which a run was reminded twice and one reminder is recorded |
| Stale.PingDelaysNothing | src/worker/stale.ts:58-91 | over any visits that find the issue, an earlier ping makes no difference to when a run is closed |
| Stale.PingHidesUnreachable | src/worker/stale.ts:72-88 | a ping changes the fate of a run exactly for an unreachable issue within its week |
| Stale.WeekCloses | src/worker/stale.ts:64-67 | the first visit after a week that neither fails nor is cut short leaves the run aborted, whatever came before |
| Stale.SweepStaleRuns | src/worker/stale.ts:58-91 | the loop is the pointwise map of each candidate's own transition, whatever the comments on others do, up to the one over which the process dies; younger ones are then left alone |
| Sandbox.CodeSandbox.WriteFiles | src/sandbox/code-sandbox.ts:163-171 | writes the files in order; when it breaks, some of them were written, the last of those possibly torn |
| Sandbox.CodeSandbox.ReadFiles | src/sandbox/code-sandbox.ts:179-187 | the existing files among the paths, in order |
| CodeSession.OpenCodeSandbox | src/sandbox/code-sandbox.ts:123-160 | opened exactly if clone and install succeed, torn down in every other case, and a failed clone's message does not hold a safe token |
| Tdd.AuthorTests | src/pipeline/tdd.ts:205-255 | red means the author's last files were written on those of all earlier replies, in order, without any implementation, and the suite then failed for the first time; not red means every attempt was used and no run failed; the suite is run after each reply that holds files, on everything written by then; it throws exactly if a sandbox call broke or a reply asked for was an exception |
| Tdd.Implement | src/pipeline/tdd.ts:257-307 | unless it throws, what is written is the files of all replies asked for, in order, the suite was run after each on everything written by then, and the touched paths grew by exactly theirs; green means the last run, and none before, passed on the tree as it stands; not green means every attempt was used and none passed; it throws exactly if a sandbox call broke or a reply asked for was an exception, and then the last reply may be written in part |
| Tdd.Refactor | src/pipeline/tdd.ts:309-341 | which sandbox call breaks, if any, and how the suite ends on the rewritten files decide the ending exactly, and the ending decides the tree, the runs and the changed paths: kept only on a pass, otherwise the snapshot restored, unless a call broke |
| Tdd.RunTaskTdd | src/pipeline/tdd.ts:159-344 | for any ladder of L steps: at most 2L+1 model calls and suite runs; the four outcomes exactly classified by the answers and the suite runs; what author and implementer wrote is their replies up to the last one asked for, in order; the refactor takes the green tree on as its calls and its reply say; the changed paths are those of tests, implementation and kept refactor; `done` means red without implementation, then green, with the tree, unless a refactor broke off, as a passing run saw it but for paths it wrote and did not keep; it throws exactly if a call or a reply before the refactor failed, or the refactor ran out of budget |
| Tdd.RefactorSoundIff | src/pipeline/tdd.ts:311-341 | of the endings a refactor can have once it has written, exactly those where no sandbox call broke leave at the touched paths, for every green tree and every answer, what a passing run saw |
| Tdd.RunUnsoundRefactor | src/pipeline/tdd.ts:311-341 | for each call that may break, an execution of the refactor that leaves a file no passing run saw |
| TaskCommits.WorkOnTask | src/worker/handlers.ts:1189-1253 | a task is skipped exactly if its attempt finds it satisfied, and lands exactly if its attempt goes from red to green and what it changed can be read back and committed; a landed task commits what stands in the sandbox at exactly the paths its attempt changed, the residue grows by what was written and not kept and shrinks by what was committed, and the commit changes no other path of the branch |
| TaskCommits.WorkOnTasks | src/worker/handlers.ts:1169-1260 | the run gets past all tasks exactly if it halts at none; sandbox and branch agree on every path outside the residue between any two tasks, and the tree a task commits, unless its refactor broke off, is one a passing run saw but for the residue |
| TaskCommits.CleanCommitSeen | src/worker/handlers.ts:1189-1253 | with an empty residue that tree is exactly one a passing run saw |
| TaskCommits.SetUp | src/worker/handlers.ts:1102-1134 | a set-up is committed exactly if there is a recipe, no call breaks, the install succeeds, the suite passes and the commit works; then, in whatever checkout, sandbox and branch differ at exactly the paths the install left different from the branch and the commit, of the recipe and what the install rewrites, did not take over |
| TaskCommits.ImplementInSandbox | src/worker/handlers.ts:1091-1270 | from the opening of the session on, which clones and installs: without a set-up the tasks start from exactly what that install left different from the branch, with one from exactly what the set-up's install did and its commit did not take over; it finishes exactly if neither the set-up nor any task stops it |
| Toolchain.FindFileIsFirst | src/toolchain/toolchain.ts:95-97 | the first file of that name anywhere, or none exactly if there is none |
| Toolchain.ManifestIsRootIff | src/toolchain/toolchain.ts:106-120 | the manifest looked into is the root one exactly if no other of that name is listed before it |
| Toolchain.NestedManifestWins | src/toolchain/toolchain.ts:95-97 | in a monorepo another one may be |
| Toolchain.DetectRunner | src/toolchain/toolchain.ts:179-201 | the early returns amount to the disjunction of the signals |
| Toolchain.RunnerIff | src/toolchain/toolchain.ts:88-201 | a runner is found exactly if a dedicated configuration is listed anywhere, or the first listed file of a shared name can be read and says so |
| Toolchain.VerdictIff | src/pipeline/test-setup.ts:63-88 | nothing is set up exactly if something shows a runner; otherwise the runner alone exactly if some listed file is a test, and an example with it exactly if none is |
| Toolchain.ConfigFiles | src/toolchain/toolchain.ts:207-244 | the recipe's files, then the merged manifest exactly if there is one that parses to something |
| Toolchain.MergeKeepsManifest | src/toolchain/toolchain.ts:231-239 | whatever the manifest parses to, the merge keeps every key a spread copies of it, and every script but test |
| Toolchain.MergedManifestHasRunner | src/toolchain/toolchain.ts:190-201 | the merged manifest counts as having a runner |
| Toolchain.RecipeIsAdditive | src/pipeline/test-setup.ts:63-88 | where a set-up is called for, no file of the recipe but the manifest is in the listing |
| Toolchain.RecipeIsIdempotent | src/pipeline/test-setup.ts:63-88 | once the recipe's files are listed, detection finds nothing to do for any reader |
| Toolchain.RunBootstrap | src/pipeline/bootstrap.ts:29-63 | nothing is tried exactly if the language pack has no recipe; otherwise which of the four sandbox calls breaks, whether the install succeeds and how the suite ends decide exactly between throwing, green and not green; what is written is the recipe over the manifest as it stands |
| Toolchain.RecipeWrites | src/pipeline/bootstrap.ts:41-47 | the recipe writes its own files and the manifest, and an example test exactly in a full set-up |
| Branch.BranchRoundTrip | src/github/integrator.ts:9-17 | parsing undoes printing for every number below 2^53 |
| Branch.ReadExactlyIff | src/github/integrator.ts:14-17 | of the branches named by a number in digits, exactly those are read as that number whose number has at most 53 significant bits and does not overflow |
| Branch.SpecBranchInjective | src/github/integrator.ts:9-11 | distinct issues have distinct branches |
| Branch.LargeNumbersCollide | src/github/integrator.ts:14-17 | at the bound two different branches are read as one issue |
| Redaction.NoTokenLeft | src/index/checkout.ts:22-24 | a token that neither begins nor ends with a star nor holds three in a row is nowhere in the redacted text |
| Redaction.CleanTextUnchanged | src/sandbox/code-sandbox.ts:89-91 | text without the token is returned as it is |
| Redaction.SplitJoin | src/index/checkout.ts:22-24 | nothing but the occurrences of the token is lost |
| Redaction.RemovedIff | src/index/checkout.ts:22-24 | exactly such tokens are removed from every text; every other one survives in some text |
| Pricing.PriceIsExact | src/llm/pricing.ts:21-34 | rounding never acts for the listed models |
| Pricing.PriceIsAdditive | src/llm/pricing.ts:21-34 | a call costs the sum of its parts |
| Pricing.UsageIsNeverFree | src/llm/pricing.ts:21-34 | any usage costs at least 100 nano-dollars, and none costs nothing |
| Cost.RollUpByRole | src/pipeline/cost.ts:13-26 | one row for each role with exactly its calls, tokens and cost, costliest first, summing to the run's totals |
| Cost.RollUpConserves | src/pipeline/cost.ts:13-26 | any rows of that shape lose no call, token or cost |
| Setup.WriteReadRoundTrip | src/llm/installation-auth.ts:20-48 | what is written is read back exactly if the secret is not empty, and no other installation notices |
| Setup.LabelWindow | src/llm/installation-auth.ts:36-48 | between the two writes the new secret reads back right exactly if the label does not change |
| Setup.SessionStore.ConsumeState | src/web/session-store.ts:46-52 | a state is gone once consumed, and counts only until it expires |
| Setup.SessionStore.GetSession | src/web/session-store.ts:66-74 | a session counts only until it expires |
| Setup.OneSessionPerState | src/web/session-store.ts:39-63 | a state minted once yields one session at most |
| Setup.SetupPages.HandleSetupStart | src/web/setup-handlers.ts:52-65 | a state is minted exactly if the link names an installation |
| Setup.SetupPages.HandleCallback | src/web/setup-handlers.ts:71-107 | however long GitHub takes, a session is opened exactly for a state that counted when the visitor came back and whose installation he manages, and counts from its opening; the state is used up either way |
| Setup.SetupPages.HandleKeySubmit | src/web/setup-handlers.ts:122-188 | a credential is stored exactly if every check passes, trimmed and labelled, and otherwise nothing changes; its session counts when the form arrives, and still does at the write exactly if the validator took no longer than it had left |
| Setup.SetupPages.Purge | src/store/memory-store.ts:330-332 | uninstalling forgets that credential and no other |
| Setup.CredentialEarned | src/web/setup-handlers.ts:71-188 | every credential on file came with a form that arrived under an unexpired session that verified its installation, opened for a state that counted when the visitor came back, right after the validator accepted that trimmed secret for that label |
| Setup.RunLateSubmit | src/web/setup-handlers.ts:122-188 | an execution that stores a credential under a session that has expired by then |

## Left out

- The database store: SQL, migrations, transactions. It differs from the store modelled here in the order of claims (src/store/pg-store.ts:137) and in what counts as activity (src/store/pg-store.ts:207-208).
- Two live workers, and sweeps inside a running handler: the code has no fence for either.
- The providers, validators, OAuth and GitHub clients, the sandbox provider and the code index: whatever they answer or throw is a parameter.
- Comments, prompts, rendered documents, configuration texts and shell commands: only that they are posted, sent or run.
- `run_tests` jobs and the debug scripts, which create and fail runs outside the pipeline.
- Encryption at rest: an inverse pair.
- The rows of tasks, calls and artifacts stand with the run they belong to instead of in store-wide arrays filtered by run id, so a row of a run that does not exist is dropped here; the contents of artifacts are not modelled.
- MemoryStore.InMemoryStore.RecordLlmCall: keeps the cost of a call only, because no rule here reads its model or its tokens; `Cost` has them.
- MemoryStore.InMemoryStore.RecordArtifact: does not keep the content, because only its presence decides what a handler does.
- MemoryStore.InMemoryStore.RecordTask: keeps the id and the status of a task, because its texts only reach prompts.
- MemoryStore.InMemoryStore.UpdateTask: sets the status only and addresses the task by its position, because no handler updates anything else.
- Gateway.LlmGateway.Call: takes the model as resolved from its tier, because every role names one.
- PlanGate.CodeFollowsPlan: is not stated backwards, because whether an approved plan goes on to a commit also depends on its budget and its tasks; of the approval itself `PlanGate.ApprovedUnseenIff` says both directions.
- Undisturbed.HandleCompletes: goes one way, because an execution may also return after a throw that its handler swallows; `Endings.HandleEnds` says exactly which do.
- Journey.IssueReachesPlanGate: gives conditions that suffice; an issue that raises questions gets there by way of `SmoothSteps.AnswersReachTheGate`.
- Journey.ApprovalReachesReview: gives conditions that suffice; a plan may also get there after a task has stalled and a human has helped.
- Handlers.WorkOnTask: takes the attempt at one task as the calls it pays for, any outcome, and any exception; `Tdd` models the attempt itself.
- Handlers.DoImplement: takes each attempt likewise.
- Handlers.DoFix: takes its attempt likewise.
- Toolchain.DetectRunner: whitespace and letter case are those of ASCII, as in every text rule here.
- Branch.SpecBranch: prints a number in full, which JavaScript does up to 2^53; no issue tracker numbers further.
- Branch.ReadExactlyIff: takes a long number as the nearest one that JavaScript holds, which ECMAScript (section 7.1.4.1 of ECMA-262, StringToNumber) leaves open after the twentieth digit.
- Which language pack a run gets, and whether its repository is supported: a parameter of specifying.
- Exceptions carry no message here; only their kind decides what follows.
