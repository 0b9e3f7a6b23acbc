# EngLoop core, verified

EngLoop runs coding agents through a bounded plan, implement, check, review and fix loop. This
project models the parts of it that hold real algorithms and protocols and proves, for every
input, every run and every interleaving, what those parts are relied on for.

| file | part of the system |
|---|---|
| `Wrappers.dfy`, `Graphs.dfy`, `Statuses.dfy` | optional values, finite graphs and walks, status enumerations |
| `PlanDependencies.dfy` | the planner's reference checks and topological pass |
| `PhaseDependencies.dfy`, `GraphVerdicts.dfy` | the depth-first search over project phases, and its agreement with the planner's pass |
| `StateMachines.dfy`, `TaskMachine.dfy` | the breadth-first shortest path, and the task life cycle |
| `EngineeringRouter.dfy`, `RoutingTable.dfy` | the routing decision as the router takes it, and as a table without order |
| `WorkflowEngine.dfy`, `EngineLoop.dfy`, `EngineDelivery.dfy` | the engine that claims, runs and stores steps, where results lead, and how runs end |
| `EngineClaims.dfy`, `EngineSafety.dfy`, `EngineReviews.dfy`, `EngineBudget.dfy` | what every run of the engine keeps, and how long it can be |
| `EngineEndings.dfy`, `EngineStaleness.dfy`, `EngineWorktree.dfy` | what holds when a run ends, decisions that are committed late, and edits that no stored result mentions |
| `EngineLimits.dfy`, `EngineScenarios.dfy` | which steps the limits stop, and concrete runs that reach the states the theorems speak of |
| `TaskStore.dfy`, `TaskTransitions.dfy` | the tables, and the transition, cancellation and completion transactions on them |
| `TaskProtocol.dfy`, `TaskHistory.dfy`, `AgentLife.dfy`, `QuietTasks.dfy`, `ProtocolOutcomes.dfy` | all writers of tasks, runs and agent runs interleaved |
| `ContainerSessions.dfy`, `ContainerSafety.dfy`, `ContainerLife.dfy`, `ContainerRuntime.dfy` | the container session life cycle with its awaits |
| `PlanMaterializer.dfy` | a checked plan becoming tasks and dependency rows |
| `PromptTemplates.dfy` | finding, checking and filling prompt placeholders |
| `CheckRun.dfy`, `Cost.dfy`, `CredentialCache.dfy` | the check run, cost rounding, the cache of decrypted keys |

`dafny verify dfyconfig.toml` checks everything.

## How the system is modelled

Algorithms that update variables are methods with loops over arrays, sequences and sets, and objects
whose methods update their fields are classes. Code that runs concurrently is a state machine over
values: one database transaction, one guarded update, or one stretch of code between two awaits is
one step, and a run is any finite sequence of steps. The classes beside these machines carry the
same step functions in their contracts, so a statement about the machine is a statement about them.

- Workflow engine. Loading a run, deciding and claiming a step are one step: the claim compares the
  run's status, current step and update time with what was loaded, so it fails if anything relevant
  changed. A run loaded while PENDING re-reads its update time after it was started
  (`workflow-engine.ts:241-253`); if another worker ran a step in between, its rows make the claim
  fail on the unique pair of run and sequence number (`packages/db/prisma/schema.prisma:1133`).
  Ending a run is two steps, the decision and its commit: the commit only asks whether the run is
  still claimable, so any results may be stored in between. Step handlers report any outcome their
  code allows. Workers may crash, results and commits may come late or never, leases may expire, and
  settings may change between steps.
- Task protocol. Transactions that hold the task row lock are atomic. A walk to a target makes each
  hop a step of its own, because it holds no lock. The engine hands an agent execution its own run
  and a step of that run.
- Container runtime. A run id names one session for good, as agent run ids are database keys. An await
  on something already settled lets no input or output complete, so it is not an interleaving point.
- Costs are exact reals in place of floating point numbers.

## Where the code and its documentation or promises differ

- `docs/workflow-engine.md` lists the attempts of each step among the counters that bound the loop. FIX,
  REVIEW and FINAL_REVIEW start a fresh row each time, so their attempt counter never passes one and
  their limit of two never applies: a failing one is asked for again until the cap of sixty step
  executions stops the run. These three are the only steps without a working limit
  (`EngineLimits.AttemptLimitHoldsExactlyWhen`). The bound that is linear in the attempt and review
  budgets therefore counts their failures separately (`EngineBudget.ResultsArePaidFor`).
- PLAN and CREATE_TASKS require LEVEL_1_PLAN but are also routed to at LEVEL_0_OBSERVE: once the
  analysis is done, every step decided at LEVEL_0 is below its level, and no other ever is
  (`EngineSafety.DecidedStepIsPermittedExactlyWhen`).
- A worker that stalls between deciding that a budget is spent, or that no review is left, and
  committing it can hand the task to a person while the code has changed since its last check. This
  happens if and only if a FIX is under way at the decision, or budgets raised before the commit leave
  room for one, at once or after a UI check or review that finds something
  (`EngineStaleness.EscalationCanGoStaleExactlyWhen`); both kinds are reached
  (`EngineScenarios.FailedChecksAreReached`, `EngineScenarios.UnreviewedCodeIsReached`). A completed
  run is never affected (`EngineEndings.CompletionIsEarned`).
- Only a FIX that succeeded sets the flag that its code is to be checked. One whose agent edited the
  worktree and then failed, crashed or lost its claim leaves the flag alone
  (`apps/worker/src/workflow/steps/implement.ts:86-113`). No review, documentation, pull request or
  completion ever follows such edits unchecked (`EngineWorktree.NothingTrustsATouchedWorktree`), but
  a UI check and an escalation for a spent budget can (`EngineScenarios.UiCheckSeesFailedFix`,
  `EngineScenarios.FailedFixIsHandedOver`).
- `docs/task-state-machine.md` names two writers of a task's status and says that TESTING to COMPLETED is
  rejected. It is as a single move; a terminal decision walks there over REVIEWING and APPROVED, and the
  API's cancellation is a further writer. A merged task can only be completed: it cannot be failed,
  cancelled or sent to a person (`TaskMachine.ReachabilityIsExact`).
- A command sent to a run while its container is still being created can leave that container behind.
  Nothing in the runtime refuses such a command; its caller waits for the preparation. Only the
  promise that the container is gone from Docker depends on this: it holds when every command waits
  for the creation (`ContainerSafety.SessionsLeaveClean`) and can fail whenever one does not
  (`ContainerSafety.ImpatienceCanLeak`). All other guarantees hold for every run.
- Invalidating a cached key does not reach a resolution that has already read its row: the old key is
  cached afterwards for a full time to live. This is the only way an old key comes back
  (`CredentialCache.InvalidationIsExact`).
- A check run with an empty list passes even when the worktree is missing (`CheckRun.PassingIsExact`).

## Model

| member | source | states |
|---|---|---|
| PlanDependencies.CheckReferences | packages/schemas/src/agent-contracts.ts:236-254 | exactly the edges that are out of range, self-referring or repeated earn an issue, with the message of the first test that applies, once each |
| PlanDependencies.NoIssuesMeansValid | packages/schemas/src/agent-contracts.ts:235-255 | no issue if and only if every reference is in range, foreign and unique |
| PlanDependencies.Transpose | packages/schemas/src/agent-contracts.ts:259-262 | the dependents lists are the dependency relation turned around, each edge once |
| PlanDependencies.InitialQueue | packages/schemas/src/agent-contracts.ts:258-263 | the counters start at the number of dependencies and the queue at exactly the tasks with none |
| PlanDependencies.ServeDependents | packages/schemas/src/agent-contracts.ts:265-269 | serving a queued task keeps every counter equal to the number of unmet dependencies and queues a task exactly when its last one is met |
| PlanDependencies.TopologicalPass | packages/schemas/src/agent-contracts.ts:258-270 | the queue lists tasks once, each after all its dependencies, and every task left out waits for another one left out |
| PlanDependencies.CompleteOrderIsAcyclic | packages/schemas/src/agent-contracts.ts:271-277 | a full-length queue proves the dependency graph has no cycle |
| PlanDependencies.LeftoversHoldCycle | packages/schemas/src/agent-contracts.ts:271-277 | the tasks missing from a shorter queue contain a real cycle among themselves |
| PlanDependencies.CheckPlan | packages/schemas/src/agent-contracts.ts:235-277 | a plan passes if and only if its references are valid and its graph is acyclic; the cycle issue appears exactly for valid references with a cycle |
| PhaseDependencies.CycleSearch.Visit | packages/workflow/src/phase-dependencies.ts:27-35 | the recursion answers true exactly when a cycle is reachable from the node, restores the active set otherwise, and terminates because unvisited nodes shrink |
| PhaseDependencies.CycleSearch.Some | packages/workflow/src/phase-dependencies.ts:36 | the search over the list answers true exactly when a cycle is reachable from a listed phase |
| PhaseDependencies.ValidatePhaseDependencies | packages/workflow/src/phase-dependencies.ts:7-37 | DUPLICATE, SELF and FOREIGN in that order for exactly their conditions, then CYCLE exactly when the replaced graph has a cycle reachable from a listed phase |
| PhaseDependencies.ListedPhasesSeeEveryCycle | packages/workflow/src/phase-dependencies.ts:17-36 | with all edges among known phases, no cycle of the replaced graph escapes the search |
| PhaseDependencies.ClosesCycleIffDependencyReachesPhase | packages/workflow/src/phase-dependencies.ts:17-36 | on an acyclic graph a replacement is refused exactly when one of the new dependencies already reaches the phase |
| PhaseDependencies.RequestIsAppliedExactlyWhen | apps/api/src/modules/projects/project-phase-dependencies.service.ts:28-55 | on an acyclic graph a request is applied if and only if it names known phases, each once, none of them the phase or one that already reaches it; then the phase has exactly these dependencies and every other row stays |
| PhaseDependencies.RequestsKeepDag | apps/api/src/modules/projects/project-phase-dependencies.service.ts:32-55 | any sequence of replacement requests, accepted or refused, keeps the stored graph a DAG over the project's phases |
| GraphVerdicts.KahnAndSearchAgree | packages/schemas/src/agent-contracts.ts:258-277 | on the same graph the topological pass and the depth-first search always give the same verdict, and it is right |
| StateMachines.ExpandTrail | packages/workflow/src/state-machine.ts:71-79 | looking at the moves of one state keeps the queue sorted by length, its trails shortest and everything seen covered, and a hit is a shortest chain |
| StateMachines.Path | packages/workflow/src/state-machine.ts:62-82 | null exactly when the target is unreachable, otherwise a legal repetition-free chain that no legal chain beats in length |
| StateMachines.ShortestIsDistinct | packages/workflow/src/state-machine.ts:62-82 | a shortest legal chain visits no state twice |
| TaskMachine.OnlyTerminalStatusesAreDeadEnds | packages/workflow/src/task-state-machine.ts:9-35 | the statuses without a way out are exactly COMPLETED and CANCELLED |
| TaskMachine.ReachabilityIsExact | packages/workflow/src/task-state-machine.ts:13-34 | exactly which statuses are reachable from which: all from all, except out of COMPLETED and CANCELLED, and from MERGED only COMPLETED |
| TaskMachine.MovesReadBackwards | packages/workflow/src/task-state-machine.ts:13-34 | the same table by target: from where a task can come to each status in one move |
| TaskMachine.PromisedMoves | packages/workflow/test/task-state-machine.spec.ts:13-91 | the whole way from BACKLOG to COMPLETED and the fix loops are legal, stuck statuses can go to a person, and TESTING to COMPLETED is no single move |
| TaskMachine.ReviewCannotBeBypassed | packages/workflow/src/task-state-machine.ts:13-34 | every legal walk into APPROVED, a pull request, MERGED or COMPLETED passes through REVIEWING or a person |
| EngineeringRouter.FailureVerdict | packages/workflow/src/engineering-workflow.ts:198-213 | routing goes on exactly when only optional steps failed for good; otherwise the first required one decides: COMPLETE sends the run to a person, any other fails it |
| RoutingTable.DecisionIsTheOnlyFit | packages/workflow/src/engineering-workflow.ts:192-335 | for every state exactly one line of an order-free table of conditions fits, and it is the router's decision |
| RoutingTable.EnabledStepsAreNotSkipped | packages/workflow/src/engineering-workflow.ts:255-335 | reviews, documentation, pull request and completion are only decided on when each enabled step before them is completed or given up |
| RoutingTable.LevelsAreMet | packages/workflow/src/engineering-workflow.ts:20-170 | which permission levels meet the requirement of each step |
| WorkflowEngine.CompletedSteps | apps/worker/src/workflow/state.ts:61-73 | the router is told exactly the keys that have a succeeded or skipped row |
| WorkflowEngine.FailedSteps | apps/worker/src/workflow/state.ts:67-74 | the router is told exactly the keys that have a failed row with no attempt left |
| EngineClaims.RunKeepsClaims | apps/worker/src/workflow/workflow-engine.ts:346-420 | over every run claims carry strictly growing tokens, one row runs at a time, the newest claim holds it, and attempts count claims |
| EngineClaims.ExecutionsAreCapped | apps/worker/src/workflow/state.ts:91-115 | no run ever starts more than sixty step executions |
| EngineClaims.OnlyNewestClaimWrites | apps/worker/src/workflow/workflow-engine.ts:485-539 | a stored result comes from the newest claim, is computed from the state that claim was decided on, and no execution stores two |
| EngineClaims.LostClaimStaysLost | apps/worker/src/workflow/workflow-engine.ts:485-548 | an execution whose claim was taken over or given back never stores a result again |
| EngineSafety.DecisionIsJustified | packages/workflow/src/engineering-workflow.ts:215-335 | a decided step has its predecessors done, is not finished or given up, is switched on, has verified code, approval, budget and permission where it needs them, and is the final review exactly in the last cycle; that no enabled step is skipped is `RoutingTable.EnabledStepsAreNotSkipped` |
| EngineLoop.StepIsClaimedExactlyWhen | apps/worker/src/workflow/workflow-engine.ts:346-420 | in every reachable engine a worker gets to execute the decided step if and only if the task was not cancelled and the run is pending, or running with no step under way, or with this one under an expired lease; its claim is then the running row |
| EngineLoop.ReportsComeFrom | apps/worker/src/workflow/steps/index.ts:11-26 | which handlers can end with which report: only IMPLEMENT and FIX change code, only a worktree, a UI check, an analysis, a documentation or a pull request can be skipped, every step can fail |
| EngineLoop.ResultIsStoredExactlyWhen | apps/worker/src/workflow/workflow-engine.ts:482-543 | a result is stored if and only if the task is not cancelled, the run still works on that step and the row still carries that claim; it settles its own row only, and a failed step stays open until its one, two or three attempts are used up |
| EngineLoop.ResultsLeadOn | apps/worker/src/workflow/workflow-engine.ts:485-539 | where a stored result leads: changed code to a RETEST; failed checks, refused reviews and blocking findings to a FIX or, without budget, to a person; passing checks after a change to a review; an approval to delivery |
| EngineDelivery.CommitGivesStatus | apps/worker/src/workflow/workflow-engine.ts:255-332 | committing a decision ends an open run SUCCEEDED, FAILED, WAITING_FOR_HUMAN or CANCELLED if and only if the decision was to complete, fail, wait or cancel |
| EngineDelivery.NoEnabledStepIsSkipped | apps/worker/src/workflow/workflow-engine.ts:256-279 | a run that is SUCCEEDED has UI check and documentation completed or given up if they were on throughout, and the pull request if it was asked for |
| EngineDelivery.EndedRunIsFrozen | apps/worker/src/services/task-transitions.ts:46-60 | a run that is SUCCEEDED, FAILED or CANCELLED is never changed by any continuation |
| EngineDelivery.HandedOverRunRests | apps/worker/src/workflow/workflow-engine.ts:381-390 | a run handed to a person starts no step and stores no result any more |
| EngineSafety.RunIsSafe | apps/worker/src/workflow/workflow-engine.ts:75-560 | the invariant of the loop holds after every run of the engine |
| EngineSafety.NothingFollowsUnverifiedCode | packages/workflow/src/engineering-workflow.ts:264-335 | at its decision no UI check, review, documentation, pull request, completion or budget escalation follows a stored code change that has not been checked |
| EngineWorktree.NothingTrustsATouchedWorktree | packages/workflow/src/engineering-workflow.ts:264-335 | no review, documentation, pull request, completion or end of the review budget is decided on while any execution of FIX or IMPLEMENT, stored, failed or lost, may have left edits that were not checked since |
| EngineWorktree.UnverifiedIsTouched | apps/worker/src/workflow/steps/implement.ts:60-125 | a stored unchecked code change is such an edit, so the last row covers more than stored changes |
| EngineSafety.EveryFixIsRetestedBeforeTheNext | packages/workflow/src/engineering-workflow.ts:264-284 | a RETEST lies between any two FIX results of a run that changed the code |
| EngineEndings.ApprovalIsFinal | packages/workflow/src/engineering-workflow.ts:264-300 | once a review has approved the code, no continuation changes it, withdraws the approval or leaves the code unchecked |
| EngineEndings.CompletionIsEarned | apps/worker/src/workflow/workflow-engine.ts:256-279 | a run that is SUCCEEDED has passed tests, approval, verified code, every pipeline step done and only optional steps given up, however late its completion was committed; `EngineScenarios.SuccessIsReached` shows that runs succeed |
| EngineEndings.FinishedWorkStaysVerified | apps/worker/src/workflow/workflow-engine.ts:256-325 | a decision to complete, or to wait because pull requests are not allowed, finds checked and approved code whenever it is committed |
| EngineEndings.EscalationIsStaleExactlyWhen | apps/worker/src/services/task-transitions.ts:46-60 | a budget escalation commits on unchecked code if and only if a code change was stored, and not checked, after its decision |
| EngineStaleness.EscalationWithinBudgetsIsVerified | apps/worker/src/services/task-transitions.ts:46-60 | without a FIX under way at the decision and larger budgets afterwards, a budget escalation commits on checked code |
| EngineStaleness.EscalationCanGoStaleExactlyWhen | apps/worker/src/services/task-transitions.ts:46-60 | the commit of either budget escalation can end the run on unchecked code if and only if a FIX is under way at the decision, or the attempts, review cycles and executions left to later workers allow one: at once where checks failed or findings are open, else after a UI check or a review with findings |
| EngineStaleness.SteadyBudgetsKeepEscalationsVerified | apps/worker/src/services/task-transitions.ts:46-60 | while both budgets stay the same, every budget escalation commits on checked code |
| EngineSafety.PipelineOrder | packages/workflow/src/engineering-workflow.ts:215-244 | every row that exists had all its pipeline predecessors completed |
| EngineSafety.PermissionsHold | packages/workflow/src/engineering-workflow.ts:226-328 | below LEVEL_2_CODE nothing past CREATE_TASKS is ever claimed, PREPARE_PR never below LEVEL_3_PR, every other step meets its level |
| EngineSafety.DecidedStepIsPermittedExactlyWhen | packages/workflow/src/engineering-workflow.ts:219-224 | a decided step meets its required level if and only if the level is above LEVEL_0 or the analysis is still to be done |
| EngineSafety.PlanningRunsBelowItsLevel | packages/workflow/src/engineering-workflow.ts:219-224 | both PLAN and CREATE_TASKS are decided on at LEVEL_0 |
| EngineReviews.NothingIsReviewedAfterTheFinalReview | packages/workflow/src/engineering-workflow.ts:286-300 | while the review budget stays the same, no review is stored after a final review |
| EngineBudget.RunIsBudgeted | packages/workflow/src/engineering-workflow.ts:274-300 | the attempt and review counters are exactly the code changes and reviews in the history and stay within the largest budgets ever configured |
| EngineBudget.ResultsArePaidFor | packages/workflow/src/engineering-workflow.ts:255-328 | a run stores at most 17 + 2(A - 1) + R results besides failures of cycle steps, for attempt budget A and review budget R |
| EngineBudget.CapOnlyStopsRunawayLoops | apps/worker/src/workflow/state.ts:98-115 | the cap of sixty fires only when failures of cycle steps and lost executions make up the rest of the sixty |
| EngineLimits.AttemptLimitHoldsExactlyWhen | apps/worker/src/workflow/workflow-engine.ts:362-405 | from every reachable engine, a decided step that keeps failing is given up, within its own number of attempts, if and only if it is not FIX, REVIEW or FINAL_REVIEW |
| EngineLimits.FailingCycleStepNeverGivesUp | apps/worker/src/workflow/state.ts:91-115 | after any number of failures of FIX, REVIEW or FINAL_REVIEW the router asks for the same step, until the cap |
| EngineLimits.GuardIsNeeded | packages/workflow/src/engineering-workflow.ts:255-328 | without its failed-step guard a given up UI_QA, DOCUMENT or PREPARE_PR would be asked for again after any number of failures; with it, never |
| EngineScenarios.UnreviewedCodeIsReached | packages/workflow/src/engineering-workflow.ts:286-300 | a concrete run reaches a decision that no review is left, which can go stale |
| EngineScenarios.FailedFixIsHandedOver | packages/workflow/src/engineering-workflow.ts:274-284 | a concrete run is handed over for a spent budget with the unchecked edits of a failed FIX |
| EngineScenarios.UiCheckSeesFailedFix | packages/workflow/src/engineering-workflow.ts:255-262 | a concrete run starts a UI check on the unchecked edits of a failed FIX |
| EngineScenarios.FailedChecksAreReached | packages/workflow/src/engineering-workflow.ts:264-284 | a concrete run reaches a FIX without a working limit, and a spent budget that can go stale |
| EngineScenarios.GuardsAreReached | packages/workflow/src/engineering-workflow.ts:255-328 | a concrete run gives up all three optional steps, each of which only its guard holds back |
| EngineScenarios.SuccessIsReached | apps/worker/src/workflow/workflow-engine.ts:256-279 | a concrete run from the start in which every step succeeds is SUCCEEDED |
| TaskTransitions.Store.WalkHops | apps/worker/src/services/task-transitions.ts:139-157 | undisturbed, the guarded hops all succeed and append exactly the path to the task's history |
| TaskTransitions.Store.FinishWorkflow | apps/worker/src/services/task-transitions.ts:26-160 | true exactly when the task exists, the run is an open run of it and its project, and the target is reachable; then the run, its rivals, their steps, the agents and the task hold exactly the new values; the other three outcomes have their exact conditions too and change nothing |
| TaskTransitions.FinishLeavesNothingRunning | apps/worker/src/services/task-transitions.ts:46-116 | after a commit the task is at the target, no other run of it and its project is open, no agent run of it or of a rival run is alive, no step of a rival run is running, and rows only change to cancelled |
| TaskTransitions.FinishTouchesNothingElse | apps/worker/src/services/task-transitions.ts:46-116 | a commit leaves other tasks, foreign or finished runs, foreign steps, unattached agent runs and all outputs unchanged |
| TaskTransitions.Store.To | apps/worker/src/services/task-transitions.ts:179-262 | undisturbed, a walk reaches every reachable target by a shortest chain and otherwise changes nothing |
| TaskTransitions.Store.CancelWithWorkflows | apps/api/src/modules/tasks/task-transition.service.ts:47-170 | the API's cancellation is refused exactly for a COMPLETED or MERGED task or a demanded run that is not open, of this task and its project; otherwise it happens wholly, and the demanded run is cancelled afterwards |
| TaskTransitions.CancellationLeavesNothingRunning | apps/api/src/modules/tasks/task-transition.service.ts:66-160 | afterwards the task is cancelled, exactly its active runs are, none of their steps runs and no agent run that belongs to it and its project is alive |
| TaskTransitions.CancellationTouchesNothingElse | apps/api/src/modules/tasks/task-transition.service.ts:70-160 | other tasks, finished and foreign runs, foreign steps, agent runs with an owner in another project and all outputs are unchanged |
| TaskTransitions.Store.CompleteAgentRun | apps/worker/src/services/agent-executor.ts:545-593 | a completion claims exactly when the agent run is RUNNING and neither its task nor its run is cancelled, and then stores exactly the status and output; a cancelled parent leaves the row cancelled, a second completion claims nothing, and no other row changes |
| TaskHistory.RunKeepsSoundTasks | apps/worker/src/services/task-transitions.ts:139-261 | every writer in every interleaving only appends legal moves to a task's history |
| TaskHistory.StatusTakesALegalWalk | apps/worker/src/services/task-transitions.ts:139-261 | the values a task's status takes form a legal walk of the task machine |
| TaskHistory.TerminalStatusIsNeverLeft | packages/workflow/src/task-state-machine.ts:12-34 | a COMPLETED or CANCELLED task is never written again by any interleaving |
| TaskHistory.ArrivalIsEarned | apps/worker/src/services/task-transitions.ts:195-261 | a walk that returns found the target set or made every hop of its path itself, in order, each standing in the history in its own hand |
| TaskHistory.OnlyOthersDisturb | apps/worker/src/services/task-transitions.ts:230-244 | a walk fails half way only because somebody else wrote the task right after its last look |
| TaskHistory.UndisturbedHopSucceeds | apps/worker/src/services/task-transitions.ts:219-261 | without a competing write the next hop succeeds and the last one arrives |
| AgentLife.FinishedRunStaysFinished | apps/worker/src/services/task-transitions.ts:46-60 | a run outside PENDING, RUNNING and WAITING_FOR_HUMAN is never claimed, cancelled or reopened |
| AgentLife.FinishedAgentIsFrozen | apps/worker/src/services/agent-executor.ts:548-593 | an agent run that has left PENDING and RUNNING never changes again, so it leaves RUNNING at most once |
| AgentLife.OutputIsEarned | apps/worker/src/services/agent-executor.ts:548-593 | output is only written by the one completion that claimed the run, which saw it RUNNING under parents that were not cancelled, and the row still shows it |
| AgentLife.UsageIsRecordedOnce | apps/worker/src/services/agent-executor.ts:595-636 | usage is recorded at most once per agent run and only after its completion was claimed |
| AgentLife.CancelledParentStays | apps/worker/src/services/agent-executor.ts:283-314 | what a poll or completion reads as a cancelled parent stays cancelled, so acting on an old read is safe |
| AgentLife.LateResultsAreLost | apps/worker/src/services/agent-executor.ts:545-593 | once the task or workflow is cancelled, an unclaimed agent run never gains a claim and its output never changes |
| ProtocolOutcomes.LiveResultLands | apps/worker/src/services/agent-executor.ts:548-636 | a result that comes back to a working execution under live parents is claimed: the row shows exactly its status and output and its usage can be recorded |
| ProtocolOutcomes.LateResultIsCancelled | apps/worker/src/services/agent-executor.ts:558-571 | one that comes back under a cancelled parent leaves the row cancelled, without output, claim or usage |
| ProtocolOutcomes.CreationIsDecided | apps/worker/src/services/agent-executor.ts:170-266 | an execution is let in if and only if neither parent is cancelled and the budget is not spent; otherwise it is recorded CANCELLED or BUDGET_EXCEEDED, in that order |
| ProtocolOutcomes.PollStops | apps/worker/src/services/agent-executor.ts:283-314 | a poll that saw a cancelled parent stops an execution that is still at work |
| ProtocolOutcomes.RunIsStartedExactlyWhen | apps/api/src/modules/tasks/tasks.service.ts:550-626 | a workflow is started if and only if the task exists, is not COMPLETED or CANCELLED and, unless forced, has attempts left and no pending or running workflow |
| ProtocolOutcomes.DecisionHappensExactlyWhen | apps/worker/src/services/task-transitions.ts:46-160 | among all other writers a terminal decision happens, wholly, exactly while its run is open and the target can be reached, and else changes nothing |
| ProtocolOutcomes.CancellationHappensExactlyWhen | apps/api/src/modules/tasks/task-transition.service.ts:66-100 | the API's cancellation does exactly for a task that is neither COMPLETED nor MERGED and a demanded run that is open |
| ProtocolOutcomes.WalkBegins | apps/worker/src/services/task-transitions.ts:195-229 | a walk at its target only confirms it, one without a way fails, any other starts |
| ProtocolOutcomes.UndisturbedWalkArrives | apps/worker/src/services/task-transitions.ts:219-261 | left alone a walk makes every hop and arrives, with exactly its path behind the task |
| QuietTasks.CancellationQuiets | apps/api/src/modules/tasks/task-transition.service.ts:66-160 | the API's cancellation leaves no active run of the task and no living agent run of it |
| QuietTasks.CancelledTaskStaysQuiet | apps/worker/src/services/agent-executor.ts:216-255 | and no interleaving ever shows one again: late creations are recorded dead |
| QuietTasks.FinishingSettles | apps/worker/src/services/task-transitions.ts:46-96 | a terminal decision with a terminal target leaves no active run of the task |
| QuietTasks.SettledTaskStaysSettled | apps/api/src/modules/tasks/tasks.service.ts:575-592 | a completed or cancelled task never gets an active run again, forced starts included |
| QuietTasks.EachRunEndsOnce | apps/worker/src/services/task-transitions.ts:46-60 | of all terminal decisions racing for a run, at most one ends it |
| ContainerRuntime.Runtime.ForceRemove | apps/worker/src/execution/docker-container-execution-runtime.ts:600-622 | the caller waits for a removal of its own container, shared if one is in flight, and for none exactly if the container is gone |
| ContainerRuntime.Runtime.Prepare | apps/worker/src/execution/docker-container-execution-runtime.ts:89-102 | an id is accepted exactly once and only while the runtime runs; a refusal changes nothing |
| ContainerRuntime.Runtime.FailPreparation | apps/worker/src/execution/docker-container-execution-runtime.ts:293-312 | the failed session is aborted and without secrets, and it leaves the map only if its container is gone, else its removal is awaited |
| ContainerRuntime.Runtime.StartCommand | apps/worker/src/execution/docker-container-execution-runtime.ts:379-414 | a command is started if and only if it is allowed and the session is in the map, open, not aborted, not removed and idle; a refused one changes no session |
| ContainerRuntime.Runtime.Resume | apps/worker/src/execution/docker-container-execution-runtime.ts:425-559 | the continuations after each await keep the object valid, and a session they take out of the map is removed and cleared |
| ContainerRuntime.Runtime.Shutdown | apps/worker/src/execution/docker-container-execution-runtime.ts:539-558 | the first call aborts every open session and stops new preparations; later calls change nothing |
| ContainerRuntime.Replay | apps/worker/src/execution/docker-container-execution-runtime.ts:89-622 | every schedule of the object's methods is a run of the session protocol, so the theorems about runs hold of the object |
| ContainerSafety.RunIsSafe | apps/worker/src/execution/docker-container-execution-runtime.ts:196-313 | the invariant of sessions, preparations, removals, calls and shutdown holds after every run, whatever the callers do |
| ContainerSafety.SessionsLeaveRemovedAndCleared | apps/worker/src/execution/docker-container-execution-runtime.ts:528-559 | in every run, a session that was opened and has left the map was confirmed removed and its secrets were overwritten |
| ContainerSafety.SessionsLeaveClean | apps/worker/src/execution/docker-container-execution-runtime.ts:528-559 | when commands wait for the creation, such a session's container is gone from Docker too, and stays gone |
| ContainerSafety.OneCommandAtATime | apps/worker/src/execution/docker-container-execution-runtime.ts:383-414 | no session ever executes two commands |
| ContainerSafety.ShutdownIsComplete | apps/worker/src/execution/docker-container-execution-runtime.ts:539-559 | once shutdown has resolved no session or preparation remains, and none is ever added |
| ContainerSafety.CancelledSessionStartsNothing | apps/worker/src/execution/docker-container-execution-runtime.ts:517-537 | after a cancel reached an open session, or a release one that is not pending, no later command is started on it |
| ContainerSafety.ImpatienceCanLeak | apps/worker/src/execution/docker-container-execution-runtime.ts:379-393 | from every reachable state in which a command would be accepted before the container exists, some continuation leaves the container behind |
| ContainerLife.PreparationSucceeds | apps/worker/src/execution/docker-container-execution-runtime.ts:89-292 | when Docker answers, a new preparation ends with an open, idle session and its container |
| ContainerLife.InterruptedPreparationIsUndone | apps/worker/src/execution/docker-container-execution-runtime.ts:231-312 | a preparation whose operation fails, or that is cancelled or overtaken by a shutdown before its container is up, is aborted and cleared and its container removed or being removed |
| ContainerLife.CommandStartsExactlyWhen | apps/worker/src/execution/docker-container-execution-runtime.ts:379-414 | in the protocol too, a command runs exactly on an open, idle session that was neither cancelled nor removed, and a refused one leaves all sessions alone |
| ContainerLife.FailedCommandRemoves | apps/worker/src/execution/docker-container-execution-runtime.ts:474-495 | a command that fails takes its container with it before its caller learns of it |
| ContainerLife.ReleaseEnds | apps/worker/src/execution/docker-container-execution-runtime.ts:528-537 | a release of an idle session ends it: out of the map, removed and cleared, its container gone |
| ContainerLife.WaitingCallGoesOn | apps/worker/src/execution/docker-container-execution-runtime.ts:517-537 | a cancellation or release that waited for a preparation goes on as if it were made after it |
| ContainerLife.FailedRemovalIsRetried | apps/worker/src/execution/docker-container-execution-runtime.ts:600-622 | whoever waits for a removal that fails is told so, the session stays, and the next cancellation asks Docker again |
| ContainerLife.FailedEntryBlocksClosing | apps/worker/src/execution/docker-container-execution-runtime.ts:539-559 | a shutdown with an entry that failed never closes the runtime, whatever follows |
| ContainerLife.ShutdownCanComplete | apps/worker/src/execution/docker-container-execution-runtime.ts:539-559 | with no preparation pending and no removal asked for, a shutdown has a schedule to its end, however many sessions are open |
| PlanMaterializer.RowsAreNamedEdges | apps/worker/src/services/plan-materializer.ts:103-113 | the dependency rows are exactly the plan's edges with indices replaced by the new ids |
| PlanMaterializer.RowsAreDistinct | apps/worker/src/services/plan-materializer.ts:103-117 | no dependency row is written twice |
| PlanMaterializer.ChildrenAreExact | apps/worker/src/services/plan-materializer.ts:67-101 | exactly one new child per planned task, with consecutive key numbers after the stored sequence, and old tasks unchanged |
| PlanMaterializer.StoredGraphStaysAcyclic | apps/worker/src/services/plan-materializer.ts:67-117 | a stored dependency graph without cycles stays without cycles, rows refer to stored tasks, keys stay unique |
| PlanMaterializer.Materializer.Attempt | apps/worker/src/services/plan-materializer.ts:34-145 | one transaction stores the whole plan or nothing; a unique violation happens exactly when a task of the project has one of the next numbers, and the stored sequence grows by the number of tasks |
| PlanMaterializer.Materializer.Materialize | packages/db/src/helpers.ts:40-51 | an invalid plan never reaches the tables; otherwise the transaction runs at least once, even for a limit below one, and at most the given number of times, again only after a unique violation, which is only answered when the limit is used up; failed attempts leave no rows |
| PromptTemplates.MatchIsExact | packages/schemas/src/prompt-templates.ts:37 | the scanner finds a placeholder exactly when a string of the placeholder form begins there, and its length is never ambiguous |
| PromptTemplates.PiecesRebuildTheBody | packages/schemas/src/prompt-templates.ts:99-102 | cutting a body at its placeholders loses nothing |
| PromptTemplates.PromptVariables | packages/schemas/src/prompt-templates.ts:35-46 | Malformed if and only if all names are supported and two opening or two closing braces of the text itself meet, with at most placeholders between them; Unsupported with the first foreign name; otherwise the names, each once |
| PromptTemplates.StrayBracesMeet | packages/schemas/src/prompt-templates.ts:43-44 | what is left without the placeholders holds a double brace exactly when two of a kind meet in the pieces of the body |
| PromptTemplates.NamesComeInOrderOfUse | packages/schemas/src/prompt-templates.ts:36-45 | the names answered stand in the order of their first use |
| PromptTemplates.EveryVariableIsFound | packages/schemas/src/prompt-templates.ts:37 | every supported variable is found in its own placeholder, whatever white space surrounds it |
| PromptTemplates.TrimKeepsVerdict | packages/schemas/src/prompt-templates.ts:48-62 | checking the trimmed body and checking the body never differ, so rendering never fails its second check |
| PromptTemplates.RenderPrompt | packages/schemas/src/prompt-templates.ts:86-105 | exactly when rendering fails and with which error, the length limits written out and the unresolved name being that of the first placeholder without a non-blank value; on success every placeholder has one, so the empty fallback is never used, and values without braces give a result without double braces |
| PromptTemplates.SlotHoldsValue | packages/schemas/src/prompt-templates.ts:98-102 | the result is tiled by the literals and the values, each character for character, whatever braces a value contains |
| PromptTemplates.TighteningKeepsPieces | packages/schemas/src/prompt-templates.ts:99-102 | cutting the body again after removing the white space in its placeholders finds the same pieces |
| PromptTemplates.SelfBindingOnlyTightens | packages/schemas/src/prompt-templates.ts:98-102 | binding each variable to its own placeholder only removes that white space, keeps the verdict, and is idempotent |
| CheckRun.Resolve | apps/worker/src/services/check-commands.ts:35-44 | a configured command is the non-empty line found under the shared key or else the type's own name; only without one it is the default, and it is never empty |
| CheckRun.AllowedByName | packages/git/src/command-runner.ts:85-88 | a command may run exactly when the allowlist holds it as written or the name its path ends in |
| CheckRun.DefaultRunsItsScript | apps/worker/src/services/check-commands.ts:22-70 | the script read out of each default command is the one it runs, so a default is dropped exactly when the worktree has no such script |
| CheckRun.VerdictsMean | apps/worker/src/services/test-runner.ts:226-315 | a check passes exactly when its command is run and exits with zero, times out exactly when run and timed out, is inapplicable exactly as a default without its script, unavailable exactly without a worktree |
| CheckRun.TestRunner.RunCheck | apps/worker/src/services/test-runner.ts:226-315 | a command that runs is recorded PASSED for exit code zero, FAILED for another or a crash, TIMEOUT for a timeout; one that is not allowed FAILED, an inapplicable default or a missing worktree SKIPPED |
| CheckRun.TestRunner.Run | apps/worker/src/services/test-runner.ts:175-356 | rows, failures in order, totals and verdict are exactly those of the checks, with a failed install counted as one more failure; after a passing run every command exited with zero or was an inapplicable default, and no more checks count as passed than exited with zero |
| CheckRun.FailedChecksAreListed | apps/worker/src/services/test-runner.ts:198-345 | the failed checks are listed in the order of the run |
| CheckRun.EveryCheckIsCounted | apps/worker/src/services/test-runner.ts:198-345 | passed, failed and inapplicable checks add up to the list |
| CheckRun.PassingIsExact | apps/worker/src/services/test-runner.ts:175-344 | a run passes exactly when the install did not fail, every check exited with zero when run or was an inapplicable default, and the worktree exists unless the list is empty |
| CheckRun.PassingRecordsConfiguredChecks | apps/worker/src/services/test-runner.ts:226-315 | after a passing run every configured check is recorded PASSED, repeated types included |
| Cost.MillionsCostTheirPrice | packages/agent-sdk/src/cost.ts:26-33 | a million tokens of one kind cost the price of that kind, to half a millionth of a dollar |
| Cost.KindsAddUp | packages/agent-sdk/src/cost.ts:26-33 | a usage costs the sum of its three kinds, to half a millionth; the total count has no influence |
| Cost.RoundingDrift | packages/agent-sdk/src/cost.ts:26-44 | the cost of the summed usage differs from the summed costs by at most (n + 1) half-millionths of a dollar |
| Cost.RoundingDriftInMicros | packages/agent-sdk/src/cost.ts:26-44 | in whole millionths the difference is at most half of n + 1 |
| CredentialCache.KeysAreInjective | apps/worker/src/services/credential-resolver.ts:41-43 | organization ids without a colon never share a cache key |
| CredentialCache.AnswersWereHeld | apps/worker/src/services/credential-resolver.ts:45-58 | for organization ids without a colon, every value handed out was really held by the row of that very organization and provider, at the recorded time |
| CredentialCache.AnswersAreYoung | apps/worker/src/services/credential-resolver.ts:45-58 | in every run a value is handed out when it is stored or less than a time to live after that; it was read before it was stored, and at that time if every resolution stores at once |
| CredentialCache.FailuresAreNotCached | apps/worker/src/services/credential-resolver.ts:60-89 | over every run, cached entries, values on their way into the cache and answers all stem from a decryption that worked at the step they are marked with, and none from one that failed |
| CredentialCache.InvalidationIsExact | apps/worker/src/services/credential-resolver.ts:45-98 | invalidating a pair drops its key and keeps all others; afterwards, in all continuations, every entry and answer under its key was read later, if and only if no resolution with that key is in flight |
| CredentialCache.ClearingIsExact | apps/worker/src/services/credential-resolver.ts:91-98 | after clearing the cache this holds for every key if and only if nothing is in flight |
| CredentialCache.ResolutionAnswers | apps/worker/src/services/credential-resolver.ts:45-89 | a fresh entry answers at once; otherwise a missing or incomplete row answers that there is no key, a complete one that does not decrypt fails without a trace, and a decrypted one is answered and cached for a time to live |
| CredentialCache.CredentialResolver.Resolve | apps/worker/src/services/credential-resolver.ts:45-58 | a fresh entry is served without a read; otherwise the answer is what the row holds, no key for a missing or incomplete row, a failure for one that does not decrypt; it is what the cache then holds, a failure leaves no trace, other keys are untouched |

## Left out

- The web application, HTTP, queues, Redis, Git, GitHub, Docker and file effects: external calls that succeed or fail.
- Database isolation below transactions: a transaction is one step, so reads interleaved with another transaction that takes no task lock are not modelled.
- Process scheduling of the engine's heartbeat: an expired lease is any claim step that says it expired.
- The order in which continuations of one settled promise run: every order is covered, so more than JavaScript allows.
- The text of error messages and logs.
- The rest of the schemas, phase scope and repository path checks of the planner output: structural conditions without interplay.
- Task, run and agent columns that no guard reads: timestamps, reasons, session ids, token counts, audit rows.
- Counting a task's attempts: whether any are left is an input of a workflow start.
- Workflow runs without a task, and their cancellation: no writer of a task takes part.
- Pausing and unpausing of containers, invocation directories, output scrubbing and path translation.
- Reuse of a run id after its session was released: `ContainerSafety` takes run ids as never reused.
- ContainerSafety.SessionsLeaveClean: the part about Docker assumes that commands wait for the creation of the container; the converse is `ContainerSafety.ImpatienceCanLeak`, and the part about the object is `ContainerSafety.SessionsLeaveRemovedAndCleared`.
- An agent that goes on editing after its claim was taken over: `EngineWorktree` counts the edits of an execution as made before any check that is claimed later.
- The engine's own cancellation writes back the state it had loaded with the cancelled flag added (`workflow-engine.ts:695-706`); the model keeps the stored state. The run is CANCELLED either way and nothing reads the state again.
- Characters of a prompt template are code points, where the program counts UTF-16 units.
- EngineBudget.ResultsArePaidFor: the bound leaves out failures of FIX, REVIEW and FINAL_REVIEW, which only the cap of sixty executions limits.
- CheckRun: database and audit writes of a check run succeed; running the install command is a given outcome; checks of type CUSTOM share their row with the install result and keep only the last.
- Lower-casing in `CheckRun` covers the ASCII letters.
- The model price table of `Cost`: the bounds hold for any prices.
- Encryption, prompt-injection patterns and secret redaction.
