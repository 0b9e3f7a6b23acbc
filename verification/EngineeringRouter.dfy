/** The engineering workflow: its step table, the state the router reads, and the router. */
module EngineeringRouter {

  datatype StepKey =
    | ANALYZE_REPOSITORY | PLAN | CREATE_TASKS | CREATE_WORKTREE | IMPLEMENT | RUN_TESTS | UI_QA
    | REVIEW | FIX | RETEST | FINAL_REVIEW | DOCUMENT | PREPARE_PR | COMPLETE

  datatype PermissionLevel =
    | LEVEL_0_OBSERVE | LEVEL_1_PLAN | LEVEL_2_CODE | LEVEL_3_PR | LEVEL_4_MERGE | LEVEL_5_DEPLOY

  function Rank(level: PermissionLevel): nat {
    match level
    case LEVEL_0_OBSERVE => 0
    case LEVEL_1_PLAN => 1
    case LEVEL_2_CODE => 2
    case LEVEL_3_PR => 3
    case LEVEL_4_MERGE => 4
    case LEVEL_5_DEPLOY => 5
  }

  predicate PermissionAtLeast(actual: PermissionLevel, required: PermissionLevel) {
    Rank(actual) >= Rank(required)
  }

  // -- the step table ---------------------------------------------------------------

  predicate Optional(key: StepKey) {
    key == UI_QA || key == DOCUMENT || key == PREPARE_PR
  }

  function MaxAttempts(key: StepKey): nat {
    match key
    case CREATE_WORKTREE => 3
    case RUN_TESTS | UI_QA | RETEST | DOCUMENT | COMPLETE => 1
    case _ => 2
  }

  function RequiredPermission(key: StepKey): PermissionLevel {
    match key
    case ANALYZE_REPOSITORY | COMPLETE => LEVEL_0_OBSERVE
    case PLAN | CREATE_TASKS | UI_QA | REVIEW | FINAL_REVIEW | DOCUMENT => LEVEL_1_PLAN
    case CREATE_WORKTREE | IMPLEMENT | RUN_TESTS | FIX | RETEST => LEVEL_2_CODE
    case PREPARE_PR => LEVEL_3_PR
  }

  // -- the router ----------------------------------------------------------------------

  datatype WorkflowState = WorkflowState(
    completedSteps: seq<StepKey>,
    failedSteps: seq<StepKey>,
    reviewCycle: int,
    maxReviewCycles: int,
    attempt: int,
    maxAttempts: int,
    testsPassed: bool,
    verificationPending: bool,
    reviewApproved: bool,
    hasBlockingFindings: bool,
    uiQaEnabled: bool,
    documentationEnabled: bool,
    skipPlanning: bool,
    createPullRequest: bool,
    permissionLevel: PermissionLevel,
    cancelled: bool)

  /** Why the loop hands over to a person. */
  datatype Escalation =
    | DefinitionOfDone
    | PlanningOnly
    | BudgetExhausted
    | NotApproved
    | PullRequestNotAllowed
    | NotConverging

  datatype Decision =
    | RunStep(key: StepKey)
    | Completed
    | Failed(failedKey: StepKey)
    | WaitForHuman(escalation: Escalation)
    | Cancelled

  /** Entry i is the first one that is not optional. */
  ghost predicate FirstRequired(failedSteps: seq<StepKey>, i: nat) {
    i < |failedSteps| && !Optional(failedSteps[i]) && forall j :: 0 <= j < i ==> Optional(failedSteps[j])
  }

  /** The first entry of the failed list that is not optional decides. */
  function FailureVerdict(failedSteps: seq<StepKey>): (d: Decision)
    ensures forall i: nat {:trigger FirstRequired(failedSteps, i)} :: FirstRequired(failedSteps, i) ==>
      d == if failedSteps[i] == COMPLETE then WaitForHuman(DefinitionOfDone) else Failed(failedSteps[i])
    ensures d == Completed <==> forall k :: k in failedSteps ==> Optional(k)
    ensures d.Failed? ==> d.failedKey in failedSteps && !Optional(d.failedKey) && d.failedKey != COMPLETE
    ensures d == Completed || d.Failed? || (d == WaitForHuman(DefinitionOfDone) && COMPLETE in failedSteps)
  {
    if failedSteps == [] then Completed
    else if Optional(failedSteps[0]) then
      assert forall i: nat {:trigger FirstRequired(failedSteps, i)} :: FirstRequired(failedSteps, i) ==> i > 0 && FirstRequired(failedSteps[1..], i - 1);
      FailureVerdict(failedSteps[1..])
    else if failedSteps[0] == COMPLETE then WaitForHuman(DefinitionOfDone)
    else Failed(failedSteps[0])
  }

  predicate NeedsFix(s: WorkflowState) {
    !s.testsPassed || (!s.reviewApproved && s.hasBlockingFindings)
  }

  function Decide(s: WorkflowState): Decision {
    if s.cancelled then Cancelled
    else if FailureVerdict(s.failedSteps) != Completed then FailureVerdict(s.failedSteps)
    else if ANALYZE_REPOSITORY !in s.completedSteps then RunStep(ANALYZE_REPOSITORY)
    else if !s.skipPlanning && PLAN !in s.completedSteps then RunStep(PLAN)
    else if !s.skipPlanning && CREATE_TASKS !in s.completedSteps then RunStep(CREATE_TASKS)
    else if !PermissionAtLeast(s.permissionLevel, LEVEL_2_CODE) then WaitForHuman(PlanningOnly)
    else if CREATE_WORKTREE !in s.completedSteps then RunStep(CREATE_WORKTREE)
    else if IMPLEMENT !in s.completedSteps then RunStep(IMPLEMENT)
    else if RUN_TESTS !in s.completedSteps then RunStep(RUN_TESTS)
    else if s.uiQaEnabled && s.testsPassed && UI_QA !in s.completedSteps && UI_QA !in s.failedSteps then RunStep(UI_QA)
    else if NeedsFix(s) then
      if s.verificationPending then RunStep(RETEST)
      else if s.reviewCycle >= s.maxReviewCycles || s.attempt >= s.maxAttempts then WaitForHuman(BudgetExhausted)
      else RunStep(FIX)
    else if !s.reviewApproved then
      if s.reviewCycle >= s.maxReviewCycles then WaitForHuman(NotApproved)
      else RunStep(if s.reviewCycle >= s.maxReviewCycles - 1 then FINAL_REVIEW else REVIEW)
    else if s.documentationEnabled && DOCUMENT !in s.completedSteps && DOCUMENT !in s.failedSteps then RunStep(DOCUMENT)
    else if s.createPullRequest && PREPARE_PR !in s.completedSteps && !PermissionAtLeast(s.permissionLevel, LEVEL_3_PR) then
      WaitForHuman(PullRequestNotAllowed)
    else if s.createPullRequest && PREPARE_PR !in s.completedSteps && PREPARE_PR !in s.failedSteps then RunStep(PREPARE_PR)
    else if COMPLETE !in s.completedSteps then RunStep(COMPLETE)
    else Completed
  }
}
