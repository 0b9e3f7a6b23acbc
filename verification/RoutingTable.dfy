/**
 The routing decision read off as a table: what each decision says about the state, on its own and
 without regard to the order in which the router asks. Exactly one line fits every state.
 */
module RoutingTable {
  import opened EngineeringRouter

  predicate Finished(s: WorkflowState, key: StepKey) {
    key in s.completedSteps
  }

  /** Completed, or failed for good: nothing more is expected of the step. */
  predicate Over(s: WorkflowState, key: StepKey) {
    key in s.completedSteps || key in s.failedSteps
  }

  predicate MayWriteCode(s: WorkflowState) {
    s.permissionLevel !in {LEVEL_0_OBSERVE, LEVEL_1_PLAN}
  }

  predicate MayOpenPullRequests(s: WorkflowState) {
    s.permissionLevel !in {LEVEL_0_OBSERVE, LEVEL_1_PLAN, LEVEL_2_CODE}
  }

  /** The levels that meet what a step requires. */
  predicate MeetsLevel(level: PermissionLevel, key: StepKey) {
    match key
    case ANALYZE_REPOSITORY | COMPLETE => true
    case PLAN | CREATE_TASKS | UI_QA | REVIEW | FINAL_REVIEW | DOCUMENT => level != LEVEL_0_OBSERVE
    case CREATE_WORKTREE | IMPLEMENT | RUN_TESTS | FIX | RETEST => level != LEVEL_0_OBSERVE && level != LEVEL_1_PLAN
    case PREPARE_PR => level == LEVEL_3_PR || level == LEVEL_4_MERGE || level == LEVEL_5_DEPLOY
  }

  lemma LevelsAreMet(level: PermissionLevel, key: StepKey)
    ensures PermissionAtLeast(level, RequiredPermission(key)) <==> MeetsLevel(level, key)
  {}

  /** The steps a run can do without. */
  predicate Extra(key: StepKey) {
    key in {UI_QA, DOCUMENT, PREPARE_PR}
  }

  predicate Going(s: WorkflowState) {
    !s.cancelled && forall k :: k in s.failedSteps ==> Extra(k)
  }

  predicate BreaksAt(failedSteps: seq<StepKey>, i: nat) {
    i < |failedSteps| && !Extra(failedSteps[i]) && forall j :: 0 <= j < i ==> Extra(failedSteps[j])
  }

  /** The first step the run cannot do without that has failed for good. */
  ghost predicate Broken(s: WorkflowState, key: StepKey) {
    !s.cancelled && exists i: nat :: BreaksAt(s.failedSteps, i) && s.failedSteps[i] == key
  }

  predicate Planned(s: WorkflowState) {
    Going(s) && Finished(s, ANALYZE_REPOSITORY) && (s.skipPlanning || (Finished(s, PLAN) && Finished(s, CREATE_TASKS)))
  }

  predicate Implemented(s: WorkflowState) {
    Planned(s) && MayWriteCode(s) && Finished(s, CREATE_WORKTREE) && Finished(s, IMPLEMENT) && Finished(s, RUN_TESTS)
  }

  /** The UI check is off, over, or has to wait for passing checks. */
  predicate Inspected(s: WorkflowState) {
    Implemented(s) && (s.uiQaEnabled && s.testsPassed ==> Over(s, UI_QA))
  }

  predicate Sound(s: WorkflowState) {
    s.testsPassed && (s.reviewApproved || !s.hasBlockingFindings)
  }

  predicate BudgetLeft(s: WorkflowState) {
    s.reviewCycle < s.maxReviewCycles && s.attempt < s.maxAttempts
  }

  predicate Approved(s: WorkflowState) {
    Inspected(s) && s.testsPassed && s.reviewApproved
  }

  predicate Documented(s: WorkflowState) {
    Approved(s) && (s.documentationEnabled ==> Over(s, DOCUMENT))
  }

  predicate Published(s: WorkflowState) {
    && Documented(s)
    && (s.createPullRequest ==> Finished(s, PREPARE_PR) || (MayOpenPullRequests(s) && PREPARE_PR in s.failedSteps))
  }

  ghost predicate Fits(s: WorkflowState, d: Decision) {
    match d
    case Cancelled => s.cancelled
    case Failed(key) => Broken(s, key) && key != COMPLETE
    case Completed => Published(s) && Finished(s, COMPLETE)
    case RunStep(key) => StepFits(s, key) && (Finished(s, key) ==> key in {RETEST, FIX, REVIEW, FINAL_REVIEW})
    case WaitForHuman(why) =>
      match why
      case DefinitionOfDone => Broken(s, COMPLETE)
      case PlanningOnly => Planned(s) && !MayWriteCode(s)
      case BudgetExhausted => Inspected(s) && !Sound(s) && !s.verificationPending && !BudgetLeft(s)
      case NotApproved => Inspected(s) && Sound(s) && !s.reviewApproved && s.reviewCycle >= s.maxReviewCycles
      case PullRequestNotAllowed => Documented(s) && s.createPullRequest && !Finished(s, PREPARE_PR) && !MayOpenPullRequests(s)
      case NotConverging => false
  }

  predicate StepFits(s: WorkflowState, key: StepKey) {
    match key
    case ANALYZE_REPOSITORY => Going(s)
    case PLAN => Going(s) && Finished(s, ANALYZE_REPOSITORY) && !s.skipPlanning
    case CREATE_TASKS => Going(s) && Finished(s, ANALYZE_REPOSITORY) && Finished(s, PLAN) && !s.skipPlanning
    case CREATE_WORKTREE => Planned(s) && MayWriteCode(s)
    case IMPLEMENT => Planned(s) && MayWriteCode(s) && Finished(s, CREATE_WORKTREE)
    case RUN_TESTS => Planned(s) && MayWriteCode(s) && Finished(s, CREATE_WORKTREE) && Finished(s, IMPLEMENT)
    case UI_QA => Implemented(s) && s.uiQaEnabled && s.testsPassed && !Over(s, UI_QA)
    case RETEST => Inspected(s) && !Sound(s) && s.verificationPending
    case FIX => Inspected(s) && !Sound(s) && !s.verificationPending && BudgetLeft(s)
    case REVIEW => Inspected(s) && Sound(s) && !s.reviewApproved && s.reviewCycle < s.maxReviewCycles - 1
    case FINAL_REVIEW => Inspected(s) && Sound(s) && !s.reviewApproved && s.reviewCycle == s.maxReviewCycles - 1
    case DOCUMENT => Approved(s) && s.documentationEnabled && !Over(s, DOCUMENT)
    case PREPARE_PR => Documented(s) && s.createPullRequest && MayOpenPullRequests(s) && !Over(s, PREPARE_PR)
    case COMPLETE => Published(s)
  }

  lemma {:induction false} FirstBreak(failedSteps: seq<StepKey>) returns (i: nat)
    requires exists k :: k in failedSteps && !Extra(k)
    ensures BreaksAt(failedSteps, i)
  {
    if !Extra(failedSteps[0]) {
      i := 0;
    } else {
      var k :| k in failedSteps && !Extra(k);
      assert k in failedSteps[1..];
      i := FirstBreak(failedSteps[1..]);
      assert forall j :: 0 < j <= i + 1 ==> failedSteps[j] == failedSteps[1..][j - 1];
      i := i + 1;
    }
  }

  lemma BreakDecides(failedSteps: seq<StepKey>, i: nat)
    requires BreaksAt(failedSteps, i)
    ensures FailureVerdict(failedSteps) == if failedSteps[i] == COMPLETE then WaitForHuman(DefinitionOfDone) else Failed(failedSteps[i])
  {
    assert FirstRequired(failedSteps, i);
  }

  lemma OneBreak(failedSteps: seq<StepKey>, i: nat, j: nat)
    requires BreaksAt(failedSteps, i) && BreaksAt(failedSteps, j)
    ensures i == j
  {}

  /** What the failures decide, in the table's terms. */
  lemma FailuresAreRead(s: WorkflowState, key: StepKey)
    requires !s.cancelled
    ensures FailureVerdict(s.failedSteps) == Completed <==> Going(s)
    ensures Broken(s, key) <==>
      FailureVerdict(s.failedSteps) == if key == COMPLETE then WaitForHuman(DefinitionOfDone) else Failed(key)
  {
    if !Going(s) {
      var i := FirstBreak(s.failedSteps);
      BreakDecides(s.failedSteps, i);
      if Broken(s, key) {
        var j: nat :| BreaksAt(s.failedSteps, j) && s.failedSteps[j] == key;
        OneBreak(s.failedSteps, i, j);
      }
    }
  }

  lemma GoingFits(s: WorkflowState)
    requires Going(s) && FailureVerdict(s.failedSteps) == Completed
    ensures Fits(s, Decide(s))
  {
    hide FailureVerdict, Broken, Going;
  }

  /** While the run is going, the lines of the table exclude each other. */
  lemma GoingFitsOnce(s: WorkflowState, d: Decision, other: Decision)
    requires Going(s) && !s.cancelled && forall k :: !Broken(s, k)
    requires Fits(s, d) && Fits(s, other)
    ensures d == other
  {
    hide Broken, Going;
  }

  /** Exactly one line fits, and the router answers with it. */
  lemma DecisionIsTheOnlyFit(s: WorkflowState, d: Decision)
    ensures Fits(s, d) <==> d == Decide(s)
  {
    if !s.cancelled {
      forall key ensures FailureVerdict(s.failedSteps) == Completed <==> Going(s)
        ensures Broken(s, key) <==> FailureVerdict(s.failedSteps) == if key == COMPLETE then WaitForHuman(DefinitionOfDone) else Failed(key)
      {
        FailuresAreRead(s, key);
      }
      hide FailureVerdict, Broken;
      if Going(s) {
        GoingFits(s);
        if Fits(s, d) {
          GoingFitsOnce(s, d, Decide(s));
        }
      } else {
        hide Going;
      }
    }
  }

  predicate AfterUiCheck(d: Decision) {
    || d in {RunStep(REVIEW), RunStep(FINAL_REVIEW), WaitForHuman(NotApproved), RunStep(DOCUMENT), RunStep(PREPARE_PR)}
    || d in {WaitForHuman(PullRequestNotAllowed), RunStep(COMPLETE), Completed}
  }

  /**
   No enabled step is passed over: what comes after the UI check, the documentation or the pull
   request is only decided on when that step is switched off, completed or given up.
   */
  lemma EnabledStepsAreNotSkipped(s: WorkflowState)
    ensures var d := Decide(s);
      && (d in {RunStep(PREPARE_PR), RunStep(COMPLETE), WaitForHuman(PullRequestNotAllowed), Completed} ==>
            (s.documentationEnabled ==> Over(s, DOCUMENT)))
      && (d in {RunStep(COMPLETE), Completed} ==> (s.createPullRequest ==> Over(s, PREPARE_PR)))
      && (AfterUiCheck(d) ==> (s.uiQaEnabled ==> Over(s, UI_QA)))
  {
    DecisionIsTheOnlyFit(s, Decide(s));
    hide Decide, Broken;
  }
}
