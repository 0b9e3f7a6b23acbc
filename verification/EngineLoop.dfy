/** What the engine does next: who gets to work on a step, and where each stored result leads. */
module EngineLoop {
  import opened EngineeringRouter
  import opened Statuses
  import opened WorkflowEngine
  import opened EngineClaims
  import opened EngineSafety
  import opened EngineStaleness
  import opened Wrappers

  // -- who gets to work ---------------------------------------------------------------------------

  /** The run is open, and the step either free or under way by a worker whose lease has expired. */
  predicate Free(e: Engine, key: StepKey, leaseExpired: bool) {
    || e.status == RunStatus.PENDING
    || (e.status == RunStatus.RUNNING && (e.current == None || (e.current == Some(key) && leaseExpired)))
  }

  /**
   A worker gets to execute the decided step exactly when the task was not cancelled and the step is
   free. Its claim then is the one running row, with the state and settings it was decided on.
   */
  lemma StepIsClaimedExactlyWhen(skipPlanning: bool, createPullRequest: bool, actions: seq<Action>,
                                 config: Config, leaseExpired: bool, taskCancelled: bool)
    ensures var e := Run(Initial(skipPlanning, createPullRequest), actions);
      var after, verdict := Step(e, AdvanceRun(config, leaseExpired, taskCancelled)), Verdict(e, config);
      && (|after.executions| > |e.executions| <==> verdict.RunStep? && !taskCancelled && Free(e, verdict.key, leaseExpired))
      && (|after.executions| > |e.executions| ==> Works(e, after, verdict.key, config))
  {
    hide Run, ClaimsSound, Verdict, Step;
    RunKeepsClaims(skipPlanning, createPullRequest, actions);
    SoundStepIsClaimed(Run(Initial(skipPlanning, createPullRequest), actions), config, leaseExpired, taskCancelled);
  }

  ghost predicate Works(e: Engine, after: Engine, key: StepKey, config: Config)
    requires |after.executions| > |e.executions|
  {
    var claim := after.executions[|e.executions|];
    && |after.executions| == |e.executions| + 1
    && claim.key == key && claim.base == e.stored && claim.config == config
    && after.status == RunStatus.RUNNING && after.current == Some(key)
    && claim.row < |after.rows| && after.rows[claim.row] == Row(key, RunStatus.RUNNING, claim.attempt)
  }

  lemma SoundStepIsClaimed(e: Engine, config: Config, leaseExpired: bool, taskCancelled: bool)
    requires ClaimsSound(e)
    ensures var after, verdict := Step(e, AdvanceRun(config, leaseExpired, taskCancelled)), Verdict(e, config);
      && (|after.executions| > |e.executions| <==> verdict.RunStep? && !taskCancelled && Free(e, verdict.key, leaseExpired))
      && (|after.executions| > |e.executions| ==> Works(e, after, verdict.key, config))
  {
    hide Verdict, TokensOrdered, ResultsSpent, AttemptsCounted, ReusableRow;
    if e.status == RunStatus.RUNNING && e.current.Some? {
      assert LastRunning(e.rows, e.current.value).Some?;
    }
    ReusableIsOfKey(e.(status := RunStatus.RUNNING), if Verdict(e, config).RunStep? then Verdict(e, config).key else FIX);
  }

  lemma ReusableIsOfKey(e: Engine, key: StepKey)
    ensures ReusableRow(e, key).Some? ==> ReusableRow(e, key).value < |e.rows| && e.rows[ReusableRow(e, key).value].key == key
  {}

  /** Each report read backwards: which steps can end with it. Every step can fail. */
  predicate ComesFrom(outcome: Outcome, key: StepKey) {
    match outcome
    case StepFailed => true
    case StepSkipped => key in {ANALYZE_REPOSITORY, CREATE_WORKTREE, UI_QA, DOCUMENT, PREPARE_PR}
    case StepDone => key in {ANALYZE_REPOSITORY, PLAN, CREATE_TASKS, CREATE_WORKTREE, DOCUMENT, PREPARE_PR, COMPLETE}
    case CodeChanged => key in {IMPLEMENT, FIX}
    case ChecksRan(_) => key in {RUN_TESTS, RETEST}
    case UiReviewed(_) => key == UI_QA
    case Reviewed(_, _) => key in {REVIEW, FINAL_REVIEW}
  }

  lemma ReportsComeFrom(key: StepKey, outcome: Outcome)
    ensures CanReturn(key, outcome) <==> ComesFrom(outcome, key)
  {}

  // -- whose result is stored ------------------------------------------------------------------------

  /** No attempt is left after this one: the worktree gets three, checks, documentation and the last step one, all others two. */
  predicate LastTry(key: StepKey, attempt: nat) {
    attempt >= (if key == CREATE_WORKTREE then 3 else if key in {RUN_TESTS, UI_QA, RETEST, DOCUMENT, COMPLETE} then 1 else 2)
  }

  /**
   A result is stored exactly while the run still works on that step, the row still carries that
   claim and the task is not cancelled. It settles its own row and no other: a failed step is to be
   tried again until its attempts are used up.
   */
  lemma ResultIsStoredExactlyWhen(e: Engine, x: nat, outcome: Outcome, taskCancelled: bool)
    requires x < |e.executions| && CanReturn(e.executions[x].key, outcome)
    ensures var after, claim := Step(e, PersistResult(x, outcome, taskCancelled)), e.executions[x];
      && (|after.log| > |e.log| <==>
            && !taskCancelled && e.status == RunStatus.RUNNING && e.current == Some(claim.key)
            && claim.row < |e.rows| && e.rows[claim.row].status == RunStatus.RUNNING && e.rows[claim.row].attempt == claim.attempt)
      && (|after.log| <= |e.log| ==> after == e)
      && (|after.log| > |e.log| ==>
            && after.log == e.log + [Entry(x, claim.key, outcome)] && after.current == None && |after.rows| == |e.rows|
            && after.rows[claim.row].status ==
                 (if outcome == StepSkipped then RunStatus.SKIPPED
                  else if outcome != StepFailed then RunStatus.SUCCEEDED
                  else if LastTry(claim.key, claim.attempt) then RunStatus.FAILED else RunStatus.PENDING)
            && forall i :: 0 <= i < |e.rows| && i != claim.row ==> after.rows[i] == e.rows[i])
  {
    hide Patched;
  }

  // -- where a result leads -------------------------------------------------------------------------

  /** A run past its first checks on which nothing stands in the way of the router. */
  ghost predicate PastTests(e: Engine, config: Config) {
    && ClaimsSound(e) && e.status == RunStatus.RUNNING && !e.stored.cancelled && |e.executions| < MAX_STEP_EXECUTIONS
    && (forall k :: FailedForGood(e.rows, k) ==> k in {UI_QA, DOCUMENT, PREPARE_PR})
    && Prepared(e.rows, FIX, e.stored.skipPlanning) && config.permissionLevel !in {LEVEL_0_OBSERVE, LEVEL_1_PLAN}
  }

  ghost predicate UiCheckIsDue(e: Engine, config: Config) {
    config.uiQaEnabled && e.stored.testsPassed && UiOpen(e.rows)
  }

  function FixOrHandOver(e: Engine, config: Config): Decision {
    if e.stored.reviewCycle < config.maxReviewCycles && e.stored.attempt < config.maxAttempts then RunStep(FIX)
    else WaitForHuman(BudgetExhausted)
  }

  predicate AsksForReview(d: Decision) {
    d == RunStep(REVIEW) || d == RunStep(FINAL_REVIEW) || d == WaitForHuman(NotApproved)
  }

  predicate Delivers(d: Decision) {
    d in {RunStep(DOCUMENT), RunStep(PREPARE_PR), RunStep(COMPLETE), Completed, WaitForHuman(PullRequestNotAllowed)}
  }

  /** The router's part: only the flags of the state decide here. */
  lemma FlagsDecide(s: WorkflowState)
    requires !s.cancelled && FailureVerdict(s.failedSteps) == Completed && PermissionAtLeast(s.permissionLevel, LEVEL_2_CODE)
    requires forall k :: k in Prerequisites(FIX, s.skipPlanning) ==> k in s.completedSteps
    ensures s.uiQaEnabled && s.testsPassed && UI_QA !in s.completedSteps && UI_QA !in s.failedSteps ==> Decide(s) == RunStep(UI_QA)
    ensures !(s.uiQaEnabled && s.testsPassed && UI_QA !in s.completedSteps && UI_QA !in s.failedSteps) ==>
      if NeedsFix(s) then
        Decide(s) == if s.verificationPending then RunStep(RETEST)
                     else if s.reviewCycle < s.maxReviewCycles && s.attempt < s.maxAttempts then RunStep(FIX) else WaitForHuman(BudgetExhausted)
      else if !s.reviewApproved then AsksForReview(Decide(s))
      else Delivers(Decide(s))
  {
    hide FailureVerdict;
  }

  lemma RouterGoesByFlags(e: Engine, config: Config)
    requires PastTests(e, config)
    ensures var s := StateOf(e, config);
      && !s.cancelled && FailureVerdict(s.failedSteps) == Completed && PermissionAtLeast(s.permissionLevel, LEVEL_2_CODE)
      && (forall k :: k in Prerequisites(FIX, s.skipPlanning) ==> k in s.completedSteps)
  {
    hide Decide, Done, FailedForGood, TotalAttempts, ClaimsSound, Prerequisites;
    assert FailureVerdict(FailedSteps(e.rows)) == Completed;
  }

  lemma BelowCap(e: Engine, config: Config)
    requires PastTests(e, config)
    ensures Verdict(e, config) == Decide(StateOf(e, config))
  {
    assert TotalAttempts(e.rows) == |e.executions|;
    GuardHasNoSay(StateOf(e, config));
    hide Decide, StateOf, TotalAttempts;
  }

  lemma VerdictByFlags(e: Engine, config: Config)
    requires PastTests(e, config)
    ensures UiCheckIsDue(e, config) ==> Verdict(e, config) == RunStep(UI_QA)
    ensures !UiCheckIsDue(e, config) ==>
      if Unfixed(e.stored) then Verdict(e, config) == if e.stored.verificationPending then RunStep(RETEST) else FixOrHandOver(e, config)
      else if !e.stored.reviewApproved then AsksForReview(Verdict(e, config))
      else Delivers(Verdict(e, config))
  {
    hide PastTests, Decide, Verdict, Done, FailedForGood, FailureVerdict, Prerequisites, AsksForReview, Delivers;
    RouterGoesByFlags(e, config);
    BelowCap(e, config);
    FlagsDecide(StateOf(e, config));
  }

  /**
   Where the loop turns. Changed code is checked again; failed checks, a review that did not approve
   and blocking findings of a UI check lead to a FIX or, without budget, to a person; checks that pass
   after a change lead to a review; an approval leads to delivery. All else leaves the state as it was.
   */
  lemma ResultsLeadOn(e: Engine, x: nat, outcome: Outcome, config: Config)
    requires Safe(e) && HoldsClaim(e, x) && CanReturn(e.executions[x].key, outcome)
    requires var after := Step(e, PersistResult(x, outcome, false)); PastTests(after, config) && !UiCheckIsDue(after, config)
    ensures var after, next := Step(e, PersistResult(x, outcome, false)), Verdict(Step(e, PersistResult(x, outcome, false)), config);
      match outcome
      case CodeChanged => next == RunStep(RETEST)
      case ChecksRan(passed) =>
        if !passed then next == FixOrHandOver(after, config)
        else e.stored.verificationPending ==> AsksForReview(next)
      case Reviewed(approved, _) => if approved then Delivers(next) else next == FixOrHandOver(after, config)
      case UiReviewed(blocking) =>
        if blocking then e.stored.reviewApproved || next == FixOrHandOver(after, config) else after.stored == e.stored
      case _ => after.stored == e.stored
  {
    hide HistoryFits, Unverified, TotalAttempts, Done, FailedForGood, Verdict, PastTests;
    var after := Step(e, PersistResult(x, outcome, false));
    HolderIsNewest(e, x);
    assert ExecutionJustified(e, x);
    VerdictByFlags(after, config);
    hide ClaimsSound;
  }
}
