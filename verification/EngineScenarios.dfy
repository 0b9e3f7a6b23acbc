/** Concrete runs: the states that the theorems about limits and late decisions speak of are reached. */
module EngineScenarios {
  import opened EngineeringRouter
  import opened Statuses
  import opened WorkflowEngine
  import opened EngineClaims
  import opened EngineSafety
  import opened EngineDelivery
  import opened EngineStaleness
  import opened EngineWorktree
  import opened EngineLimits

  function Settings(maxAttempts: int): Config {
    Config(3, maxAttempts, LEVEL_3_PR, true, true)
  }

  /** A summary of everything the router reads of an engine at rest. */
  ghost predicate At(e: Engine, done: set<StepKey>, failed: set<StepKey>, count: nat, stored: Stored) {
    && Ready(e) && |e.executions| == count && e.stored == stored
    && (forall k :: Done(e.rows, k) <==> k in done)
    && (forall k :: FailedForGood(e.rows, k) <==> k in failed)
  }

  /** The same summary of the state the router is given. */
  ghost predicate Looks(s: WorkflowState, config: Config, done: set<StepKey>, failed: set<StepKey>, stored: Stored) {
    && FailureVerdict(s.failedSteps) == Completed
    && (forall k :: k in s.completedSteps <==> k in done)
    && (forall k :: k in s.failedSteps <==> k in failed)
    && s == WorkflowState(s.completedSteps, s.failedSteps, stored.reviewCycle, config.maxReviewCycles, stored.attempt,
                          config.maxAttempts, stored.testsPassed, stored.verificationPending, stored.reviewApproved,
                          stored.hasBlockingFindings, config.uiQaEnabled, config.documentationEnabled, stored.skipPlanning,
                          stored.createPullRequest, config.permissionLevel, stored.cancelled)
  }

  /** On every state with this summary the router decides so. */
  ghost predicate Answers(config: Config, done: set<StepKey>, failed: set<StepKey>, stored: Stored, decision: Decision) {
    forall s {:trigger Decide(s)} :: Looks(s, config, done, failed, stored) ==> Decide(s) == decision
  }

  lemma VerdictAt(e: Engine, config: Config, done: set<StepKey>, failed: set<StepKey>, count: nat, stored: Stored, decision: Decision)
    requires At(e, done, failed, count, stored) && count < MAX_STEP_EXECUTIONS && e.status != RunStatus.CANCELLED
    requires forall k :: k in failed ==> Optional(k)
    requires Answers(config, done, failed, stored, decision)
    ensures Verdict(e, config) == decision
  {
    hide Decide, Done, FailedForGood, TotalAttempts, TokensOrdered, OneRunningRow, ResultsSpent, HistoryFits;
    GuardHasNoSay(StateOf(e, config));
    assert Looks(StateOf(e, config), config, done, failed, stored);
  }

  /** The run goes on by one undisturbed execution. */
  function Onward(e: Engine, config: Config, outcome: Outcome): seq<Action> {
    [AdvanceRun(config, false, false), PersistResult(|e.executions|, outcome, false)]
  }

  lemma GoesOn(start: Engine, actions: seq<Action>, config: Config, outcome: Outcome)
    ensures var e := Run(start, actions); Run(start, actions + Onward(e, config, outcome)) == Perform(e, config, outcome)
  {
    var e := Run(start, actions);
    var on := Onward(e, config, outcome);
    RunAppends(start, actions, on);
    RunAppends(e, [on[0]], [on[1]]);
    assert on == [on[0]] + [on[1]];
    OneStep(e, on[0]);
    OneStep(Step(e, on[0]), on[1]);
  }

  lemma Succeeds(start: Engine, actions: seq<Action>, config: Config, key: StepKey, outcome: Outcome,
                 done: set<StepKey>, failed: set<StepKey>, count: nat, stored: Stored) returns (more: seq<Action>)
    requires At(Run(start, actions), done, failed, count, stored) && count < MAX_STEP_EXECUTIONS
    requires (forall k :: k in failed ==> Optional(k)) && Answers(config, done, failed, stored, RunStep(key))
    requires CanReturn(key, outcome) && outcome != StepFailed
    ensures At(Run(start, more), done + {key}, failed, count + 1, if outcome == StepDone then stored else Patched(stored, outcome))
  {
    hide Run, Verdict, Ready, Perform, Answers;
    var e := Run(start, actions);
    AtIsReady(e, done, failed, count, stored);
    VerdictAt(e, config, done, failed, count, stored, RunStep(key));
    Performs(e, config, outcome);
    GoesOn(start, actions, config, outcome);
    more := actions + Onward(e, config, outcome);
  }

  lemma AtIsReady(e: Engine, done: set<StepKey>, failed: set<StepKey>, count: nat, stored: Stored)
    requires At(e, done, failed, count, stored)
    ensures Ready(e) && e.status != RunStatus.CANCELLED
  {}

  lemma LeftWithinMaximum(e: Engine, key: StepKey)
    ensures AttemptsLeft(e, key) <= MaxAttempts(key)
  {}

  /** Failing until the step is given up. */
  lemma {:induction false} FailsForGood(start: Engine, actions: seq<Action>, config: Config, key: StepKey,
                 done: set<StepKey>, failed: set<StepKey>, count: nat, stored: Stored) returns (more: seq<Action>, tries: nat)
    requires At(Run(start, actions), done, failed, count, stored) && count + MaxAttempts(key) < MAX_STEP_EXECUTIONS
    requires (forall k :: k in failed ==> Optional(k)) && Answers(config, done, failed, stored, RunStep(key))
    requires !FreshEveryTime(key)
    ensures tries <= MaxAttempts(key) && At(Run(start, more), done, failed + {key}, count + tries, stored)
  {
    hide Run, Verdict, Ready, Perform, Tried, FailOnce, MaxAttempts, FreshEveryTime, Onward, Answers;
    AtIsReady(Run(start, actions), done, failed, count, stored);
    VerdictAt(Run(start, actions), config, done, failed, count, stored, RunStep(key));
    more, tries := actions, 0;
    LeftWithinMaximum(Run(start, actions), key);
    while !(Tried(Run(start, more), key) + 1 >= MaxAttempts(key))
      invariant At(Run(start, more), done, failed, count + tries, stored) && Verdict(Run(start, more), config) == RunStep(key)
      invariant tries + AttemptsLeft(Run(start, more), key) <= MaxAttempts(key)
      decreases AttemptsLeft(Run(start, more), key)
    {
      var e := Run(start, more);
      AtIsReady(e, done, failed, count + tries, stored);
      FailsByPerforming(e, config);
      Performs(e, config, StepFailed);
      OneAttemptLess(e, config, key);
      GoesOn(start, more, config, StepFailed);
      more, tries := more + Onward(e, config, StepFailed), tries + 1;
    }
    var e := Run(start, more);
    AtIsReady(e, done, failed, count + tries, stored);
    Performs(e, config, StepFailed);
    GoesOn(start, more, config, StepFailed);
    more, tries := more + Onward(e, config, StepFailed), tries + 1;
  }

  const ANALYZED: set<StepKey> := {ANALYZE_REPOSITORY}
  const PREPARED: set<StepKey> := ANALYZED + {CREATE_WORKTREE}
  const WRITTEN: set<StepKey> := PREPARED + {IMPLEMENT}
  const CHECKED: set<StepKey> := WRITTEN + {RUN_TESTS}

  function Unwritten(createPullRequest: bool): Stored {
    Stored(0, 0, false, false, false, false, true, createPullRequest, false)
  }

  lemma AnalysisIsRouted(createPullRequest: bool)
    ensures Answers(Settings(3), {}, {}, Unwritten(createPullRequest), RunStep(ANALYZE_REPOSITORY))
  {
    hide FailureVerdict;
  }

  lemma WorktreeIsRouted(createPullRequest: bool)
    ensures Answers(Settings(3), ANALYZED, {}, Unwritten(createPullRequest), RunStep(CREATE_WORKTREE))
  {
    hide FailureVerdict;
  }

  lemma ImplementationIsRouted(createPullRequest: bool)
    ensures Answers(Settings(3), PREPARED, {}, Unwritten(createPullRequest), RunStep(IMPLEMENT))
  {
    hide FailureVerdict;
  }

  lemma ChecksAreRouted(createPullRequest: bool)
    ensures Answers(Settings(3), WRITTEN, {}, Patched(Unwritten(createPullRequest), CodeChanged), RunStep(RUN_TESTS))
  {
    hide FailureVerdict;
  }

  lemma StartIsAt(createPullRequest: bool)
    ensures At(Run(Initial(true, createPullRequest), []), {}, {}, 0, Unwritten(createPullRequest))
  {
    RunIsReady(true, createPullRequest, []);
  }

  /** Analysed, implemented and checked, with the given verdict of the checks. */
  lemma CodeIsChecked(createPullRequest: bool, passed: bool) returns (actions: seq<Action>)
    ensures At(Run(Initial(true, createPullRequest), actions), CHECKED, {}, 4,
               Patched(Patched(Unwritten(createPullRequest), CodeChanged), ChecksRan(passed)))
  {
    hide At, Run, Initial, Settings, Answers, Patched, Unwritten;
    var start, config, stored := Initial(true, createPullRequest), Settings(3), Unwritten(createPullRequest);
    StartIsAt(createPullRequest);
    AnalysisIsRouted(createPullRequest);
    actions := Succeeds(start, [], config, ANALYZE_REPOSITORY, StepDone, {}, {}, 0, stored);
    assert {} + {ANALYZE_REPOSITORY} == ANALYZED;
    WorktreeIsRouted(createPullRequest);
    actions := Succeeds(start, actions, config, CREATE_WORKTREE, StepDone, ANALYZED, {}, 1, stored);
    ImplementationIsRouted(createPullRequest);
    actions := Succeeds(start, actions, config, IMPLEMENT, CodeChanged, PREPARED, {}, 2, stored);
    ChecksAreRouted(createPullRequest);
    actions := Succeeds(start, actions, config, RUN_TESTS, ChecksRan(passed), WRITTEN, {}, 3, Patched(stored, CodeChanged));
  }

  // -- the scenarios -------------------------------------------------------------------------

  function FailedChecks(createPullRequest: bool): Stored {
    Stored(0, 1, false, false, false, false, true, createPullRequest, false)
  }

  lemma FixIsRouted()
    ensures Answers(Settings(3), CHECKED, {}, FailedChecks(false), RunStep(FIX))
    ensures Answers(Settings(1), CHECKED, {}, FailedChecks(false), WaitForHuman(BudgetExhausted))
  {
    hide FailureVerdict;
  }

  /**
   After failed checks the router asks for a FIX, which no attempt limit will stop. With a budget
   of one attempt it decides instead that the budget is spent, and raising the budget before that
   decision is committed lets the run end on unchecked code.
   */
  lemma FailedChecksAreReached() returns (actions: seq<Action>)
    ensures var e := Run(Initial(true, false), actions);
            && Resting(e) && |e.executions| + MaxAttempts(FIX) <= 60
            && Verdict(e, Settings(3)) == RunStep(FIX)
            && Verdict(e, Settings(1)) == WaitForHuman(BudgetExhausted)
            && exists more :: GoesStale(e, Settings(1), more, 2, 3)
  {
    hide At, Run, Initial, Settings, Verdict, GoesStale, Resting, Exposed, FailedChecks;
    actions := ChecksHaveFailed();
    var e := Run(Initial(true, false), actions);
    FixIsAskedFor(e);
    FailedChecksAreExposed(e);
    EscalationCanGoStaleExactlyWhen(true, false, actions, Settings(1), 2, 3);
  }

  lemma ChecksHaveFailed() returns (actions: seq<Action>)
    ensures At(Run(Initial(true, false), actions), CHECKED, {}, 4, FailedChecks(false))
  {
    actions := CodeIsChecked(false, false);
    hide At, Run, Initial;
  }

  lemma FailedChecksAreExposed(e: Engine)
    requires At(e, CHECKED, {}, 4, FailedChecks(false))
    ensures Resting(e) && |e.executions| + MaxAttempts(FIX) <= 60 && Exposed(e, 2, 3)
  {
    hide Safe;
    DoneWorkRuns(e, CHECKED, {}, 4, FailedChecks(false));
  }

  lemma FixIsAskedFor(e: Engine)
    requires At(e, CHECKED, {}, 4, FailedChecks(false))
    ensures Verdict(e, Settings(3)) == RunStep(FIX) && Verdict(e, Settings(1)) == WaitForHuman(BudgetExhausted)
  {
    FixIsRouted();
    hide At, Verdict, Answers;
    AtIsReady(e, CHECKED, {}, 4, FailedChecks(false));
    VerdictAt(e, Settings(3), CHECKED, {}, 4, FailedChecks(false), RunStep(FIX));
    VerdictAt(e, Settings(1), CHECKED, {}, 4, FailedChecks(false), WaitForHuman(BudgetExhausted));
  }

  lemma DoneWorkRuns(e: Engine, done: set<StepKey>, failed: set<StepKey>, count: nat, stored: Stored)
    requires At(e, done, failed, count, stored) && count > 0
    ensures e.status == RunStatus.RUNNING
  {
    hide TokensOrdered, ResultsSpent, AttemptsCounted, HistoryFits;
  }

  /** The same, but with a FIX that failed: the budget can be declared spent over its unchecked edits. */
  lemma FailedFixIsHandedOver() returns (actions: seq<Action>)
    ensures var e := Run(Initial(true, false), actions);
            Verdict(e, Settings(1)) == WaitForHuman(BudgetExhausted) && Touched(e)
  {
    hide At, Run, Initial, Settings, Answers, Verdict, Touched, FailedChecks;
    var start := Initial(true, false);
    actions := ChecksHaveFailed();
    FixIsRouted();
    actions := FixFails(start, actions, Settings(3), CHECKED, {}, 4, FailedChecks(false));
    AtIsReady(Run(start, actions), CHECKED, {}, 5, FailedChecks(false));
    VerdictAt(Run(start, actions), Settings(1), CHECKED, {}, 5, FailedChecks(false), WaitForHuman(BudgetExhausted));
  }

  lemma FixFails(start: Engine, actions: seq<Action>, config: Config,
                 done: set<StepKey>, failed: set<StepKey>, count: nat, stored: Stored) returns (more: seq<Action>)
    requires At(Run(start, actions), done, failed, count, stored) && count < MAX_STEP_EXECUTIONS
    requires (forall k :: k in failed ==> Optional(k)) && Answers(config, done, failed, stored, RunStep(FIX))
    ensures At(Run(start, more), done, failed, count + 1, stored) && Touched(Run(start, more))
  {
    hide Run, Verdict, Ready, Perform, Answers, Touched;
    var e := Run(start, actions);
    AtIsReady(e, done, failed, count, stored);
    VerdictAt(e, config, done, failed, count, stored, RunStep(FIX));
    Performs(e, config, StepFailed);
    FixTouches(e, config);
    GoesOn(start, actions, config, StepFailed);
    more := actions + Onward(e, config, StepFailed);
  }

  lemma FixTouches(e: Engine, config: Config)
    requires Ready(e) && Verdict(e, config) == RunStep(FIX)
    ensures Touched(Perform(e, config, StepFailed))
  {
    hide Verdict, HistoryFits, Unverified, TotalAttempts;
    var after := Perform(e, config, StepFailed);
    AdvanceClaims(e, config);
    forall n: nat | n < |e.log| ensures e.log[n].execution < |e.executions| {
      assert Spent(e, n);
    }
    assert Uncovered(after, |e.executions|);
  }

  function PassedChecks(): Stored {
    Stored(0, 1, true, false, false, false, true, true, false)
  }

  /** A configuration without a UI check, for a given number of reviews. */
  function Quiet(maxReviewCycles: int): Config {
    Config(maxReviewCycles, 3, LEVEL_3_PR, false, true)
  }

  /** Passed checks and no review left: a decision that, with reviews allowed later, can go stale too. */
  lemma UnreviewedCodeIsReached() returns (actions: seq<Action>)
    ensures var e := Run(Initial(true, true), actions);
            Verdict(e, Quiet(0)) == WaitForHuman(NotApproved) && exists more :: GoesStale(e, Quiet(0), more, 3, 3)
  {
    hide At, Run, Initial, Verdict, GoesStale, Exposed, PassedChecks, Answers;
    actions := ChecksHavePassed();
    var e := Run(Initial(true, true), actions);
    NoReviewIsLeft();
    AtIsReady(e, CHECKED, {}, 4, PassedChecks());
    VerdictAt(e, Quiet(0), CHECKED, {}, 4, PassedChecks(), WaitForHuman(NotApproved));
    PassedChecksAreExposed(e);
    EscalationCanGoStaleExactlyWhen(true, true, actions, Quiet(0), 3, 3);
  }

  lemma NoReviewIsLeft()
    ensures Answers(Quiet(0), CHECKED, {}, PassedChecks(), WaitForHuman(NotApproved))
  {
    hide FailureVerdict;
  }

  lemma PassedChecksAreExposed(e: Engine)
    requires At(e, CHECKED, {}, 4, PassedChecks())
    ensures Exposed(e, 3, 3)
  {
    hide Safe;
    DoneWorkRuns(e, CHECKED, {}, 4, PassedChecks());
  }

  function BlockedReview(): Stored {
    Stored(1, 1, true, false, false, true, true, true, false)
  }

  lemma QuietReviewIsRouted()
    ensures Patched(PassedChecks(), WorkflowEngine.Reviewed(false, true)) == BlockedReview()
    ensures Answers(Quiet(3), CHECKED, {}, PassedChecks(), RunStep(REVIEW))
  {
    hide FailureVerdict;
  }

  lemma BlockedReviewIsRouted()
    ensures Answers(Quiet(3), REVIEWED, {}, BlockedReview(), RunStep(FIX))
    ensures Answers(Settings(3), REVIEWED, {}, BlockedReview(), RunStep(UI_QA))
  {
    hide FailureVerdict;
  }

  lemma ReviewBlocks() returns (actions: seq<Action>)
    ensures At(Run(Initial(true, true), actions), REVIEWED, {}, 5, BlockedReview())
  {
    hide At, Run, Initial, Answers, PassedChecks, BlockedReview, Patched, Quiet;
    QuietReviewIsRouted();
    actions := ChecksHavePassed();
    actions := Succeeds(Initial(true, true), actions, Quiet(3), REVIEW, WorkflowEngine.Reviewed(false, true), CHECKED, {}, 4, PassedChecks());
  }

  /** With the UI check switched on after a failed FIX, it looks at the unchecked edits of that FIX. */
  lemma UiCheckSeesFailedFix() returns (actions: seq<Action>)
    ensures var e := Run(Initial(true, true), actions); Verdict(e, Settings(3)) == RunStep(UI_QA) && Touched(e)
  {
    BlockedReviewIsRouted();
    hide At, Run, Initial, Settings, Answers, Verdict, Touched, BlockedReview, Quiet;
    actions := ReviewBlocks();
    actions := FixFails(Initial(true, true), actions, Quiet(3), REVIEWED, {}, 5, BlockedReview());
    AtIsReady(Run(Initial(true, true), actions), REVIEWED, {}, 6, BlockedReview());
    VerdictAt(Run(Initial(true, true), actions), Settings(3), REVIEWED, {}, 6, BlockedReview(), RunStep(UI_QA));
  }

  function ApprovedCode(): Stored {
    Stored(1, 1, true, false, true, false, true, true, false)
  }

  const REVIEWED: set<StepKey> := CHECKED + {REVIEW}
  const NO_UI: set<StepKey> := {UI_QA}
  const NO_PAPERS: set<StepKey> := NO_UI + {DOCUMENT}
  const NOTHING_EXTRA: set<StepKey> := NO_PAPERS + {PREPARE_PR}

  lemma UiCheckIsRouted()
    ensures Answers(Settings(3), CHECKED, {}, PassedChecks(), RunStep(UI_QA))
  {
    hide FailureVerdict;
  }

  lemma ReviewIsRouted()
    ensures Answers(Settings(3), CHECKED, NO_UI, PassedChecks(), RunStep(REVIEW))
  {
    hide FailureVerdict;
  }

  lemma DocumentationIsRouted()
    ensures Answers(Settings(3), REVIEWED, NO_UI, ApprovedCode(), RunStep(DOCUMENT))
  {
    hide FailureVerdict;
  }

  lemma PullRequestIsRouted()
    ensures Answers(Settings(3), REVIEWED, NO_PAPERS, ApprovedCode(), RunStep(PREPARE_PR))
  {
    hide FailureVerdict;
  }

  lemma AtMostThreeAttempts(key: StepKey)
    ensures 1 <= MaxAttempts(key) <= 3
  {}

  lemma ChecksHavePassed() returns (actions: seq<Action>)
    ensures At(Run(Initial(true, true), actions), CHECKED, {}, 4, PassedChecks())
  {
    actions := CodeIsChecked(true, true);
    hide At, Run, Initial;
  }

  lemma ReviewApproves(start: Engine, actions: seq<Action>, count: nat) returns (more: seq<Action>)
    requires At(Run(start, actions), CHECKED, NO_UI, count, PassedChecks()) && count < MAX_STEP_EXECUTIONS
    ensures At(Run(start, more), REVIEWED, NO_UI, count + 1, ApprovedCode())
  {
    ReviewIsRouted();
    hide At, Run, Answers;
    more := Succeeds(start, actions, Settings(3), REVIEW, WorkflowEngine.Reviewed(true, false), CHECKED, NO_UI, count, PassedChecks());
  }

  lemma UiCheckIsGivenUp() returns (actions: seq<Action>, count: nat)
    ensures At(Run(Initial(true, true), actions), CHECKED, NO_UI, count, PassedChecks()) && 4 <= count <= 7
  {
    hide At, Run, Initial, Settings, Answers, PassedChecks, MaxAttempts;
    actions := ChecksHavePassed();
    UiCheckIsRouted();
    AtMostThreeAttempts(UI_QA);
    var tries: nat;
    actions, tries := FailsForGood(Initial(true, true), actions, Settings(3), UI_QA, CHECKED, {}, 4, PassedChecks());
    assert {} + {UI_QA} == NO_UI;
    count := 4 + tries;
  }

  lemma DocumentationIsGivenUp() returns (actions: seq<Action>, count: nat)
    ensures At(Run(Initial(true, true), actions), REVIEWED, NO_PAPERS, count, ApprovedCode()) && 4 <= count <= 11
  {
    hide At, Run, Initial, Settings, Answers, PassedChecks, ApprovedCode, MaxAttempts;
    actions, count := UiCheckIsGivenUp();
    actions := ReviewApproves(Initial(true, true), actions, count);
    DocumentationIsRouted();
    AtMostThreeAttempts(DOCUMENT);
    var tries: nat;
    actions, tries := FailsForGood(Initial(true, true), actions, Settings(3), DOCUMENT, REVIEWED, NO_UI, count + 1, ApprovedCode());
    count := count + 1 + tries;
  }

  /** A run in which the UI check, the documentation and the pull request have all been given up. */
  lemma OptionalStepsAreGivenUp() returns (actions: seq<Action>, count: nat)
    ensures At(Run(Initial(true, true), actions), REVIEWED, NOTHING_EXTRA, count, ApprovedCode()) && 4 <= count <= 14
  {
    hide At, Run, Initial, Settings, Answers, ApprovedCode, MaxAttempts;
    actions, count := DocumentationIsGivenUp();
    PullRequestIsRouted();
    AtMostThreeAttempts(PREPARE_PR);
    var tries: nat;
    actions, tries := FailsForGood(Initial(true, true), actions, Settings(3), PREPARE_PR, REVIEWED, NO_PAPERS, count, ApprovedCode());
    count := count + tries;
  }

  lemma AtLooks(e: Engine, config: Config, done: set<StepKey>, failed: set<StepKey>, count: nat, stored: Stored)
    requires At(e, done, failed, count, stored) && count > 0 && forall k :: k in failed ==> Optional(k)
    ensures Looks(StateOf(e, config), config, done, failed, stored)
    ensures forall k :: k in failed ==> GivenUp(e, k)
  {
    DoneWorkRuns(e, done, failed, count, stored);
    hide Done, FailedForGood, Safe;
  }

  /** There each of the three steps would be asked for again, were it not for its guard. */
  lemma GuardsAreReached(key: StepKey) returns (actions: seq<Action>)
    requires Optional(key)
    ensures var e := Run(Initial(true, true), actions);
            GivenUp(e, key) && Unguarded(StateOf(e, Settings(3)), key) == RunStep(key)
  {
    var count: nat;
    hide At, Run, Initial, Looks, GivenUp, StateOf;
    actions, count := OptionalStepsAreGivenUp();
    var e := Run(Initial(true, true), actions);
    AtLooks(e, Settings(3), REVIEWED, NOTHING_EXTRA, count, ApprovedCode());
    hide ApprovedCode, Settings;
    UnguardedIsRouted(StateOf(e, Settings(3)), key);
  }

  lemma UnguardedIsRouted(s: WorkflowState, key: StepKey)
    requires Optional(key) && Looks(s, Settings(3), REVIEWED, NOTHING_EXTRA, ApprovedCode())
    ensures Unguarded(s, key) == RunStep(key)
  {
    hide Decide, Answers, FailureVerdict;
    OptionalFailuresDoNotDecide(s.failedSteps, key);
    OptionalStepIsRouted(key);
    LiftedGuardLooks(s, key, Settings(3), REVIEWED, NOTHING_EXTRA, ApprovedCode());
    AnswerIsGiven(s.(failedSteps := Without(s.failedSteps, key)), NOTHING_EXTRA - {key}, RunStep(key));
  }

  lemma LiftedGuardLooks(s: WorkflowState, key: StepKey, config: Config, done: set<StepKey>, failed: set<StepKey>, stored: Stored)
    requires Optional(key) && Looks(s, config, done, failed, stored)
    ensures Looks(s.(failedSteps := Without(s.failedSteps, key)), config, done, failed - {key}, stored)
  {
    hide FailureVerdict, Without;
    OptionalFailuresDoNotDecide(s.failedSteps, key);
  }

  lemma AnswerIsGiven(s: WorkflowState, failed: set<StepKey>, decision: Decision)
    requires Looks(s, Settings(3), REVIEWED, failed, ApprovedCode()) && Answers(Settings(3), REVIEWED, failed, ApprovedCode(), decision)
    ensures Decide(s) == decision
  {
    hide Decide, Looks;
  }

  lemma OptionalStepIsRouted(key: StepKey)
    requires Optional(key)
    ensures Answers(Settings(3), REVIEWED, NOTHING_EXTRA - {key}, ApprovedCode(), RunStep(key))
  {
    hide FailureVerdict;
  }

  // -- a run that succeeds ---------------------------------------------------------------------

  const INSPECTED: set<StepKey> := CHECKED + {UI_QA}
  const ACCEPTED: set<StepKey> := INSPECTED + {REVIEW}
  const DOCUMENTED: set<StepKey> := ACCEPTED + {DOCUMENT}
  const PUBLISHED: set<StepKey> := DOCUMENTED + {PREPARE_PR}
  const COMPLETED: set<StepKey> := PUBLISHED + {COMPLETE}

  lemma FirstReviewIsRouted()
    ensures Patched(PassedChecks(), UiReviewed(false)) == PassedChecks()
    ensures Patched(PassedChecks(), WorkflowEngine.Reviewed(true, false)) == ApprovedCode()
    ensures Answers(Settings(3), INSPECTED, {}, PassedChecks(), RunStep(REVIEW))
  {
    hide FailureVerdict;
  }

  lemma WritingIsRouted()
    ensures Answers(Settings(3), ACCEPTED, {}, ApprovedCode(), RunStep(DOCUMENT))
  {
    hide FailureVerdict;
  }

  lemma PublishingIsRouted()
    ensures Answers(Settings(3), DOCUMENTED, {}, ApprovedCode(), RunStep(PREPARE_PR))
  {
    hide FailureVerdict;
  }

  lemma GateIsRouted()
    ensures Answers(Settings(3), PUBLISHED, {}, ApprovedCode(), RunStep(COMPLETE))
  {
    hide FailureVerdict;
  }

  lemma EndIsRouted()
    ensures Answers(Settings(3), COMPLETED, {}, ApprovedCode(), Completed)
  {
    hide FailureVerdict;
  }

  lemma UiCheckFindsNothing() returns (actions: seq<Action>)
    ensures At(Run(Initial(true, true), actions), INSPECTED, {}, 5, PassedChecks())
  {
    hide At, Run, Initial, Settings, Answers, PassedChecks, ApprovedCode, Patched;
    UiCheckIsRouted();
    FirstReviewIsRouted();
    actions := ChecksHavePassed();
    actions := Succeeds(Initial(true, true), actions, Settings(3), UI_QA, UiReviewed(false), CHECKED, {}, 4, PassedChecks());
  }

  lemma ReviewAccepts() returns (actions: seq<Action>)
    ensures At(Run(Initial(true, true), actions), ACCEPTED, {}, 6, ApprovedCode())
  {
    hide At, Run, Initial, Settings, Answers, PassedChecks, ApprovedCode, Patched;
    FirstReviewIsRouted();
    actions := UiCheckFindsNothing();
    actions := Succeeds(Initial(true, true), actions, Settings(3), REVIEW, WorkflowEngine.Reviewed(true, false), INSPECTED, {}, 5, PassedChecks());
  }

  lemma WorkIsDelivered() returns (actions: seq<Action>)
    ensures At(Run(Initial(true, true), actions), COMPLETED, {}, 9, ApprovedCode())
  {
    hide At, Run, Initial, Settings, Answers, ApprovedCode;
    actions := ReviewAccepts();
    WritingIsRouted();
    actions := Succeeds(Initial(true, true), actions, Settings(3), DOCUMENT, StepDone, ACCEPTED, {}, 6, ApprovedCode());
    PublishingIsRouted();
    actions := Succeeds(Initial(true, true), actions, Settings(3), PREPARE_PR, StepDone, DOCUMENTED, {}, 7, ApprovedCode());
    GateIsRouted();
    actions := Succeeds(Initial(true, true), actions, Settings(3), COMPLETE, StepDone, PUBLISHED, {}, 8, ApprovedCode());
  }

  /** A run from the start in which every step succeeds and the run with them. */
  lemma SuccessIsReached() returns (actions: seq<Action>)
    ensures Run(Initial(true, true), actions).status == RunStatus.SUCCEEDED
  {
    hide At, Initial, Settings, Answers, ApprovedCode, Verdict, Ready;
    var worked := WorkIsDelivered();
    var e := Run(Initial(true, true), worked);
    EndIsRouted();
    AtIsReady(e, COMPLETED, {}, 9, ApprovedCode());
    VerdictAt(e, Settings(3), COMPLETED, {}, 9, ApprovedCode(), Completed);
    DoneWorkRuns(e, COMPLETED, {}, 9, ApprovedCode());
    var decide, commit := AdvanceRun(Settings(3), false, false), CommitEnding(|e.endings|);
    actions := worked + ([decide] + [] + [commit]);
    RunAppends(Initial(true, true), worked, [decide] + [] + [commit]);
    CommitsAfter(e, decide, [], commit);
    CommitGivesStatus(Step(e, decide), |e.endings|);
  }
}
