/**
 When a worker that has decided that a budget is spent, and stalls before it commits, can end
 the run on code that changed since its last check.
 */
module EngineStaleness {
  import opened EngineeringRouter
  import opened Statuses
  import opened WorkflowEngine
  import opened EngineClaims
  import opened EngineSafety
  import opened EngineBudget
  import opened EngineEndings
  import opened Wrappers

  // -- room for another FIX -------------------------------------------------------------------

  ghost predicate UiOpen(rows: seq<Row>) {
    !Done(rows, UI_QA) && !FailedForGood(rows, UI_QA)
  }

  /** A UI check may still find something that a FIX then works on: two claims, or one if the check is under way. */
  ghost predicate UiRoom(e: Engine, maxReviewCycles: int) {
    && UiOpen(e.rows) && e.stored.reviewCycle < maxReviewCycles
    && |e.executions| + (if e.current == Some(UI_QA) then 1 else 2) <= MAX_STEP_EXECUTIONS
  }

  /** So may a review, which takes a review cycle of its own. */
  predicate ReviewRoom(e: Engine, maxReviewCycles: int) {
    && e.stored.reviewCycle + 1 < maxReviewCycles
    && |e.executions| + (if e.current in {Some(REVIEW), Some(FINAL_REVIEW)} then 1 else 2) <= MAX_STEP_EXECUTIONS
  }

  ghost predicate FixRoom(e: Engine, maxAttempts: int, maxReviewCycles: int) {
    && e.stored.attempt < maxAttempts
    && if Unfixed(e.stored) then e.stored.reviewCycle < maxReviewCycles && |e.executions| < MAX_STEP_EXECUTIONS
       else !e.stored.reviewApproved && (UiRoom(e, maxReviewCycles) || ReviewRoom(e, maxReviewCycles))
  }

  /** A FIX is under way, or these budgets leave room for one. A worker could look this up when it decides. */
  ghost predicate Exposed(e: Engine, maxAttempts: int, maxReviewCycles: int) {
    e.status == RunStatus.RUNNING && (e.current == Some(FIX) || FixRoom(e, maxAttempts, maxReviewCycles))
  }

  // -- without room ---------------------------------------------------------------------------

  /** The code is checked, no FIX is under way and, within these budgets, none can start. */
  ghost predicate Calm(e: Engine, maxAttempts: int, maxReviewCycles: int) {
    && Safe(e) && !e.stored.verificationPending && Done(e.rows, RUN_TESTS)
    && e.status != RunStatus.PENDING && !Exposed(e, maxAttempts, maxReviewCycles)
  }

  lemma UiOnlyCloses(e: Engine, a: Action)
    requires Safe(e)
    ensures UiOpen(Step(e, a).rows) ==> UiOpen(e.rows)
  {
    StepProgress(e, a, UI_QA);
  }

  lemma CalmClaim(e: Engine, config: Config, leaseExpired: bool, maxAttempts: int, maxReviewCycles: int)
    requires Calm(e, maxAttempts, maxReviewCycles) && Verdict(e, config).RunStep? && MayClaim(e, Verdict(e, config).key, leaseExpired)
    requires config.maxAttempts <= maxAttempts && config.maxReviewCycles <= maxReviewCycles
    ensures !Exposed(Claim(e, Verdict(e, config).key, config), maxAttempts, maxReviewCycles)
  {
    hide Verdict, TotalAttempts, TokensOrdered, OneRunningRow, ResultsSpent, HistoryFits, Prepared, Done, FailedForGood, ReusableRow;
    DecisionIsJustified(e, config, 0, 0);
    VerdictBelowCap(e, config);
    UiOnlyCloses(e, AdvanceRun(config, leaseExpired, false));
  }

  /** What can still be under way on checked code in need of no FIX. */
  lemma CalmHolder(e: Engine, x: nat)
    requires Safe(e) && HoldsClaim(e, x) && !e.stored.verificationPending && Done(e.rows, RUN_TESTS)
    ensures e.executions[x].base == e.stored && e.executions[x].key !in {IMPLEMENT, RUN_TESTS, RETEST}
    ensures e.executions[x].key == UI_QA ==> UiOpen(e.rows)
    ensures e.executions[x].key in {REVIEW, FINAL_REVIEW} ==> !Unfixed(e.stored) && !e.stored.reviewApproved
  {
    hide HistoryFits, Unverified, TotalAttempts;
    HolderIsNewest(e, x);
    HeldStepIsOpen(e, x);
    CompletedStepIsPrepared(e, RUN_TESTS);
    assert ExecutionJustified(e, x);
  }

  lemma CalmPersist(e: Engine, x: nat, outcome: Outcome, maxAttempts: int, maxReviewCycles: int)
    requires Calm(e, maxAttempts, maxReviewCycles) && HoldsClaim(e, x) && CanReturn(e.executions[x].key, outcome)
    ensures Calm(Persist(e, x, outcome, false), maxAttempts, maxReviewCycles)
  {
    hide Safe, Done, FailedForGood;
    var a := PersistResult(x, outcome, false);
    PersistKeepsSafe(e, x, outcome);
    StepProgress(e, a, RUN_TESTS);
    UiOnlyCloses(e, a);
    CalmHolder(e, x);
    if e.executions[x].key == UI_QA && outcome.UiReviewed? {
      UiCheckCloses(e, x, outcome);
    }
  }

  lemma UiCheckCloses(e: Engine, x: nat, outcome: Outcome)
    requires Safe(e) && HoldsClaim(e, x) && e.executions[x].key == UI_QA && outcome.UiReviewed?
    ensures !UiOpen(Persist(e, x, outcome, false).rows)
  {
    assert TokenFits(e, x);
    PersistProgress(e, x, outcome);
  }

  lemma CalmStep(e: Engine, a: Action, maxAttempts: int, maxReviewCycles: int)
    requires Calm(e, maxAttempts, maxReviewCycles) && SettingsWithin([a], maxAttempts, maxReviewCycles)
    ensures Calm(Step(e, a), maxAttempts, maxReviewCycles)
  {
    hide Safe, Verdict, ReusableRow, CancelRunning, Done, UiOpen;
    assert [a][0] == a;
    StepKeepsSafe(e, a);
    StepProgress(e, a, RUN_TESTS);
    UiOnlyCloses(e, a);
    if a.PersistResult? && HoldsClaim(e, a.execution) && !a.refused && CanReturn(e.executions[a.execution].key, a.outcome) {
      CalmPersist(e, a.execution, a.outcome, maxAttempts, maxReviewCycles);
    } else if a.AdvanceRun? && e.status == RunStatus.RUNNING && Verdict(e, a.config).RunStep? && MayClaim(e, Verdict(e, a.config).key, a.leaseExpired) {
      CalmClaim(e, a.config, a.leaseExpired, maxAttempts, maxReviewCycles);
    }
  }

  lemma {:induction false} CalmRun(e: Engine, actions: seq<Action>, maxAttempts: int, maxReviewCycles: int)
    requires Calm(e, maxAttempts, maxReviewCycles) && SettingsWithin(actions, maxAttempts, maxReviewCycles)
    ensures Calm(Run(e, actions), maxAttempts, maxReviewCycles)
  {
    hide Calm, Step;
    if actions != [] {
      CalmRun(e, actions[..|actions| - 1], maxAttempts, maxReviewCycles);
      CalmStep(Run(e, actions[..|actions| - 1]), actions[|actions| - 1], maxAttempts, maxReviewCycles);
    }
  }

  lemma CalmIsVerified(e: Engine, maxAttempts: int, maxReviewCycles: int)
    requires Calm(e, maxAttempts, maxReviewCycles)
    ensures !Unverified(e.log)
  {
    hide ClaimsSound, HistoryFits, Unverified;
  }

  /** A decision for a spent budget is calm within any budgets that leave no room. */
  lemma SpentBudgetIsCalm(e: Engine, config: Config, maxAttempts: int, maxReviewCycles: int)
    requires Safe(e) && BudgetSpent(Verdict(e, config)) && !Exposed(e, maxAttempts, maxReviewCycles)
    ensures Calm(e, maxAttempts, maxReviewCycles)
  {
    hide Verdict, HistoryFits, Unverified, TotalAttempts;
    VerdictFits(e, config);
  }

  /** Within the budgets it was decided on, only a FIX under way leaves room. */
  lemma OwnBudgetsLeaveNoRoom(e: Engine, config: Config)
    requires Safe(e) && BudgetSpent(Verdict(e, config))
    ensures Exposed(e, config.maxAttempts, config.maxReviewCycles) ==> FixUnderWay(e)
  {
    hide Done, FailedForGood, TotalAttempts, Safe, Unverified;
    VerdictFits(e, config);
  }

  ghost predicate FixUnderWay(e: Engine) {
    e.status == RunStatus.RUNNING && e.current == Some(FIX)
  }

  /**
   A budget escalation always commits on checked code when no FIX was under way at its
   decision and no worker used larger budgets before the commit.
   */
  lemma EscalationWithinBudgetsIsVerified(skipPlanning: bool, createPullRequest: bool, actions: seq<Action>, config: Config, more: seq<Action>)
    requires var e := Run(Initial(skipPlanning, createPullRequest), actions);
             BudgetSpent(Verdict(e, config)) && !FixUnderWay(e)
    requires SettingsWithin(more, config.maxAttempts, config.maxReviewCycles)
    ensures !Unverified(Run(Run(Initial(skipPlanning, createPullRequest), actions), more).log)
  {
    hide Run, Verdict, Unverified, Calm, Exposed;
    var e := Run(Initial(skipPlanning, createPullRequest), actions);
    RunIsSafe(skipPlanning, createPullRequest, actions);
    hide Safe;
    OwnBudgetsLeaveNoRoom(e, config);
    SpentBudgetIsCalm(e, config, config.maxAttempts, config.maxReviewCycles);
    CalmRun(e, more, config.maxAttempts, config.maxReviewCycles);
    CalmIsVerified(Run(e, more), config.maxAttempts, config.maxReviewCycles);
  }

  // -- with room ------------------------------------------------------------------------------

  /** After these actions the run is still open, and its code unchecked. */
  ghost predicate Strays(e: Engine, more: seq<Action>, maxAttempts: int, maxReviewCycles: int) {
    && SettingsWithin(more, maxAttempts, maxReviewCycles)
    && Claimable(Run(e, more).status) && Unverified(Run(e, more).log)
  }

  ghost predicate CanStray(e: Engine, maxAttempts: int, maxReviewCycles: int) {
    exists more :: Strays(e, more, maxAttempts, maxReviewCycles)
  }

  lemma StrayingComesFirst(e: Engine, a: Action, maxAttempts: int, maxReviewCycles: int)
    requires CanStray(Step(e, a), maxAttempts, maxReviewCycles) && SettingsWithin([a], maxAttempts, maxReviewCycles)
    ensures CanStray(e, maxAttempts, maxReviewCycles)
  {
    hide Step;
    var more :| Strays(Step(e, a), more, maxAttempts, maxReviewCycles);
    OneStep(e, a);
    RunAppends(e, [a], more);
    assert Strays(e, [a] + more, maxAttempts, maxReviewCycles);
  }

  /** The claim of a step under way is held by the newest execution. */
  lemma NewestHolds(e: Engine)
    requires ClaimsSound(e) && e.status == RunStatus.RUNNING && e.current.Some?
    ensures |e.executions| > 0 && HoldsClaim(e, |e.executions| - 1) && e.executions[|e.executions| - 1].key == e.current.value
    ensures e.executions[|e.executions| - 1].base == e.stored
  {
    hide TokensOrdered, ResultsSpent, AttemptsCounted;
  }

  /** A run past its first checks, and a level at which the router goes on. */
  ghost predicate Developed(e: Engine, level: PermissionLevel) {
    && Safe(e) && e.status == RunStatus.RUNNING && !e.stored.cancelled && !e.stored.verificationPending
    && (forall k :: FailedForGood(e.rows, k) ==> Optional(k))
    && Prepared(e.rows, FIX, e.stored.skipPlanning) && PermissionAtLeast(level, LEVEL_2_CODE)
  }

  lemma SpentBudgetIsDeveloped(e: Engine, config: Config)
    requires Safe(e) && BudgetSpent(Verdict(e, config)) && e.status == RunStatus.RUNNING
    ensures Developed(e, config.permissionLevel)
    ensures Verdict(e, config) == WaitForHuman(NotApproved) ==> !Unfixed(e.stored) && !e.stored.reviewApproved
    ensures Verdict(e, config) == WaitForHuman(BudgetExhausted) ==> Unfixed(e.stored)
  {
    hide Done, FailedForGood, TotalAttempts, Safe, Unverified;
    VerdictFits(e, config);
    var s := StateOf(e, config);
    assert FailureVerdict(s.failedSteps) == Completed;
    forall k | FailedForGood(e.rows, k) ensures Optional(k) {
      assert k in s.failedSteps;
    }
  }

  /** With nothing left before the verdicts of checks and reviews, the router goes by them. */
  lemma DecidesByVerdicts(s: WorkflowState)
    requires !s.cancelled && FailureVerdict(s.failedSteps) == Completed && PermissionAtLeast(s.permissionLevel, LEVEL_2_CODE)
    requires forall k :: k in Prerequisites(FIX, s.skipPlanning) ==> k in s.completedSteps
    ensures s.uiQaEnabled && s.testsPassed && UI_QA !in s.completedSteps && UI_QA !in s.failedSteps ==> Decide(s) == RunStep(UI_QA)
    ensures !s.uiQaEnabled && NeedsFix(s) && !s.verificationPending && s.attempt < s.maxAttempts && s.reviewCycle < s.maxReviewCycles ==>
      Decide(s) == RunStep(FIX)
    ensures !s.uiQaEnabled && !NeedsFix(s) && !s.reviewApproved && s.reviewCycle < s.maxReviewCycles ==>
      Decide(s) == RunStep(REVIEW) || Decide(s) == RunStep(FINAL_REVIEW)
  {
    hide FailureVerdict;
  }

  /** A developed run has nothing left before them. */
  lemma RoutedByVerdicts(e: Engine, config: Config)
    requires Developed(e, config.permissionLevel) && |e.executions| < MAX_STEP_EXECUTIONS
    ensures config.uiQaEnabled && e.stored.testsPassed && UiOpen(e.rows) ==> Verdict(e, config) == RunStep(UI_QA)
    ensures !config.uiQaEnabled && Unfixed(e.stored) && e.stored.attempt < config.maxAttempts && e.stored.reviewCycle < config.maxReviewCycles ==>
      Verdict(e, config) == RunStep(FIX)
    ensures !config.uiQaEnabled && !Unfixed(e.stored) && !e.stored.reviewApproved && e.stored.reviewCycle < config.maxReviewCycles ==>
      Verdict(e, config) == RunStep(REVIEW) || Verdict(e, config) == RunStep(FINAL_REVIEW)
  {
    assert TotalAttempts(e.rows) == |e.executions| by { DevelopedRuns(e, config.permissionLevel); }
    hide Decide, Done, FailedForGood, TotalAttempts, Safe, Prerequisites;
    var s := StateOf(e, config);
    assert FailureVerdict(s.failedSteps) == Completed;
    assert forall k :: k in Prerequisites(FIX, e.stored.skipPlanning) ==> k in s.completedSteps;
    DecidesByVerdicts(s);
  }

  /** A step that neither stops the run nor stores a failure or a change keeps the run developed. */
  lemma DevelopedStep(e: Engine, a: Action, level: PermissionLevel)
    requires Developed(e, level) && !a.StopRun? && Step(e, a).status == RunStatus.RUNNING
    requires a.PersistResult? ==> a.outcome.UiReviewed? || a.outcome.Reviewed?
    ensures Developed(Step(e, a), level)
  {
    hide Safe, Verdict, ReusableRow, Done, FailedForGood;
    StepKeepsSafe(e, a);
    forall k ensures (FailedForGood(Step(e, a).rows, k) ==> Optional(k)) && (Done(e.rows, k) ==> Done(Step(e, a).rows, k)) {
      StepProgress(e, a, k);
    }
    if a.PersistResult? && HoldsClaim(e, a.execution) {
      HolderKeepsState(e, a.execution);
    }
  }

  lemma FixStrays(e: Engine, maxAttempts: int, maxReviewCycles: int)
    requires ClaimsSound(e) && FixUnderWay(e)
    ensures CanStray(e, maxAttempts, maxReviewCycles)
  {
    NewestHolds(e);
    hide ClaimsSound;
    var a := PersistResult(|e.executions| - 1, CodeChanged, false);
    OneStep(e, a);
    assert Strays(e, [a], maxAttempts, maxReviewCycles);
  }

  /** The settings a later worker may use: these budgets, the same level, and the UI check switched on or off. */
  function Later(level: PermissionLevel, maxAttempts: int, maxReviewCycles: int, ui: bool): Config {
    Config(maxReviewCycles, maxAttempts, level, ui, false)
  }

  /** What the router asks for when nothing is under way is claimed. */
  lemma Claims(e: Engine, config: Config)
    requires Developed(e, config.permissionLevel) && e.current == None && Verdict(e, config).RunStep?
    ensures var f := Step(e, AdvanceRun(config, false, false));
      && Developed(f, config.permissionLevel) && f.current == Some(Verdict(e, config).key)
      && f.stored == e.stored && |f.executions| == |e.executions| + 1
    ensures SettingsWithin([AdvanceRun(config, false, false)], config.maxAttempts, config.maxReviewCycles)
  {
    hide Developed, Verdict, ReusableRow;
    var a := AdvanceRun(config, false, false);
    assert [a][0] == a;
    assert e.status == RunStatus.RUNNING by { DevelopedRuns(e, config.permissionLevel); }
    DevelopedStep(e, a, config.permissionLevel);
  }

  lemma DevelopedRuns(e: Engine, level: PermissionLevel)
    requires Developed(e, level)
    ensures e.status == RunStatus.RUNNING && ClaimsSound(e)
  {
    hide ClaimsSound;
  }

  /** Whatever is under way can be given back. */
  lemma Frees(e: Engine, level: PermissionLevel)
    requires Developed(e, level) && e.current.Some?
    ensures |e.executions| > 0
    ensures var f := Step(e, ReleaseClaim(|e.executions| - 1));
      Developed(f, level) && f.current == None && f.stored == e.stored && f.executions == e.executions
  {
    hide Developed;
    DevelopedRuns(e, level);
    NewestHolds(e);
    hide ClaimsSound;
    DevelopedStep(e, ReleaseClaim(|e.executions| - 1), level);
  }

  /** Checks that failed, or open findings, with room in the budgets. */
  lemma UnfixedStrays(e: Engine, level: PermissionLevel, maxAttempts: int, maxReviewCycles: int)
    requires Developed(e, level) && Unfixed(e.stored) && e.current == None
    requires e.stored.attempt < maxAttempts && e.stored.reviewCycle < maxReviewCycles && |e.executions| < MAX_STEP_EXECUTIONS
    ensures CanStray(e, maxAttempts, maxReviewCycles)
  {
    hide Developed, Verdict, CanStray, Step;
    var config := Later(level, maxAttempts, maxReviewCycles, false);
    var claim := AdvanceRun(config, false, false);
    RoutedByVerdicts(e, config);
    Claims(e, config);
    DevelopedRuns(Step(e, claim), level);
    FixStrays(Step(e, claim), maxAttempts, maxReviewCycles);
    StrayingComesFirst(e, claim, maxAttempts, maxReviewCycles);
  }

  /** The step under way comes back with findings that block. */
  lemma FindingStrays(e: Engine, level: PermissionLevel, outcome: Outcome, maxAttempts: int, maxReviewCycles: int)
    requires Developed(e, level) && e.current.Some? && CanReturn(e.current.value, outcome)
    requires outcome == UiReviewed(true) || outcome == Outcome.Reviewed(false, true)
    requires !Unfixed(e.stored) && !e.stored.reviewApproved && e.stored.attempt < maxAttempts && |e.executions| < MAX_STEP_EXECUTIONS
    requires e.stored.reviewCycle + (if outcome.Reviewed? then 1 else 0) < maxReviewCycles
    ensures CanStray(e, maxAttempts, maxReviewCycles)
  {
    hide Developed, CanStray;
    DevelopedRuns(e, level);
    NewestHolds(e);
    hide ClaimsSound;
    var found := PersistResult(|e.executions| - 1, outcome, false);
    assert [found][0] == found;
    DevelopedStep(e, found, level);
    UnfixedStrays(Step(e, found), level, maxAttempts, maxReviewCycles);
    StrayingComesFirst(e, found, maxAttempts, maxReviewCycles);
  }

  /** A run in need of no FIX, with nothing under way. */
  lemma FreeRoomStrays(e: Engine, level: PermissionLevel, maxAttempts: int, maxReviewCycles: int)
    requires Developed(e, level) && !Unfixed(e.stored) && !e.stored.reviewApproved && e.current == None
    requires e.stored.attempt < maxAttempts && (UiRoom(e, maxReviewCycles) || ReviewRoom(e, maxReviewCycles))
    ensures CanStray(e, maxAttempts, maxReviewCycles)
  {
    hide Developed, Verdict, CanStray, Step, UiOpen;
    var ui := UiRoom(e, maxReviewCycles);
    var config := Later(level, maxAttempts, maxReviewCycles, ui);
    var claim := AdvanceRun(config, false, false);
    RoutedByVerdicts(e, config);
    Claims(e, config);
    FindingStrays(Step(e, claim), level, if ui then UiReviewed(true) else Outcome.Reviewed(false, true), maxAttempts, maxReviewCycles);
    StrayingComesFirst(e, claim, maxAttempts, maxReviewCycles);
  }

  /** Room for a FIX, whatever is under way. */
  lemma RoomStrays(e: Engine, level: PermissionLevel, maxAttempts: int, maxReviewCycles: int)
    requires Developed(e, level) && FixRoom(e, maxAttempts, maxReviewCycles)
    ensures CanStray(e, maxAttempts, maxReviewCycles)
  {
    hide Developed, CanStray, Step, UiOpen;
    if !Unfixed(e.stored) && e.current == Some(UI_QA) && UiRoom(e, maxReviewCycles) {
      FindingStrays(e, level, UiReviewed(true), maxAttempts, maxReviewCycles);
    } else if !Unfixed(e.stored) && e.current in {Some(REVIEW), Some(FINAL_REVIEW)} && ReviewRoom(e, maxReviewCycles) {
      FindingStrays(e, level, Outcome.Reviewed(false, true), maxAttempts, maxReviewCycles);
    } else if e.current == None {
      FreedRoomStrays(e, level, maxAttempts, maxReviewCycles);
    } else {
      Frees(e, level);
      var free := ReleaseClaim(|e.executions| - 1);
      assert [free][0] == free;
      assert UiOpen(e.rows) ==> UiOpen(Step(e, free).rows) by { ReleaseKeepsUi(e, level); }
      FreedRoomStrays(Step(e, free), level, maxAttempts, maxReviewCycles);
      StrayingComesFirst(e, free, maxAttempts, maxReviewCycles);
    }
  }

  lemma FreedRoomStrays(e: Engine, level: PermissionLevel, maxAttempts: int, maxReviewCycles: int)
    requires Developed(e, level) && FixRoom(e, maxAttempts, maxReviewCycles) && e.current == None
    ensures CanStray(e, maxAttempts, maxReviewCycles)
  {
    hide Developed, CanStray, UiOpen;
    if Unfixed(e.stored) {
      UnfixedStrays(e, level, maxAttempts, maxReviewCycles);
    } else {
      FreeRoomStrays(e, level, maxAttempts, maxReviewCycles);
    }
  }

  lemma ReleaseKeepsUi(e: Engine, level: PermissionLevel)
    requires Developed(e, level) && e.current.Some? && |e.executions| > 0
    ensures UiOpen(e.rows) ==> UiOpen(Step(e, ReleaseClaim(|e.executions| - 1)).rows)
  {
    DevelopedRuns(e, level);
    NewestHolds(e);
    hide Developed, ClaimsSound;
    var row := e.executions[|e.executions| - 1].row;
    RowOf(e.rows, row, Release(e, |e.executions| - 1).rows[row], UI_QA);
  }

  // -- the decision, what happens next, and the commit ------------------------------------------

  /** A worker decides, others work within these budgets, and the commit then ends the run on unchecked code. */
  ghost predicate GoesStale(e: Engine, config: Config, more: seq<Action>, maxAttempts: int, maxReviewCycles: int) {
    && SettingsWithin(more, maxAttempts, maxReviewCycles)
    && var f := Run(e, [AdvanceRun(config, false, false)] + more + [CommitEnding(|e.endings|)]);
       f.status == RunStatus.WAITING_FOR_HUMAN && Unverified(f.log)
  }

  lemma CommitsAfter(e: Engine, decide: Action, more: seq<Action>, commit: Action)
    ensures Run(e, [decide] + more + [commit]) == Step(Run(Step(e, decide), more), commit)
  {
    OneStep(e, decide);
    RunAppends(e, [decide], more);
    RunAppends(e, [decide] + more, [commit]);
    OneStep(Run(e, [decide] + more), commit);
  }

  lemma {:induction false} EndingsStay(e: Engine, actions: seq<Action>)
    ensures e.endings <= Run(e, actions).endings
  {
    hide Step;
    if actions != [] {
      EndingsStay(e, actions[..|actions| - 1]);
      StepGrows(Run(e, actions[..|actions| - 1]), actions[|actions| - 1]);
    }
  }

  /** The decision only adds itself to the history. */
  lemma Decides(e: Engine, config: Config)
    requires Safe(e) && BudgetSpent(Verdict(e, config))
    ensures e.status != RunStatus.PENDING
    ensures Step(e, AdvanceRun(config, false, false)) ==
      if Claimable(e.status) then e.(endings := e.endings + [Ending(Verdict(e, config), |e.log|)]) else e
  {
    assert e.status == RunStatus.PENDING ==> e.rows == [];
    VerdictFits(e, config);
    hide Verdict, Safe;
  }

  lemma ExposedGoesStale(e: Engine, config: Config, maxAttempts: int, maxReviewCycles: int)
    requires Safe(e) && BudgetSpent(Verdict(e, config)) && Exposed(e, maxAttempts, maxReviewCycles)
    ensures exists more :: GoesStale(e, config, more, maxAttempts, maxReviewCycles)
  {
    hide Safe, Verdict, Developed, FixRoom, Step, Unverified;
    var decide, commit := AdvanceRun(config, false, false), CommitEnding(|e.endings|);
    Decides(e, config);
    var d := Step(e, decide);
    DecidedStrays(e, d, config, maxAttempts, maxReviewCycles);
    var more :| Strays(d, more, maxAttempts, maxReviewCycles);
    EndingsStay(d, more);
    CommitsAfter(e, decide, more, commit);
    CommitEnds(Run(d, more), |e.endings|);
    assert GoesStale(e, config, more, maxAttempts, maxReviewCycles);
  }

  lemma CommitEnds(e: Engine, n: nat)
    requires n < |e.endings| && BudgetSpent(e.endings[n].verdict) && Claimable(e.status)
    ensures Step(e, CommitEnding(n)).status == RunStatus.WAITING_FOR_HUMAN && Step(e, CommitEnding(n)).log == e.log
  {}

  lemma DecidedStrays(e: Engine, d: Engine, config: Config, maxAttempts: int, maxReviewCycles: int)
    requires Safe(e) && BudgetSpent(Verdict(e, config)) && Exposed(e, maxAttempts, maxReviewCycles)
    requires d == e.(endings := d.endings)
    ensures CanStray(d, maxAttempts, maxReviewCycles)
  {
    hide Safe, Verdict, Developed, CanStray, UiOpen;
    RestatusKeepsSafe(e, d);
    if FixUnderWay(d) {
      SafeIsSound(d);
      FixStrays(d, maxAttempts, maxReviewCycles);
    } else {
      EndingsDoNotCount(e, d, config);
      SpentBudgetIsDeveloped(d, config);
      RoomStrays(d, config.permissionLevel, maxAttempts, maxReviewCycles);
    }
  }

  lemma UnexposedStaysVerified(e: Engine, config: Config, more: seq<Action>, maxAttempts: int, maxReviewCycles: int)
    requires Safe(e) && BudgetSpent(Verdict(e, config)) && !Exposed(e, maxAttempts, maxReviewCycles)
    ensures !GoesStale(e, config, more, maxAttempts, maxReviewCycles)
  {
    hide Safe, Verdict, Run, Step, Unverified, Calm;
    if SettingsWithin(more, maxAttempts, maxReviewCycles) {
      var decide, commit := AdvanceRun(config, false, false), CommitEnding(|e.endings|);
      Decides(e, config);
      SpentBudgetIsCalm(e, config, maxAttempts, maxReviewCycles);
      DecidingStaysCalm(e, Step(e, decide), maxAttempts, maxReviewCycles);
      CalmRun(Step(e, decide), more, maxAttempts, maxReviewCycles);
      CalmStep(Run(Step(e, decide), more), commit, maxAttempts, maxReviewCycles);
      CommitsAfter(e, decide, more, commit);
      CalmIsVerified(Step(Run(Step(e, decide), more), commit), maxAttempts, maxReviewCycles);
    }
  }

  lemma DecidingStaysCalm(e: Engine, d: Engine, maxAttempts: int, maxReviewCycles: int)
    requires Calm(e, maxAttempts, maxReviewCycles) && d == e.(endings := d.endings)
    ensures Calm(d, maxAttempts, maxReviewCycles)
  {
    hide Safe;
    RestatusKeepsSafe(e, d);
  }

  /**
   A worker that stalls between deciding that a budget is spent and committing it can end the run
   on unchecked code if and only if a FIX is under way at the decision, or the budgets used in
   between and the execution cap leave room for one: at once if the code is known to need it,
   otherwise after a UI check or a review that finds something.
   */
  lemma EscalationCanGoStaleExactlyWhen(skipPlanning: bool, createPullRequest: bool, actions: seq<Action>, config: Config, maxAttempts: int, maxReviewCycles: int)
    requires BudgetSpent(Verdict(Run(Initial(skipPlanning, createPullRequest), actions), config))
    ensures var e := Run(Initial(skipPlanning, createPullRequest), actions);
            (exists more :: GoesStale(e, config, more, maxAttempts, maxReviewCycles)) <==> Exposed(e, maxAttempts, maxReviewCycles)
  {
    hide Run, Verdict, Safe, GoesStale, Exposed;
    var e := Run(Initial(skipPlanning, createPullRequest), actions);
    RunIsSafe(skipPlanning, createPullRequest, actions);
    if Exposed(e, maxAttempts, maxReviewCycles) {
      ExposedGoesStale(e, config, maxAttempts, maxReviewCycles);
    } else {
      forall more ensures !GoesStale(e, config, more, maxAttempts, maxReviewCycles) {
        UnexposedStaysVerified(e, config, more, maxAttempts, maxReviewCycles);
      }
    }
  }

  // -- settings that stay the same ----------------------------------------------------------------

  predicate FixedSettings(actions: seq<Action>, maxAttempts: int, maxReviewCycles: int) {
    forall i :: 0 <= i < |actions| && actions[i].AdvanceRun? ==>
      actions[i].config.maxAttempts == maxAttempts && actions[i].config.maxReviewCycles == maxReviewCycles
  }

  ghost predicate ClaimedWith(e: Engine, maxAttempts: int, maxReviewCycles: int) {
    forall x {:trigger e.executions[x]} :: 0 <= x < |e.executions| ==>
      e.executions[x].config.maxAttempts == maxAttempts && e.executions[x].config.maxReviewCycles == maxReviewCycles
  }

  ghost predicate Steady(e: Engine, maxAttempts: int, maxReviewCycles: int) {
    && Safe(e) && ClaimedWith(e, maxAttempts, maxReviewCycles)
    && (forall n {:trigger e.endings[n]} :: 0 <= n < |e.endings| && BudgetSpent(e.endings[n].verdict) ==> Calm(e, maxAttempts, maxReviewCycles))
  }

  lemma StepKeepsClaimedWith(e: Engine, a: Action, maxAttempts: int, maxReviewCycles: int)
    requires ClaimedWith(e, maxAttempts, maxReviewCycles) && FixedSettings([a], maxAttempts, maxReviewCycles)
    ensures ClaimedWith(Step(e, a), maxAttempts, maxReviewCycles)
  {
    hide Verdict, ReusableRow, HoldsClaim, CancelRunning;
    assert [a][0] == a;
  }

  /** A FIX under way was claimed with room in both budgets. */
  lemma FixHasRoom(e: Engine, maxAttempts: int, maxReviewCycles: int)
    requires Safe(e) && ClaimedWith(e, maxAttempts, maxReviewCycles) && FixUnderWay(e)
    ensures e.stored.attempt < maxAttempts && e.stored.reviewCycle < maxReviewCycles
  {
    hide HistoryFits, Unverified, TokensOrdered, ResultsSpent, AttemptsCounted;
    NewestHolds(e);
    assert ExecutionJustified(e, |e.executions| - 1);
  }

  /** So, with those budgets still in force, none is under way when they are spent. */
  lemma SteadyDecisionIsCalm(e: Engine, config: Config)
    requires Safe(e) && ClaimedWith(e, config.maxAttempts, config.maxReviewCycles) && BudgetSpent(Verdict(e, config))
    ensures Calm(e, config.maxAttempts, config.maxReviewCycles)
  {
    hide Verdict, Safe, Unverified, ClaimedWith, Exposed, Calm;
    VerdictFits(e, config);
    assert FixUnderWay(e) ==> e.stored.attempt < config.maxAttempts && e.stored.reviewCycle < config.maxReviewCycles by {
      if FixUnderWay(e) {
        FixHasRoom(e, config.maxAttempts, config.maxReviewCycles);
      }
    }
    OwnBudgetsLeaveNoRoom(e, config);
    SpentBudgetIsCalm(e, config, config.maxAttempts, config.maxReviewCycles);
  }

  lemma DecisionKeepsCalm(e: Engine, a: Action, maxAttempts: int, maxReviewCycles: int)
    requires Calm(e, maxAttempts, maxReviewCycles) && FixedSettings([a], maxAttempts, maxReviewCycles)
    ensures Calm(Step(e, a), maxAttempts, maxReviewCycles)
  {
    hide Calm, Step;
    assert [a][0] == a;
    CalmStep(e, a, maxAttempts, maxReviewCycles);
  }

  lemma StepKeepsSteady(e: Engine, a: Action, maxAttempts: int, maxReviewCycles: int)
    requires Steady(e, maxAttempts, maxReviewCycles) && FixedSettings([a], maxAttempts, maxReviewCycles)
    ensures Steady(Step(e, a), maxAttempts, maxReviewCycles)
  {
    hide Safe, Calm, Step, Verdict, ClaimedWith;
    assert [a][0] == a;
    StepKeepsSafe(e, a);
    StepKeepsClaimedWith(e, a, maxAttempts, maxReviewCycles);
    StepGrows(e, a);
    var after := Step(e, a);
    forall n | 0 <= n < |after.endings| && BudgetSpent(after.endings[n].verdict) ensures Calm(after, maxAttempts, maxReviewCycles) {
      if n < |e.endings| {
        assert after.endings[n] == e.endings[n];
      } else {
        SteadyDecisionIsCalm(e, a.config);
      }
      DecisionKeepsCalm(e, a, maxAttempts, maxReviewCycles);
    }
  }

  lemma {:induction false} RunIsSteady(skipPlanning: bool, createPullRequest: bool, actions: seq<Action>, maxAttempts: int, maxReviewCycles: int)
    requires FixedSettings(actions, maxAttempts, maxReviewCycles)
    ensures Steady(Run(Initial(skipPlanning, createPullRequest), actions), maxAttempts, maxReviewCycles)
  {
    if actions == [] {
      RunIsSafe(skipPlanning, createPullRequest, actions);
      hide Safe;
    } else {
      hide Steady, Step;
      RunIsSteady(skipPlanning, createPullRequest, actions[..|actions| - 1], maxAttempts, maxReviewCycles);
      StepKeepsSteady(Run(Initial(skipPlanning, createPullRequest), actions[..|actions| - 1]), actions[|actions| - 1], maxAttempts, maxReviewCycles);
    }
  }

  /** While the two budgets stay the same, every budget escalation commits on checked code, however late. */
  lemma SteadyBudgetsKeepEscalationsVerified(
      skipPlanning: bool, createPullRequest: bool, actions: seq<Action>, maxAttempts: int, maxReviewCycles: int, n: nat)
    requires FixedSettings(actions, maxAttempts, maxReviewCycles)
    requires n < |Run(Initial(skipPlanning, createPullRequest), actions).endings|
    requires BudgetSpent(Run(Initial(skipPlanning, createPullRequest), actions).endings[n].verdict)
    ensures !Unverified(Run(Initial(skipPlanning, createPullRequest), actions).log)
  {
    hide Run, Safe, Unverified, Calm;
    RunIsSteady(skipPlanning, createPullRequest, actions, maxAttempts, maxReviewCycles);
    CalmIsVerified(Run(Initial(skipPlanning, createPullRequest), actions), maxAttempts, maxReviewCycles);
  }
}
