/** Which steps the limits on attempts really stop, and what the guards on failed steps are for. */
module EngineLimits {
  import opened EngineeringRouter
  import opened Statuses
  import opened WorkflowEngine
  import opened EngineClaims
  import opened EngineSafety
  import opened EngineBudget
  import opened Wrappers

  // -- one undisturbed execution ------------------------------------------------------------

  /** The run is open and no step is under way. */
  predicate Resting(e: Engine) {
    (e.status == RunStatus.PENDING || e.status == RunStatus.RUNNING) && e.current == None
  }

  /** The step the router asks for is claimed, runs and stores this result. */
  function Perform(e: Engine, config: Config, outcome: Outcome): Engine {
    Persist(Advance(e, config, false, false), |e.executions|, outcome, false)
  }

  /** The attempts already used on the row that the next claim of the key takes. */
  function Tried(e: Engine, key: StepKey): nat {
    var reusable := if CycleStep(key) then None else FirstUnsucceeded(e.rows, key, 0);
    if reusable.Some? then e.rows[reusable.value].attempt else 0
  }

  ghost predicate Ready(e: Engine) {
    Safe(e) && RowsUnique(e.rows) && Resting(e)
  }

  lemma AdvanceClaims(e: Engine, config: Config)
    requires Ready(e) && Verdict(e, config).RunStep?
    ensures var key, started := Verdict(e, config).key, e.(status := RunStatus.RUNNING);
            var claimed := Claim(started, key, config);
            && Advance(e, config, false, false) == claimed && Safe(claimed) && RowsUnique(claimed.rows)
            && SameProgress(e.rows, claimed.rows) && HoldsClaim(claimed, |e.executions|) && |claimed.executions| == |e.executions| + 1
            && claimed.executions[|e.executions|].key == key && claimed.executions[|e.executions|].base == e.stored
            && claimed.executions[|e.executions|].attempt == Tried(e, key) + 1
            && claimed.rows[claimed.executions[|e.executions|].row].key == key
  {
    hide Safe, Verdict, RowsUnique, SameProgress, StillOpen;
    var key, started := Verdict(e, config).key, e.(status := RunStatus.RUNNING);
    AdvanceKeepsSafe(e, config, false, false);
    DecisionStaysOpen(e, config);
    ClaimKeepsRowsUnique(started, key, config, false);
    ClaimKeepsProgress(started, key, config);
  }

  /** The result is stored; only the key makes progress, and it fails for good exactly with its last attempt. */
  lemma Performs(e: Engine, config: Config, outcome: Outcome)
    requires Ready(e) && Verdict(e, config).RunStep? && CanReturn(Verdict(e, config).key, outcome)
    ensures var key, after := Verdict(e, config).key, Perform(e, config, outcome);
            && Ready(after) && after.status == RunStatus.RUNNING && |after.executions| == |e.executions| + 1
            && after.stored == Patched(e.stored, outcome)
            && (forall k :: Done(after.rows, k) <==> Done(e.rows, k) || (k == key && outcome != StepFailed))
            && (forall k :: FailedForGood(after.rows, k) <==>
                  FailedForGood(e.rows, k) || (k == key && outcome == StepFailed && Tried(e, key) + 1 >= MaxAttempts(key)))
  {
    hide Safe, Verdict, Done, FailedForGood, Tried, Claim, Advance;
    AdvanceClaims(e, config);
    var claimed := Advance(e, config, false, false);
    PersistKeepsSafe(claimed, |e.executions|, outcome);
    PersistProgress(claimed, |e.executions|, outcome);
    PersistKeepsKeys(claimed, |e.executions|, outcome);
  }

  lemma PersistKeepsKeys(e: Engine, x: nat, outcome: Outcome)
    requires RowsUnique(e.rows)
    ensures RowsUnique(Persist(e, x, outcome, false).rows)
  {
    var after := Persist(e, x, outcome, false);
    assert |after.rows| == |e.rows| && forall i :: 0 <= i < |e.rows| ==> after.rows[i].key == e.rows[i].key;
  }

  // -- failing again and again ----------------------------------------------------------------

  function FailOnce(e: Engine, config: Config): Engine {
    Perform(e, config, StepFailed)
  }

  function FailTimes(e: Engine, config: Config, n: nat): Engine
    decreases n
  {
    if n == 0 then e else FailTimes(FailOnce(e, config), config, n - 1)
  }

  lemma PendingRowAddsNothing(rows: seq<Row>, row: Row)
    requires row.status == RunStatus.PENDING
    ensures CompletedSteps(rows + [row]) == CompletedSteps(rows) && FailedSteps(rows + [row]) == FailedSteps(rows)
  {
    assert (rows + [row])[..|rows|] == rows;
  }

  /** The rows after a failure with attempts left. */
  lemma RetriableRows(e: Engine, config: Config)
    requires Ready(e) && Verdict(e, config).RunStep? && Tried(e, Verdict(e, config).key) + 1 < MaxAttempts(Verdict(e, config).key)
    ensures var key, after := Verdict(e, config).key, FailOnce(e, config);
            var reusable := if CycleStep(key) then None else FirstUnsucceeded(e.rows, key, 0);
            after.rows ==
              if reusable.Some? then e.rows[reusable.value := Row(key, RunStatus.PENDING, Tried(e, key) + 1)]
              else e.rows + [Row(key, RunStatus.PENDING, 1)]
  {
    hide Safe, Verdict;
    AdvanceClaims(e, config);
  }

  /** Such a failure is invisible to the router, and the next claim takes the same row again. */
  lemma RetriableFailure(e: Engine, config: Config)
    requires Ready(e) && Verdict(e, config).RunStep? && Tried(e, Verdict(e, config).key) + 1 < MaxAttempts(Verdict(e, config).key)
    ensures var key, after := Verdict(e, config).key, FailOnce(e, config);
            && StateOf(after, config) == StateOf(e, config)
            && (!CycleStep(key) ==> Tried(after, key) == Tried(e, key) + 1)
  {
    hide Safe, Verdict, FailOnce;
    var key, after := Verdict(e, config).key, FailOnce(e, config);
    RetriableRows(e, config);
    assert after.stored == e.stored && Ready(after) && after.status == RunStatus.RUNNING by {
      Performs(e, config, StepFailed);
      assert FailOnce(e, config) == Perform(e, config, StepFailed) by { FailsByPerforming(e, config); }
    }
    DecisionStaysOpen(e, config);
    var reusable := if CycleStep(key) then None else FirstUnsucceeded(e.rows, key, 0);
    if reusable.Some? {
      assert !FailsFinally(e.rows[reusable.value]) && !Completes(e.rows[reusable.value]);
      SameMarksSameSteps(e.rows, after.rows);
    } else {
      PendingRowAddsNothing(e.rows, Row(key, RunStatus.PENDING, 1));
      assert after.rows[|e.rows|].key == key;
    }
  }

  lemma FailsByPerforming(e: Engine, config: Config)
    ensures FailOnce(e, config) == Perform(e, config, StepFailed)
  {}

  /** The verdict depends on the routing state and the number of executions only. */
  lemma SameStateSameVerdict(e: Engine, f: Engine, config: Config)
    requires ClaimsSound(e) && ClaimsSound(f) && StateOf(f, config) == StateOf(e, config) && Verdict(e, config).RunStep?
    ensures Decide(StateOf(f, config)) == Verdict(e, config)
    ensures Verdict(f, config) == if |f.executions| < MAX_STEP_EXECUTIONS then Verdict(e, config) else WaitForHuman(NotConverging)
  {
    hide TokensOrdered, OneRunningRow, ResultsSpent, StateOf, TotalAttempts;
    GuardHasNoSay(StateOf(e, config));
  }

  predicate FreshEveryTime(key: StepKey) {
    key in {FIX, REVIEW, FINAL_REVIEW}
  }

  ghost predicate GivenUpAfter(e: Engine, config: Config, key: StepKey, n: nat) {
    FailedForGood(FailTimes(e, config, n).rows, key)
  }

  /** The failures a step still has: at least one, at most its maximum. */
  function AttemptsLeft(e: Engine, key: StepKey): nat {
    if Tried(e, key) + 1 >= MaxAttempts(key) then 1 else MaxAttempts(key) - Tried(e, key)
  }

  lemma LastFailure(e: Engine, config: Config, key: StepKey)
    requires Ready(e) && Verdict(e, config) == RunStep(key) && Tried(e, key) + 1 >= MaxAttempts(key)
    ensures GivenUpAfter(e, config, key, 1)
  {
    hide Safe, Verdict, FailOnce, Tried, FailedForGood;
    Performs(e, config, StepFailed);
    FailsByPerforming(e, config);
    assert FailTimes(FailOnce(e, config), config, 0) == FailOnce(e, config);
  }

  /** After a failure with attempts left the router asks for the same step, which has one attempt less. */
  lemma OneAttemptLess(e: Engine, config: Config, key: StepKey)
    requires Ready(e) && Verdict(e, config) == RunStep(key) && !FreshEveryTime(key) && Tried(e, key) + 1 < MaxAttempts(key)
    requires |e.executions| + AttemptsLeft(e, key) <= MAX_STEP_EXECUTIONS
    ensures var after := FailOnce(e, config);
            && Ready(after) && Verdict(after, config) == RunStep(key)
            && |after.executions| == |e.executions| + 1 && AttemptsLeft(after, key) == AttemptsLeft(e, key) - 1
  {
    hide Safe, Verdict, FailOnce, Tried, StateOf, Done, FailedForGood, RowsUnique;
    assert !CycleStep(key) by { CycleStepsTryOnce(key); }
    Performs(e, config, StepFailed);
    FailsByPerforming(e, config);
    RetriableFailure(e, config);
    ReadyIsSound(e);
    ReadyIsSound(FailOnce(e, config));
    hide Ready, ClaimsSound, MaxAttempts;
    SameStateSameVerdict(e, FailOnce(e, config), config);
  }

  lemma CycleStepsTryOnce(key: StepKey)
    ensures CycleStep(key) && !FreshEveryTime(key) ==> MaxAttempts(key) == 1
  {}

  lemma OneFailureEarlier(e: Engine, config: Config, key: StepKey, n: nat)
    ensures GivenUpAfter(e, config, key, n + 1) == GivenUpAfter(FailOnce(e, config), config, key, n)
  {
    hide FailOnce;
  }

  lemma {:induction false} GivesUp(e: Engine, config: Config, key: StepKey) returns (n: nat)
    requires Ready(e) && Verdict(e, config) == RunStep(key) && !FreshEveryTime(key)
    requires |e.executions| + AttemptsLeft(e, key) <= MAX_STEP_EXECUTIONS
    ensures 1 <= n <= AttemptsLeft(e, key) && GivenUpAfter(e, config, key, n)
    decreases AttemptsLeft(e, key)
  {
    hide Ready, Verdict, FailOnce, Tried, GivenUpAfter, MaxAttempts, FreshEveryTime;
    if Tried(e, key) + 1 >= MaxAttempts(key) {
      LastFailure(e, config, key);
      n := 1;
    } else {
      OneAttemptLess(e, config, key);
      n := GivesUp(FailOnce(e, config), config, key);
      OneFailureEarlier(e, config, key, n);
      n := n + 1;
    }
  }

  lemma ReadyIsSound(e: Engine)
    requires Ready(e)
    ensures ClaimsSound(e)
  {
    hide ClaimsSound;
  }

  /** At the cap a further attempt only settles on ending the run. */
  lemma CapStopsFailing(e: Engine, config: Config)
    requires Ready(e) && e.status == RunStatus.RUNNING && !Verdict(e, config).RunStep?
    ensures FailOnce(e, config) == e.(endings := e.endings + [Ending(Verdict(e, config), |e.log|)])
    ensures Ready(FailOnce(e, config)) && StateOf(FailOnce(e, config), config) == StateOf(e, config)
  {
    hide Safe, Verdict;
    RestatusKeepsSafe(e, FailOnce(e, config));
  }

  /** Nothing the router reads has changed. */
  ghost predicate StillAsking(e: Engine, f: Engine, config: Config) {
    Ready(f) && f.status == RunStatus.RUNNING && StateOf(f, config) == StateOf(e, config)
  }

  lemma FreshFailure(e: Engine, config: Config, key: StepKey)
    requires Ready(e) && Verdict(e, config) == RunStep(key) && FreshEveryTime(key)
    ensures StillAsking(e, FailOnce(e, config), config) && |FailOnce(e, config).executions| == |e.executions| + 1
  {
    hide Safe, Verdict, StateOf, Done, FailedForGood, FailOnce;
    Performs(e, config, StepFailed);
    FailsByPerforming(e, config);
    RetriableFailure(e, config);
  }

  lemma {:induction false} NeverGivesUp(e: Engine, config: Config, key: StepKey, n: nat)
    requires Ready(e) && Verdict(e, config) == RunStep(key) && FreshEveryTime(key)
    ensures n > 0 ==> StillAsking(e, FailTimes(e, config, n), config)
    ensures |e.executions| + n <= MAX_STEP_EXECUTIONS ==> |FailTimes(e, config, n).executions| == |e.executions| + n
    decreases n
  {
    hide Safe, Verdict, StateOf, FailOnce;
    if n > 0 {
      var after := FailOnce(e, config);
      FreshFailure(e, config, key);
      ReadyIsSound(e);
      ReadyIsSound(after);
      SameStateSameVerdict(e, after, config);
      if Verdict(after, config).RunStep? {
        NeverGivesUp(after, config, key, n - 1);
      } else {
        StaysAtCap(after, config, n - 1);
      }
    }
  }

  lemma {:induction false} StaysAtCap(e: Engine, config: Config, n: nat)
    requires Ready(e) && e.status == RunStatus.RUNNING && !Verdict(e, config).RunStep?
    ensures StillAsking(e, FailTimes(e, config, n), config) && FailTimes(e, config, n).executions == e.executions
    decreases n
  {
    hide Safe, Verdict, StateOf, FailOnce;
    if n > 0 {
      var after := FailOnce(e, config);
      CapStopsFailing(e, config);
      assert Verdict(after, config) == Verdict(e, config) by { EndingsDoNotCount(e, after, config); }
      StaysAtCap(after, config, n - 1);
    }
  }

  lemma RunIsReady(skipPlanning: bool, createPullRequest: bool, actions: seq<Action>)
    requires Resting(Run(Initial(skipPlanning, createPullRequest), actions))
    ensures Ready(Run(Initial(skipPlanning, createPullRequest), actions))
  {
    hide Run, Safe, WithinAttempts, CycleBudgets, ConfigsWithin;
    var maxAttempts, maxReviewCycles := LargestSettings(actions);
    RunIsBudgeted(skipPlanning, createPullRequest, actions, maxAttempts, maxReviewCycles);
  }

  lemma {:induction false} LargestSettings(actions: seq<Action>) returns (maxAttempts: int, maxReviewCycles: int)
    ensures SettingsWithin(actions, maxAttempts, maxReviewCycles)
  {
    maxAttempts, maxReviewCycles := 0, 0;
    if actions != [] {
      var last := actions[|actions| - 1];
      maxAttempts, maxReviewCycles := LargestSettings(actions[..|actions| - 1]);
      if last.AdvanceRun? {
        maxAttempts := if last.config.maxAttempts > maxAttempts then last.config.maxAttempts else maxAttempts;
        maxReviewCycles := if last.config.maxReviewCycles > maxReviewCycles then last.config.maxReviewCycles else maxReviewCycles;
      }
    }
  }

  /**
   From every reachable engine, a step that keeps failing is given up, and then within its own
   number of attempts, if and only if it is not FIX, REVIEW or FINAL_REVIEW.
   */
  lemma AttemptLimitHoldsExactlyWhen(skipPlanning: bool, createPullRequest: bool, actions: seq<Action>, config: Config, key: StepKey)
    requires var e := Run(Initial(skipPlanning, createPullRequest), actions);
             Resting(e) && Verdict(e, config) == RunStep(key) && |e.executions| + MaxAttempts(key) <= 60
    ensures var e := Run(Initial(skipPlanning, createPullRequest), actions);
            && ((exists n: nat :: GivenUpAfter(e, config, key, n)) <==> key !in {FIX, REVIEW, FINAL_REVIEW})
            && (key !in {FIX, REVIEW, FINAL_REVIEW} ==> exists n: nat :: n <= MaxAttempts(key) && GivenUpAfter(e, config, key, n))
  {
    hide Run, Verdict, Safe, Tried, StateOf, GivenUpAfter;
    RunIsReady(skipPlanning, createPullRequest, actions);
    var e := Run(Initial(skipPlanning, createPullRequest), actions);
    if FreshEveryTime(key) {
      forall n: nat ensures !GivenUpAfter(e, config, key, n) {
        NotGivenUp(e, config, key, n);
      }
    } else {
      var n := GivesUp(e, config, key);
    }
  }

  lemma NotGivenUp(e: Engine, config: Config, key: StepKey, n: nat)
    requires Ready(e) && Verdict(e, config) == RunStep(key) && FreshEveryTime(key)
    ensures !GivenUpAfter(e, config, key, n)
  {
    hide Safe, Verdict, Done, FailedForGood, FailTimes;
    NeverGivesUp(e, config, key, n);
    DecisionIsOpen(e, config);
    assert FailTimes(e, config, 0) == e by { NoFailure(e, config); }
    assert FailedForGood(e.rows, key) <==> key in StateOf(e, config).failedSteps;
  }

  lemma NoFailure(e: Engine, config: Config)
    ensures FailTimes(e, config, 0) == e
  {}

  lemma DecisionIsOpen(e: Engine, config: Config)
    requires Ready(e) && Verdict(e, config).RunStep?
    ensures !FailedForGood(e.rows, Verdict(e, config).key)
  {
    hide Safe, Verdict;
    DecisionStaysOpen(e, config);
  }

  /**
   A FIX, REVIEW or FINAL_REVIEW that keeps failing is asked for again after any number of
   failures, until the sixty executions are used up. Their limit of two attempts never applies.
   */
  lemma FailingCycleStepNeverGivesUp(skipPlanning: bool, createPullRequest: bool, actions: seq<Action>, config: Config, key: StepKey, n: nat)
    requires var e := Run(Initial(skipPlanning, createPullRequest), actions);
             Resting(e) && Verdict(e, config) == RunStep(key) && key in {FIX, REVIEW, FINAL_REVIEW} && |e.executions| + n <= 60
    ensures var e := Run(Initial(skipPlanning, createPullRequest), actions);
            var f := FailTimes(e, config, n);
            && Decide(StateOf(f, config)) == RunStep(key)
            && Verdict(f, config) == if |e.executions| + n < 60 then RunStep(key) else WaitForHuman(NotConverging)
  {
    hide Run, Verdict, Safe, StateOf, FailTimes;
    RunIsReady(skipPlanning, createPullRequest, actions);
    var e := Run(Initial(skipPlanning, createPullRequest), actions);
    NeverGivesUp(e, config, key, n);
    assert FailTimes(e, config, 0) == e by { NoFailure(e, config); }
    ReadyIsSound(e);
    ReadyIsSound(FailTimes(e, config, n));
    SameStateSameVerdict(e, FailTimes(e, config, n), config);
  }

  // -- what the guards on failed steps are for ----------------------------------------------------

  function Without(keys: seq<StepKey>, key: StepKey): (r: seq<StepKey>)
    ensures forall k :: k in r <==> k in keys && k != key
  {
    if keys == [] then []
    else if keys[0] == key then Without(keys[1..], key)
    else [keys[0]] + Without(keys[1..], key)
  }

  /** Optional steps have no part in the verdict on failures, so leaving one out only lifts its own guard. */
  lemma {:induction false} OptionalFailuresDoNotDecide(keys: seq<StepKey>, key: StepKey)
    requires Optional(key)
    ensures FailureVerdict(Without(keys, key)) == FailureVerdict(keys)
  {
    if keys != [] {
      OptionalFailuresDoNotDecide(keys[1..], key);
      if keys[0] != key {
        assert ([keys[0]] + Without(keys[1..], key))[1..] == Without(keys[1..], key);
      }
    }
  }

  /** The router without the test that the optional key is not among the failed steps. */
  function Unguarded(s: WorkflowState, key: StepKey): Decision {
    Decide(s.(failedSteps := Without(s.failedSteps, key)))
  }

  /** The step is claimed although it was given up, and fails again. */
  function RetryOnce(e: Engine, config: Config, key: StepKey): Engine {
    Persist(Claim(e, key, config), |e.executions|, StepFailed, false)
  }

  function RetryTimes(e: Engine, config: Config, key: StepKey, n: nat): Engine {
    if n == 0 then e else RetryOnce(RetryTimes(e, config, key, n - 1), config, key)
  }

  ghost predicate GivenUp(e: Engine, key: StepKey) {
    && RowsUnique(e.rows) && e.status == RunStatus.RUNNING && e.current == None
    && Optional(key) && FailedForGood(e.rows, key)
  }

  /** The retry takes the row that was given up, and gives it up again. */
  lemma RetriedRows(e: Engine, config: Config, key: StepKey) returns (i: nat)
    requires GivenUp(e, key)
    ensures i < |e.rows| && e.rows[i].key == key && FailsFinally(e.rows[i])
    ensures RetryOnce(e, config, key) == e.(
              rows := e.rows[i := Row(key, RunStatus.FAILED, e.rows[i].attempt + 1)],
              executions := e.executions + [Execution(i, e.rows[i].attempt + 1, key, e.stored, config)],
              log := e.log + [Entry(|e.executions|, key, StepFailed)])
  {
    i :| 0 <= i < |e.rows| && e.rows[i].key == key && FailsFinally(e.rows[i]);
    assert FirstUnsucceeded(e.rows, key, 0) == Some(i);
    var claimed := Claim(e, key, config);
    assert claimed.executions[|e.executions|] == Execution(i, e.rows[i].attempt + 1, key, e.stored, config);
    assert claimed.rows[i] == Row(key, RunStatus.RUNNING, e.rows[i].attempt + 1);
  }

  lemma RetryFailsAgain(e: Engine, config: Config, key: StepKey)
    requires GivenUp(e, key)
    ensures GivenUp(RetryOnce(e, config, key), key) && StateOf(RetryOnce(e, config, key), config) == StateOf(e, config)
  {
    hide RetryOnce, CompletedSteps, FailedSteps;
    var i := RetriedRows(e, config, key);
    var after := RetryOnce(e, config, key);
    assert FailsFinally(after.rows[i]) && after.rows[i].key == key;
    SameMarksSameSteps(after.rows, e.rows);
  }

  /**
   Without its guard, an optional step that was given up would be asked for forever: failing
   it again never changes what the router sees. With the guard it is never asked for again.
   */
  lemma {:induction false} GuardIsNeeded(e: Engine, config: Config, key: StepKey, n: nat)
    requires GivenUp(e, key) && Unguarded(StateOf(e, config), key) == RunStep(key)
    ensures var f := RetryTimes(e, config, key, n);
            && GivenUp(f, key) && Unguarded(StateOf(f, config), key) == RunStep(key)
            && Decide(StateOf(f, config)) != RunStep(key)
  {
    hide GivenUp, Unguarded, RetryOnce, StateOf;
    if n > 0 {
      GuardIsNeeded(e, config, key, n - 1);
      RetryFailsAgain(RetryTimes(e, config, key, n - 1), config, key);
    }
    GuardHolds(RetryTimes(e, config, key, n), config, key);
  }

  lemma GuardHolds(e: Engine, config: Config, key: StepKey)
    requires GivenUp(e, key)
    ensures Decide(StateOf(e, config)) != RunStep(key)
  {
    hide Decide, FailedForGood, CompletedSteps, RowsUnique;
    assert key in StateOf(e, config).failedSteps;
    FailedStepIsNotDecided(StateOf(e, config), key);
  }

  lemma FailedStepIsNotDecided(s: WorkflowState, key: StepKey)
    requires Optional(key) && key in s.failedSteps
    ensures Decide(s) != RunStep(key)
  {
    hide FailureVerdict;
  }
}
