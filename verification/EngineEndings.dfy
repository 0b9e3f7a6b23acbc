/**
 What holds when a run is ended. A worker decides on a state and commits later, and the
 commit does not look at that state again, so anything may have been stored in between.
 */
module EngineEndings {
  import opened EngineeringRouter
  import opened Statuses
  import opened WorkflowEngine
  import opened EngineClaims
  import opened EngineSafety
  import opened EngineBudget

  // -- approval is final ------------------------------------------------------------------

  /** On approved code only the steps that follow a review can still be under way. */
  lemma ApprovedClaim(e: Engine, x: nat)
    requires Safe(e) && HoldsClaim(e, x) && e.stored.reviewApproved
    ensures e.executions[x].key !in {ANALYZE_REPOSITORY, PLAN, CREATE_TASKS, CREATE_WORKTREE, IMPLEMENT, RUN_TESTS, FIX, RETEST, REVIEW, FINAL_REVIEW}
    ensures e.executions[x].base == e.stored
  {
    hide HistoryFits, Unverified, TotalAttempts;
    HolderIsNewest(e, x);
    assert ExecutionJustified(e, x);
    CompletedStepIsPrepared(e, RUN_TESTS);
    assert StillOpen(e.rows, e.executions[x].key);
  }

  /** What a step may add to approved work: a result that is neither a code change nor a check. */
  ghost predicate ApprovalKept(e: Engine, after: Engine) {
    && after.stored.reviewApproved
    && (after.log == e.log ||
          exists entry: Entry :: after.log == e.log + [entry] && entry.outcome != CodeChanged && !entry.outcome.ChecksRan?)
  }

  lemma ApprovalStep(e: Engine, a: Action)
    requires Safe(e) && e.stored.reviewApproved
    ensures ApprovalKept(e, Step(e, a))
  {
    hide Safe, Verdict, ReusableRow, MayClaim, CancelRunning;
    if a.PersistResult? && HoldsClaim(e, a.execution) && !a.refused && CanReturn(e.executions[a.execution].key, a.outcome) {
      ApprovedClaim(e, a.execution);
      assert Step(e, a).log == e.log + [Entry(a.execution, e.executions[a.execution].key, a.outcome)];
    } else {
      assert Step(e, a).log == e.log;
    }
  }

  ghost predicate NoCodeChangeSince(log: seq<Entry>, n: nat) {
    forall i :: n <= i < |log| ==> log[i].outcome != CodeChanged
  }

  lemma {:induction false} ApprovalStays(e: Engine, actions: seq<Action>)
    requires Safe(e) && e.stored.reviewApproved
    ensures Safe(Run(e, actions)) && Run(e, actions).stored.reviewApproved
    ensures e.log <= Run(e, actions).log && NoCodeChangeSince(Run(e, actions).log, |e.log|)
  {
    hide Safe, Step;
    if actions != [] {
      var f := Run(e, actions[..|actions| - 1]);
      ApprovalStays(e, actions[..|actions| - 1]);
      StepKeepsSafe(f, actions[|actions| - 1]);
      ApprovalStep(f, actions[|actions| - 1]);
    }
  }

  /** Once the code is approved, no continuation changes it, takes the approval back or leaves it unchecked. */
  lemma ApprovalIsFinal(skipPlanning: bool, createPullRequest: bool, actions: seq<Action>, more: seq<Action>)
    requires Run(Initial(skipPlanning, createPullRequest), actions).stored.reviewApproved
    ensures var e := Run(Initial(skipPlanning, createPullRequest), actions);
            var f := Run(e, more);
            && f.stored.reviewApproved && f.stored.testsPassed && !Unverified(f.log)
            && e.log <= f.log && NoCodeChangeSince(f.log, |e.log|)
  {
    hide Run, ClaimsSound, HistoryFits, Unverified;
    RunIsSafe(skipPlanning, createPullRequest, actions);
    ApprovalStays(Run(Initial(skipPlanning, createPullRequest), actions), more);
  }

  // -- finished work stays finished ---------------------------------------------------------

  /** Approved, with the completion gate passed and nothing but optional steps given up. */
  ghost predicate Accomplished(e: Engine) {
    && e.stored.reviewApproved && Done(e.rows, COMPLETE)
    && forall k :: FailedForGood(e.rows, k) ==> Optional(k)
  }

  /** Only the step whose result is stored can fail for good, and what is done or failed for good stays so. */
  lemma StepProgress(e: Engine, a: Action, k: StepKey)
    requires Safe(e)
    ensures Done(e.rows, k) ==> Done(Step(e, a).rows, k)
    ensures FailedForGood(e.rows, k) ==> FailedForGood(Step(e, a).rows, k)
    ensures FailedForGood(Step(e, a).rows, k) && !FailedForGood(e.rows, k) ==>
      a.PersistResult? && HoldsClaim(e, a.execution) && e.executions[a.execution].key == k && a.outcome == StepFailed
  {
    hide Safe, Done, FailedForGood, Verdict, Claim, ReusableRow;
    match a
    case AdvanceRun(config, leaseExpired, taskCancelled) =>
      if Claimable(e.status) && Verdict(e, config).RunStep? {
        DecisionStaysOpen(e, config);
        ClaimKeepsProgress(e.(status := RunStatus.RUNNING), Verdict(e, config).key, config);
        assert Claim(e.(status := RunStatus.RUNNING), Verdict(e, config).key, config).rows == Step(e, a).rows || Step(e, a).rows == e.rows;
      }
    case CommitEnding(n) =>
    case PersistResult(x, outcome, refused) =>
      if HoldsClaim(e, x) && !refused && CanReturn(e.executions[x].key, outcome) {
        HolderHasRow(e, x);
        PersistProgress(e, x, outcome);
      }
    case ReleaseClaim(x) =>
      if HoldsClaim(e, x) {
        RowOf(e.rows, e.executions[x].row, Release(e, x).rows[e.executions[x].row], k);
      }
    case StopRun(status, flag, clearKey, cancelRows) =>
      CancelKeepsProgress(e.rows);
  }

  lemma HolderHasRow(e: Engine, x: nat)
    requires Safe(e) && HoldsClaim(e, x)
    ensures e.rows[e.executions[x].row].key == e.executions[x].key
  {
    hide HistoryFits, Unverified, TotalAttempts;
    assert TokenFits(e, x);
  }

  lemma AccomplishedStep(e: Engine, a: Action)
    requires Safe(e) && Accomplished(e)
    ensures Accomplished(Step(e, a))
  {
    hide Safe, Step, Done, FailedForGood;
    ApprovalStep(e, a);
    StepProgress(e, a, COMPLETE);
    forall k | FailedForGood(Step(e, a).rows, k) ensures Optional(k) {
      StepProgress(e, a, k);
      if !FailedForGood(e.rows, k) {
        ApprovedClaim(e, a.execution);
        HeldStepIsOpen(e, a.execution);
      }
    }
  }

  lemma HeldStepIsOpen(e: Engine, x: nat)
    requires Safe(e) && HoldsClaim(e, x)
    ensures StillOpen(e.rows, e.executions[x].key)
  {}

  // -- the decisions to end a run -------------------------------------------------------------

  predicate BudgetSpent(verdict: Decision) {
    verdict == WaitForHuman(BudgetExhausted) || verdict == WaitForHuman(NotApproved)
  }

  predicate WorkFinished(verdict: Decision) {
    verdict == Completed || verdict == WaitForHuman(PullRequestNotAllowed)
  }

  ghost predicate EndingFits(e: Engine, n: nat)
    requires n < |e.endings|
  {
    var ending := e.endings[n];
    && ending.seen <= |e.log|
    && (BudgetSpent(ending.verdict) ==> !Unverified(e.log[..ending.seen]))
    && (WorkFinished(ending.verdict) ==> e.stored.reviewApproved)
    && (ending.verdict == Completed ==> Accomplished(e))
  }

  ghost predicate Settled(e: Engine) {
    && Safe(e)
    && (forall n: nat {:trigger EndingFits(e, n)} :: n < |e.endings| ==> EndingFits(e, n))
    && (e.status == RunStatus.SUCCEEDED ==> Accomplished(e))
  }

  /** What a decision proves about the state it was taken on. */
  lemma VerdictFits(e: Engine, config: Config)
    requires Safe(e)
    ensures BudgetSpent(Verdict(e, config)) ==>
      && !Unverified(e.log) && !e.stored.verificationPending && Done(e.rows, RUN_TESTS)
      && (e.stored.attempt >= config.maxAttempts || e.stored.reviewCycle >= config.maxReviewCycles)
    ensures WorkFinished(Verdict(e, config)) ==> e.stored.reviewApproved
    ensures Verdict(e, config) == Completed ==> Accomplished(e)
  {
    hide Done, FailedForGood, TotalAttempts, ClaimsSound, HistoryFits, Unverified;
    if Verdict(e, config) == Completed {
      CompletedIsEarned(e, config);
    }
  }

  /** History only grows, and decisions to end are only added. */
  lemma StepGrows(e: Engine, a: Action)
    ensures e.log <= Step(e, a).log && e.endings <= Step(e, a).endings
    ensures Step(e, a).endings == e.endings || (a.AdvanceRun? && Claimable(e.status) && Step(e, a).log == e.log &&
              Step(e, a).stored == e.stored && Step(e, a).rows == e.rows &&
              Step(e, a).endings == e.endings + [Ending(Verdict(e, a.config), |e.log|)])
  {
    hide Verdict, ReusableRow, HoldsClaim, CancelRunning;
  }

  lemma OldEndingFits(e: Engine, a: Action, n: nat)
    requires Settled(e) && n < |e.endings|
    ensures n < |Step(e, a).endings| && EndingFits(Step(e, a), n)
  {
    hide Safe, Step, Unverified, Accomplished;
    assert EndingFits(e, n);
    StepGrows(e, a);
    var ending := e.endings[n];
    assert Step(e, a).log[..ending.seen] == e.log[..ending.seen];
    if WorkFinished(ending.verdict) {
      ApprovalStep(e, a);
    }
    if ending.verdict == Completed {
      AccomplishedStep(e, a);
    }
  }

  lemma NewEndingFits(e: Engine, a: Action)
    requires Settled(e) && |Step(e, a).endings| > |e.endings|
    ensures |Step(e, a).endings| == |e.endings| + 1 && EndingFits(Step(e, a), |e.endings|)
  {
    hide Settled, Safe, Step, Unverified, Verdict, Done, FailedForGood;
    SettledIsSafe(e);
    StepGrows(e, a);
    VerdictFits(e, a.config);
    assert Step(e, a).log[..|e.log|] == e.log;
  }

  lemma SettledIsSafe(e: Engine)
    requires Settled(e)
    ensures Safe(e)
  {
    hide Safe;
  }

  lemma StepKeepsSettled(e: Engine, a: Action)
    requires Settled(e)
    ensures Settled(Step(e, a))
  {
    hide Safe, Step, Accomplished, EndingFits;
    var after := Step(e, a);
    StepKeepsSafe(e, a);
    StepGrows(e, a);
    forall n: nat {:trigger EndingFits(after, n)} | n < |after.endings| ensures EndingFits(after, n) {
      if n < |e.endings| {
        OldEndingFits(e, a, n);
      } else {
        NewEndingFits(e, a);
      }
    }
    if after.status == RunStatus.SUCCEEDED {
      SuccessIsAccomplished(e, a);
    }
  }

  lemma SuccessIsAccomplished(e: Engine, a: Action)
    requires Settled(e) && Step(e, a).status == RunStatus.SUCCEEDED
    ensures Accomplished(Step(e, a))
  {
    hide Safe, Step, Accomplished;
    SucceedsOnlyByCommit(e, a);
    if e.status != RunStatus.SUCCEEDED {
      assert EndingFits(e, a.ending);
    }
    AccomplishedStep(e, a);
  }

  lemma SucceedsOnlyByCommit(e: Engine, a: Action)
    ensures Step(e, a).status == RunStatus.SUCCEEDED && e.status != RunStatus.SUCCEEDED ==>
      a.CommitEnding? && a.ending < |e.endings| && e.endings[a.ending].verdict == Completed
  {
    hide Verdict, ReusableRow, HoldsClaim, CancelRunning;
  }

  lemma {:induction false} RunIsSettled(skipPlanning: bool, createPullRequest: bool, actions: seq<Action>)
    ensures Settled(Run(Initial(skipPlanning, createPullRequest), actions))
  {
    if actions == [] {
      RunIsSafe(skipPlanning, createPullRequest, actions);
      hide Safe;
    } else {
      hide Settled, Step;
      RunIsSettled(skipPlanning, createPullRequest, actions[..|actions| - 1]);
      StepKeepsSettled(Run(Initial(skipPlanning, createPullRequest), actions[..|actions| - 1]), actions[|actions| - 1]);
    }
  }

  /** A run that has SUCCEEDED did all its work: checked, approved, in pipeline order, with the completion gate passed. */
  lemma CompletionIsEarned(skipPlanning: bool, createPullRequest: bool, actions: seq<Action>)
    requires Run(Initial(skipPlanning, createPullRequest), actions).status == RunStatus.SUCCEEDED
    ensures var e := Run(Initial(skipPlanning, createPullRequest), actions);
            && e.stored.testsPassed && e.stored.reviewApproved && !Unverified(e.log)
            && Done(e.rows, COMPLETE) && Prepared(e.rows, COMPLETE, e.stored.skipPlanning)
            && (forall k :: FailedForGood(e.rows, k) ==> Optional(k))
  {
    hide Run, ClaimsSound, HistoryFits, Unverified, Done, FailedForGood, Prepared, EndingFits;
    RunIsSettled(skipPlanning, createPullRequest, actions);
    CompletedStepIsPrepared(Run(Initial(skipPlanning, createPullRequest), actions), COMPLETE);
  }

  /** However late they are committed, these two decisions end the run on checked and approved code. */
  lemma FinishedWorkStaysVerified(skipPlanning: bool, createPullRequest: bool, actions: seq<Action>, n: nat)
    requires n < |Run(Initial(skipPlanning, createPullRequest), actions).endings|
    requires WorkFinished(Run(Initial(skipPlanning, createPullRequest), actions).endings[n].verdict)
    ensures var e := Run(Initial(skipPlanning, createPullRequest), actions);
            e.stored.testsPassed && e.stored.reviewApproved && !Unverified(e.log)
  {
    hide Run, ClaimsSound, HistoryFits, Unverified, Accomplished;
    RunIsSettled(skipPlanning, createPullRequest, actions);
    assert EndingFits(Run(Initial(skipPlanning, createPullRequest), actions), n);
  }

  // -- escalations for a spent budget -----------------------------------------------------------

  lemma {:induction false} UnverifiedTail(log: seq<Entry>, n: nat)
    requires n <= |log| && !Unverified(log[..n])
    ensures Unverified(log) <==> Unverified(log[n..])
  {
    if n == |log| {
      assert log[..n] == log;
    } else {
      var init := log[..|log| - 1];
      assert init[..n] == log[..n] && log[n..][..|log| - n - 1] == init[n..];
      UnverifiedTail(init, n);
    }
  }

  /** A budget escalation commits on unchecked code if and only if a code change was stored and not checked since its decision. */
  lemma EscalationIsStaleExactlyWhen(skipPlanning: bool, createPullRequest: bool, actions: seq<Action>, n: nat)
    requires n < |Run(Initial(skipPlanning, createPullRequest), actions).endings|
    requires BudgetSpent(Run(Initial(skipPlanning, createPullRequest), actions).endings[n].verdict)
    ensures var e := Run(Initial(skipPlanning, createPullRequest), actions);
            e.endings[n].seen <= |e.log| && (Unverified(e.log) <==> Unverified(e.log[e.endings[n].seen..]))
  {
    hide Run, Safe, Unverified, Accomplished;
    RunIsSettled(skipPlanning, createPullRequest, actions);
    var e := Run(Initial(skipPlanning, createPullRequest), actions);
    assert EndingFits(e, n);
    UnverifiedTail(e.log, e.endings[n].seen);
  }
}
