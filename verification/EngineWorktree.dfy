/**
 What may lie in the worktree. A FIX or IMPLEMENT edits it while it runs, also if it then fails,
 crashes or loses its claim, and none of that leaves a mark in the stored state.
 */
module EngineWorktree {
  import opened EngineeringRouter
  import opened WorkflowEngine
  import opened EngineClaims
  import opened EngineSafety
  import opened EngineEndings

  predicate Edits(key: StepKey) {
    key == IMPLEMENT || key == FIX
  }

  /** A check that was claimed after execution x has stored its verdict. */
  ghost predicate CheckedAfter(log: seq<Entry>, x: nat) {
    exists n :: 0 <= n < |log| && log[n].outcome.ChecksRan? && log[n].execution > x
  }

  /** Execution x may have edited the worktree, and nothing has been checked since. */
  ghost predicate Uncovered(e: Engine, x: nat) {
    x < |e.executions| && Edits(e.executions[x].key) && !CheckedAfter(e.log, x)
  }

  /** The worktree may differ from what was last checked. */
  ghost predicate Touched(e: Engine) {
    exists x: nat :: Uncovered(e, x)
  }

  /** This covers more than the stored code changes. */
  lemma UnverifiedIsTouched(e: Engine)
    requires Safe(e) && Unverified(e.log)
    ensures Touched(e)
  {
    var n := LastChange(e.log);
    assert Spent(e, n) && CanReturn(e.log[n].key, e.log[n].outcome);
    var x := e.log[n].execution;
    forall m | 0 <= m < |e.log| && e.log[m].outcome.ChecksRan? ensures e.log[m].execution <= x {}
    assert Uncovered(e, x);
  }

  lemma {:induction false} LastChange(log: seq<Entry>) returns (n: nat)
    requires Unverified(log)
    ensures n < |log| && log[n].outcome == CodeChanged && forall m :: n < m < |log| ==> !log[m].outcome.ChecksRan?
  {
    var last := |log| - 1;
    if log[last].outcome == CodeChanged {
      n := last;
    } else {
      n := LastChange(log[..last]);
    }
  }

  // -- edits without a check keep the router asking for a FIX -----------------------------------

  ghost predicate Tracked(e: Engine) {
    && Safe(e) && (e.stored.testsPassed ==> Done(e.rows, RUN_TESTS))
    && (Touched(e) ==> Unfixed(e.stored))
  }

  lemma ClaimTouches(e: Engine, after: Engine)
    requires e.executions <= after.executions && |after.executions| <= |e.executions| + 1 && after.log == e.log
    requires Touched(after) && (|after.executions| > |e.executions| ==> !Edits(after.executions[|e.executions|].key))
    ensures Touched(e)
  {
    var x: nat :| Uncovered(after, x);
    assert Uncovered(e, x);
  }

  /** An edit is only claimed while there is something to fix. */
  lemma EditIsNeeded(e: Engine, config: Config)
    requires Tracked(e) && Verdict(e, config).RunStep? && Edits(Verdict(e, config).key)
    ensures Unfixed(e.stored)
  {
    hide Verdict, TotalAttempts, ClaimsSound, HistoryFits, Unverified, Touched;
    DecisionIsJustified(e, config, 0, 0);
    if Verdict(e, config).key == IMPLEMENT && e.stored.testsPassed {
      CompletedStepIsPrepared(e, RUN_TESTS);
    }
  }

  lemma AdvanceIsTracked(e: Engine, config: Config, leaseExpired: bool, taskCancelled: bool)
    requires Tracked(e)
    ensures Touched(Step(e, AdvanceRun(config, leaseExpired, taskCancelled))) ==> Unfixed(e.stored)
  {
    hide Safe, Verdict, ReusableRow, MayClaim, Touched, Done;
    var after := Step(e, AdvanceRun(config, leaseExpired, taskCancelled));
    if Touched(after) {
      if |after.executions| > |e.executions| && Edits(after.executions[|e.executions|].key) {
        EditIsNeeded(e, config);
      } else {
        ClaimTouches(e, after);
      }
    }
  }

  lemma EntryLeavesTouched(e: Engine, after: Engine, entry: Entry)
    requires after.executions == e.executions && after.log == e.log + [entry] && Touched(after)
    ensures Touched(e)
  {
    var x: nat :| Uncovered(after, x);
    assert after.log[|e.log|] == entry;
    forall n | 0 <= n < |e.log| ensures !(e.log[n].outcome.ChecksRan? && e.log[n].execution > x) {
      assert after.log[n] == e.log[n];
    }
    assert Uncovered(e, x);
  }

  /** The verdict of a check claimed after all edits covers them. */
  lemma CheckCovers(after: Engine, entry: Entry)
    requires |after.log| > 0 && after.log[|after.log| - 1] == entry && entry.outcome.ChecksRan?
    requires entry.execution == |after.executions| - 1 && !Edits(after.executions[entry.execution].key)
    ensures !Touched(after)
  {
    forall x: nat ensures !Uncovered(after, x) {
      if x < entry.execution {
        assert after.log[|after.log| - 1].execution > x;
      }
    }
  }

  lemma PersistIsTracked(e: Engine, x: nat, outcome: Outcome)
    requires Tracked(e) && HoldsClaim(e, x) && CanReturn(e.executions[x].key, outcome)
    ensures var after := Persist(e, x, outcome, false); Touched(after) ==> Unfixed(after.stored)
  {
    hide ClaimsSound, HistoryFits, Unverified, Touched, Done, FailedForGood;
    var after := Persist(e, x, outcome, false);
    assert ClaimsSound(e);
    HolderIsNewest(e, x);
    assert ExecutionJustified(e, x);
    if outcome.ChecksRan? {
      CheckCovers(after, Entry(x, e.executions[x].key, outcome));
    } else if Touched(after) {
      EntryLeavesTouched(e, after, Entry(x, e.executions[x].key, outcome));
    }
  }

  lemma PersistChecks(e: Engine, x: nat, outcome: Outcome)
    requires Tracked(e) && HoldsClaim(e, x) && CanReturn(e.executions[x].key, outcome)
    ensures var after := Persist(e, x, outcome, false); after.stored.testsPassed ==> Done(after.rows, RUN_TESTS)
  {
    hide HistoryFits, Unverified, Touched, TotalAttempts;
    var a := PersistResult(x, outcome, false);
    HolderIsNewest(e, x);
    HolderHasRow(e, x);
    StepProgress(e, a, RUN_TESTS);
    ReviewNeedsTests(e, e.executions[x].row);
    assert Step(e, a).rows[e.executions[x].row].key == e.executions[x].key;
  }

  lemma StepIsTracked(e: Engine, a: Action)
    requires Tracked(e)
    ensures Tracked(Step(e, a))
  {
    hide Safe, Verdict, ReusableRow, CancelRunning, Done, Uncovered;
    StepKeepsSafe(e, a);
    StepProgress(e, a, RUN_TESTS);
    if a.AdvanceRun? {
      AdvanceIsTracked(e, a.config, a.leaseExpired, a.taskCancelled);
    } else if a.PersistResult? && HoldsClaim(e, a.execution) && !a.refused && CanReturn(e.executions[a.execution].key, a.outcome) {
      PersistIsTracked(e, a.execution, a.outcome);
      PersistChecks(e, a.execution, a.outcome);
    } else if Touched(Step(e, a)) {
      ClaimTouches(e, Step(e, a));
    }
  }

  lemma {:induction false} RunIsTracked(skipPlanning: bool, createPullRequest: bool, actions: seq<Action>)
    ensures Tracked(Run(Initial(skipPlanning, createPullRequest), actions))
  {
    if actions == [] {
      RunIsSafe(skipPlanning, createPullRequest, actions);
      hide Safe;
    } else {
      hide Tracked, Step;
      RunIsTracked(skipPlanning, createPullRequest, actions[..|actions| - 1]);
      StepIsTracked(Run(Initial(skipPlanning, createPullRequest), actions[..|actions| - 1]), actions[|actions| - 1]);
    }
  }

  // -- what never happens on such a worktree ------------------------------------------------------

  /** The decisions that take the code for reviewable. */
  predicate TrustsWorktree(verdict: Decision) {
    || verdict == Completed || verdict == WaitForHuman(NotApproved) || verdict == WaitForHuman(PullRequestNotAllowed)
    || (verdict.RunStep? && verdict.key in {REVIEW, FINAL_REVIEW, DOCUMENT, PREPARE_PR, COMPLETE})
  }

  lemma TrustNeedsNoFix(e: Engine, config: Config)
    requires TrustsWorktree(Verdict(e, config))
    ensures !Unfixed(e.stored)
  {
    hide CompletedSteps, FailedSteps, TotalAttempts;
  }

  /**
   No review, documentation, pull request or completion is decided on, and nobody is told that the
   review budget is spent, while a FIX or IMPLEMENT may have left unchecked edits in the worktree.
   */
  lemma NothingTrustsATouchedWorktree(skipPlanning: bool, createPullRequest: bool, actions: seq<Action>, config: Config)
    ensures var e := Run(Initial(skipPlanning, createPullRequest), actions);
            TrustsWorktree(Verdict(e, config)) ==> !Touched(e)
  {
    hide Run, Safe, Verdict, Touched, TrustsWorktree;
    RunIsTracked(skipPlanning, createPullRequest, actions);
    var e := Run(Initial(skipPlanning, createPullRequest), actions);
    if TrustsWorktree(Verdict(e, config)) {
      TrustNeedsNoFix(e, config);
    }
  }
}
