/** With a fixed review budget, the final review is the last one. */
module EngineReviews {
  import opened EngineeringRouter
  import opened Statuses
  import opened WorkflowEngine
  import opened EngineClaims
  import opened EngineSafety
  import opened EngineBudget

  predicate IsReview(entry: Entry) {
    (entry.key == REVIEW || entry.key == FINAL_REVIEW) && entry.outcome != StepFailed
  }

  predicate IsFinalReview(entry: Entry) {
    entry.key == FINAL_REVIEW && entry.outcome != StepFailed
  }

  function Reviews(log: seq<Entry>): nat {
    CountOk(log, REVIEW) + CountOk(log, FINAL_REVIEW)
  }

  lemma ReviewsNext(log: seq<Entry>, entry: Entry)
    ensures Reviews(log + [entry]) == Reviews(log) + if IsReview(entry) then 1 else 0
  {
    AppendCounts(log, entry);
  }

  lemma {:induction false} ReviewsGrow(log: seq<Entry>, n: nat)
    requires n <= |log|
    ensures Reviews(log[..n]) <= Reviews(log)
    decreases |log| - n
  {
    if n == |log| {
      assert log[..n] == log;
    } else {
      ReviewsGrow(log, n + 1);
      assert log[..n + 1] == log[..n] + [log[n]];
      ReviewsNext(log[..n], log[n]);
    }
  }

  /** Every advance sees the same review budget. */
  predicate FixedBudget(actions: seq<Action>, maxReviewCycles: int) {
    forall i :: 0 <= i < |actions| && actions[i].AdvanceRun? ==> actions[i].config.maxReviewCycles == maxReviewCycles
  }

  ghost predicate SameBudget(e: Engine, maxReviewCycles: int) {
    forall x {:trigger e.executions[x]} :: 0 <= x < |e.executions| ==> e.executions[x].config.maxReviewCycles == maxReviewCycles
  }

  /** A final review brings the number of reviews up to the budget. */
  ghost predicate FinalUsesBudget(log: seq<Entry>, maxReviewCycles: int) {
    forall n {:trigger log[n]} :: 0 <= n < |log| && IsFinalReview(log[n]) ==> Reviews(log[..n + 1]) == maxReviewCycles
  }

  ghost predicate Reviewed(e: Engine, maxReviewCycles: int) {
    && Safe(e) && SameBudget(e, maxReviewCycles) && FinalUsesBudget(e.log, maxReviewCycles)
    && Reviews(e.log) == e.stored.reviewCycle && e.stored.reviewCycle <= Positive(maxReviewCycles)
  }

  lemma PersistKeepsReviewed(e: Engine, x: nat, outcome: Outcome, maxReviewCycles: int)
    requires Reviewed(e, maxReviewCycles) && HoldsClaim(e, x) && CanReturn(e.executions[x].key, outcome)
    ensures Reviewed(Persist(e, x, outcome, false), maxReviewCycles)
  {
    var claim := e.executions[x];
    var entry := Entry(x, claim.key, outcome);
    var after := Persist(e, x, outcome, false);
    PersistKeepsSafe(e, x, outcome);
    HolderIsNewest(e, x);
    assert ExecutionJustified(e, x);
    ReviewsNext(e.log, entry);
    hide Safe, HoldsClaim, ExecutionJustified, CountOk;
    forall n | 0 <= n < |after.log| && IsFinalReview(after.log[n]) ensures Reviews(after.log[..n + 1]) == maxReviewCycles {
      if n < |e.log| {
        assert after.log[..n + 1] == e.log[..n + 1] && after.log[n] == e.log[n];
      } else {
        assert after.log[..n + 1] == e.log + [entry];
      }
    }
  }

  /** Everything the review count looks at is as it was, and new claims use the same budget. */
  ghost predicate Untouched(e: Engine, after: Engine, maxReviewCycles: int) {
    && after.log == e.log && after.stored.reviewCycle == e.stored.reviewCycle
    && (SameBudget(e, maxReviewCycles) ==> SameBudget(after, maxReviewCycles))
  }

  lemma AdvanceTouchesNothing(e: Engine, config: Config, leaseExpired: bool, taskCancelled: bool)
    ensures Untouched(e, Advance(e, config, leaseExpired, taskCancelled), config.maxReviewCycles)
  {
    hide Verdict, ReusableRow, MayClaim;
  }

  lemma CommitTouchesNothing(e: Engine, n: nat, maxReviewCycles: int)
    ensures Untouched(e, Commit(e, n), maxReviewCycles)
  {}

  lemma ReleaseTouchesNothing(e: Engine, x: nat, maxReviewCycles: int)
    ensures Untouched(e, Release(e, x), maxReviewCycles)
  {
    hide HoldsClaim;
  }

  lemma StopTouchesNothing(e: Engine, status: RunStatus, flag: bool, clearKey: bool, cancelRows: bool, maxReviewCycles: int)
    ensures Untouched(e, Stop(e, status, flag, clearKey, cancelRows), maxReviewCycles)
  {
    hide CancelRunning;
  }

  /** Steps other than a stored result leave the history and the counters alone. */
  lemma OtherStepsKeepReviewed(e: Engine, a: Action, maxReviewCycles: int)
    requires Reviewed(e, maxReviewCycles) && !a.PersistResult? && FixedBudget([a], maxReviewCycles)
    ensures Reviewed(Step(e, a), maxReviewCycles)
  {
    StepKeepsSafe(e, a);
    assert [a][0] == a;
    hide Safe, Advance, Commit, Release, Stop, Reviews, SameBudget;
    match a
    case AdvanceRun(config, leaseExpired, taskCancelled) =>
      AdvanceTouchesNothing(e, config, leaseExpired, taskCancelled);
    case CommitEnding(n) => CommitTouchesNothing(e, n, maxReviewCycles);
    case ReleaseClaim(x) => ReleaseTouchesNothing(e, x, maxReviewCycles);
    case StopRun(status, flag, clearKey, cancelRows) => StopTouchesNothing(e, status, flag, clearKey, cancelRows, maxReviewCycles);
  }

  lemma StepKeepsReviewed(e: Engine, a: Action, maxReviewCycles: int)
    requires Reviewed(e, maxReviewCycles) && FixedBudget([a], maxReviewCycles)
    ensures Reviewed(Step(e, a), maxReviewCycles)
  {
    hide Reviewed;
    if !a.PersistResult? {
      OtherStepsKeepReviewed(e, a, maxReviewCycles);
    } else if HoldsClaim(e, a.execution) && !a.refused && CanReturn(e.executions[a.execution].key, a.outcome) {
      PersistKeepsReviewed(e, a.execution, a.outcome, maxReviewCycles);
    }
  }

  lemma {:induction false} RunIsReviewed(skipPlanning: bool, createPullRequest: bool, actions: seq<Action>, maxReviewCycles: int)
    requires FixedBudget(actions, maxReviewCycles)
    ensures Reviewed(Run(Initial(skipPlanning, createPullRequest), actions), maxReviewCycles)
  {
    if actions == [] {
      RunIsSafe(skipPlanning, createPullRequest, actions);
      hide Safe;
    } else {
      hide Reviewed, Step;
      RunIsReviewed(skipPlanning, createPullRequest, actions[..|actions| - 1], maxReviewCycles);
      StepKeepsReviewed(Run(Initial(skipPlanning, createPullRequest), actions[..|actions| - 1]), actions[|actions| - 1], maxReviewCycles);
    }
  }

  /** While the review budget stays the same, no review is stored after a final review. */
  lemma NothingIsReviewedAfterTheFinalReview(skipPlanning: bool, createPullRequest: bool, actions: seq<Action>, maxReviewCycles: int, n: nat, m: nat)
    requires FixedBudget(actions, maxReviewCycles)
    requires n < m < |Run(Initial(skipPlanning, createPullRequest), actions).log|
    requires IsFinalReview(Run(Initial(skipPlanning, createPullRequest), actions).log[n])
    ensures !IsReview(Run(Initial(skipPlanning, createPullRequest), actions).log[m])
  {
    hide Run, Safe, CountOk;
    RunIsReviewed(skipPlanning, createPullRequest, actions, maxReviewCycles);
    var log := Run(Initial(skipPlanning, createPullRequest), actions).log;
    ReviewsGrow(log[..m], n + 1);
    assert log[..m][..n + 1] == log[..n + 1];
    assert log[..m + 1] == log[..m] + [log[m]];
    ReviewsNext(log[..m], log[m]);
    ReviewsGrow(log, m + 1);
  }
}
