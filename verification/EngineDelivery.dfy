/** Ending a run: which status a decision gives it, and that no enabled step was passed over on the way. */
module EngineDelivery {
  import opened EngineeringRouter
  import opened RoutingTable
  import opened Statuses
  import opened WorkflowEngine
  import opened EngineSafety
  import opened EngineEndings

  // -- the status a commit gives ---------------------------------------------------------------

  /** A commit ends a run that is not over with the status that belongs to the decision. */
  lemma CommitGivesStatus(e: Engine, n: nat)
    requires n < |e.endings| && e.status in {RunStatus.PENDING, RunStatus.RUNNING, RunStatus.WAITING_FOR_HUMAN}
    ensures var status, verdict := Step(e, CommitEnding(n)).status, e.endings[n].verdict;
      && (status == RunStatus.SUCCEEDED <==> verdict == Completed)
      && (status == RunStatus.FAILED <==> verdict.Failed?)
      && (status == RunStatus.WAITING_FOR_HUMAN <==> verdict.WaitForHuman?)
      && (status == RunStatus.CANCELLED <==> verdict == Cancelled)
    ensures Step(e, CommitEnding(n)).current.None?
  {}

  /** A stop from outside ends it as it says. */
  lemma StopGivesStatus(e: Engine, status: RunStatus, flag: bool, clearKey: bool, cancelRows: bool)
    requires e.status in {RunStatus.PENDING, RunStatus.RUNNING, RunStatus.WAITING_FOR_HUMAN}
    requires status == RunStatus.FAILED || status == RunStatus.CANCELLED
    ensures Step(e, StopRun(status, flag, clearKey, cancelRows)).status == status
    ensures var after := Step(e, StopRun(status, flag, clearKey, cancelRows));
      && after.stored == e.stored.(cancelled := e.stored.cancelled || flag) && |after.rows| == |e.rows|
      && forall i :: 0 <= i < |e.rows| ==>
           after.rows[i] == if cancelRows && e.rows[i].status == RunStatus.RUNNING then e.rows[i].(status := RunStatus.CANCELLED) else e.rows[i]
  {}

  /** A run that has SUCCEEDED, FAILED or been CANCELLED never changes again. */
  lemma {:induction false} EndedRunIsFrozen(e: Engine, more: seq<Action>)
    requires e.status in {RunStatus.SUCCEEDED, RunStatus.FAILED, RunStatus.CANCELLED}
    ensures Run(e, more) == e
  {
    hide Verdict, Claim;
    if more != [] {
      EndedRunIsFrozen(e, more[..|more| - 1]);
    }
  }

  predicate AtWork(e: Engine) {
    e.status == RunStatus.PENDING || e.status == RunStatus.RUNNING
  }

  /** A run that was handed to a person starts no step and stores no result any more. */
  lemma {:induction false} HandedOverRunRests(e: Engine, more: seq<Action>)
    requires !AtWork(e)
    ensures !AtWork(Run(e, more)) && Run(e, more).log == e.log && Run(e, more).executions == e.executions
  {
    hide Step;
    if more != [] {
      HandedOverRunRests(e, more[..|more| - 1]);
      RestsForOneStep(Run(e, more[..|more| - 1]), more[|more| - 1]);
    }
  }

  lemma RestsForOneStep(e: Engine, a: Action)
    requires !AtWork(e)
    ensures !AtWork(Step(e, a)) && Step(e, a).log == e.log && Step(e, a).executions == e.executions
  {
    hide Verdict, Claim, CancelRunning;
  }

  // -- enabled steps -----------------------------------------------------------------------------

  /** The step is completed, or was given up. */
  ghost predicate OverIn(rows: seq<Row>, key: StepKey) {
    Done(rows, key) || FailedForGood(rows, key)
  }

  ghost predicate Delivered(e: Engine, ui: bool, documentation: bool) {
    && (ui ==> OverIn(e.rows, UI_QA))
    && (documentation ==> OverIn(e.rows, DOCUMENT))
    && (e.stored.createPullRequest ==> OverIn(e.rows, PREPARE_PR))
  }

  /** Every worker saw at least these steps switched on. */
  predicate EnabledThroughout(actions: seq<Action>, ui: bool, documentation: bool) {
    forall i :: 0 <= i < |actions| && actions[i].AdvanceRun? ==>
      (ui ==> actions[i].config.uiQaEnabled) && (documentation ==> actions[i].config.documentationEnabled)
  }

  lemma CompletedIsDelivered(e: Engine, config: Config, ui: bool, documentation: bool)
    requires Verdict(e, config) == Completed && (ui ==> config.uiQaEnabled) && (documentation ==> config.documentationEnabled)
    ensures Delivered(e, ui, documentation)
  {
    var s := StateOf(e, config);
    assert Decide(s) == Completed by {
      hide Decide, StateOf, TotalAttempts;
    }
    EnabledStepsAreNotSkipped(s);
    hide Decide, TotalAttempts, Done, FailedForGood;
  }

  lemma DeliveredStays(e: Engine, a: Action, ui: bool, documentation: bool)
    requires Safe(e) && Delivered(e, ui, documentation)
    ensures Delivered(Step(e, a), ui, documentation)
  {
    hide Safe, Step, Done, FailedForGood;
    StepProgress(e, a, UI_QA);
    StepProgress(e, a, DOCUMENT);
    StepProgress(e, a, PREPARE_PR);
    WishIsKept(e, a);
  }

  /** Whether a pull request is wanted is settled when the run is created. */
  lemma WishIsKept(e: Engine, a: Action)
    requires Safe(e)
    ensures Step(e, a).stored.createPullRequest == e.stored.createPullRequest
  {
    hide Safe, Verdict, ReusableRow, CancelRunning;
    if a.PersistResult? && HoldsClaim(e, a.execution) {
      HolderKeepsState(e, a.execution);
    }
  }

  ghost predicate Delivering(e: Engine, ui: bool, documentation: bool) {
    && Safe(e)
    && (forall n {:trigger e.endings[n]} :: 0 <= n < |e.endings| && e.endings[n].verdict == Completed ==> Delivered(e, ui, documentation))
    && (e.status == RunStatus.SUCCEEDED ==> Delivered(e, ui, documentation))
  }

  lemma StepKeepsDelivering(e: Engine, a: Action, ui: bool, documentation: bool)
    requires Delivering(e, ui, documentation) && EnabledThroughout([a], ui, documentation)
    ensures Delivering(Step(e, a), ui, documentation)
  {
    hide Safe, Step, Verdict, Delivered;
    assert [a][0] == a;
    StepKeepsSafe(e, a);
    StepGrows(e, a);
    SucceedsOnlyByCommit(e, a);
    var after := Step(e, a);
    forall n | 0 <= n < |after.endings| && after.endings[n].verdict == Completed ensures Delivered(after, ui, documentation) {
      if n < |e.endings| {
        assert after.endings[n] == e.endings[n];
      } else {
        CompletedIsDelivered(e, a.config, ui, documentation);
      }
      DeliveredStays(e, a, ui, documentation);
    }
    if after.status == RunStatus.SUCCEEDED {
      DeliveredStays(e, a, ui, documentation);
    }
  }

  lemma {:induction false} RunIsDelivering(skipPlanning: bool, createPullRequest: bool, actions: seq<Action>, ui: bool, documentation: bool)
    requires EnabledThroughout(actions, ui, documentation)
    ensures var e := Run(Initial(skipPlanning, createPullRequest), actions);
            Delivering(e, ui, documentation) && e.stored.createPullRequest == createPullRequest
  {
    if actions == [] {
      RunIsSafe(skipPlanning, createPullRequest, actions);
      hide Safe;
    } else {
      hide Delivering, Step;
      var init, last := actions[..|actions| - 1], actions[|actions| - 1];
      RunIsDelivering(skipPlanning, createPullRequest, init, ui, documentation);
      var e := Run(Initial(skipPlanning, createPullRequest), init);
      StepKeepsDelivering(e, last, ui, documentation);
      assert Safe(e) by { DeliveringIsSafe(e, ui, documentation); }
      WishIsKept(e, last);
    }
  }

  lemma DeliveringIsSafe(e: Engine, ui: bool, documentation: bool)
    requires Delivering(e, ui, documentation)
    ensures Safe(e)
  {
    hide Safe;
  }

  /**
   A run that has SUCCEEDED has every enabled step behind it, completed or given up: the UI check and
   the documentation if they were switched on throughout, the pull request if it was asked for.
   */
  lemma NoEnabledStepIsSkipped(skipPlanning: bool, createPullRequest: bool, actions: seq<Action>, ui: bool, documentation: bool)
    requires EnabledThroughout(actions, ui, documentation)
    requires Run(Initial(skipPlanning, createPullRequest), actions).status == RunStatus.SUCCEEDED
    ensures var rows := Run(Initial(skipPlanning, createPullRequest), actions).rows;
      && (ui ==> Done(rows, UI_QA) || FailedForGood(rows, UI_QA))
      && (documentation ==> Done(rows, DOCUMENT) || FailedForGood(rows, DOCUMENT))
      && (createPullRequest ==> Done(rows, PREPARE_PR) || FailedForGood(rows, PREPARE_PR))
  {
    hide Run, Safe, Done, FailedForGood;
    RunIsDelivering(skipPlanning, createPullRequest, actions, ui, documentation);
  }
}
