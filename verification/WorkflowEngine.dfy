/**
 The engine that drives the router: persisted step rows, claims, results and the
 execution cap. One transaction of the engine is one step here, workers may
 crash, hold a result or a decision back or lose their claim, and the settings of
 the project may change between any two steps.
 */
module WorkflowEngine {
  import opened EngineeringRouter
  import opened Statuses
  import opened Wrappers

  datatype Row = Row(key: StepKey, status: RunStatus, attempt: nat)

  /** The fields of the persisted state column that the router reads. */
  datatype Stored = Stored(
    reviewCycle: nat,
    attempt: nat,
    testsPassed: bool,
    verificationPending: bool,
    reviewApproved: bool,
    hasBlockingFindings: bool,
    skipPlanning: bool,
    createPullRequest: bool,
    cancelled: bool)

  /** What the engine re-reads from the task and the project on every advance. */
  datatype Config = Config(
    maxReviewCycles: int,
    maxAttempts: int,
    permissionLevel: PermissionLevel,
    uiQaEnabled: bool,
    documentationEnabled: bool)

  /** A claim: row and attempt are the token its result must present; base is the state it was decided on. */
  datatype Execution = Execution(row: nat, attempt: nat, key: StepKey, base: Stored, config: Config)

  /** What a step handler reports, with the part of its patch the router can see. */
  datatype Outcome =
    | StepFailed
    | StepSkipped
    | StepDone
    | CodeChanged
    | ChecksRan(passed: bool)
    | UiReviewed(uiBlocking: bool)
    | Reviewed(approved: bool, blocking: bool)

  datatype Entry = Entry(execution: nat, key: StepKey, outcome: Outcome)

  type Ended = d: Decision | !d.RunStep? witness Completed

  /** A decision to end the run, and the number of results that were stored when it was taken. */
  datatype Ending = Ending(verdict: Ended, seen: nat)

  /** executions, log and endings are the history: every claim made, every result stored, every end decided. */
  datatype Engine = Engine(
    status: RunStatus,
    current: Option<StepKey>,
    rows: seq<Row>,
    stored: Stored,
    executions: seq<Execution>,
    log: seq<Entry>,
    endings: seq<Ending>)

  const MAX_STEP_EXECUTIONS := 60

  function Initial(skipPlanning: bool, createPullRequest: bool): Engine {
    Engine(RunStatus.PENDING, None, [], Stored(0, 0, false, false, false, false, skipPlanning, createPullRequest, false), [], [], [])
  }

  // -- the state handed to the router -----------------------------------------------

  predicate Completes(row: Row) {
    row.status == RunStatus.SUCCEEDED || row.status == RunStatus.SKIPPED
  }

  predicate FailsFinally(row: Row) {
    row.status == RunStatus.FAILED && row.attempt >= MaxAttempts(row.key)
  }

  ghost predicate Done(rows: seq<Row>, key: StepKey) {
    exists i :: 0 <= i < |rows| && rows[i].key == key && Completes(rows[i])
  }

  ghost predicate FailedForGood(rows: seq<Row>, key: StepKey) {
    exists i :: 0 <= i < |rows| && rows[i].key == key && FailsFinally(rows[i])
  }

  /** The keys of completed rows in row order, each once. */
  function CompletedSteps(rows: seq<Row>): (keys: seq<StepKey>)
    ensures forall k :: k in keys <==> Done(rows, k)
  {
    if rows == [] then []
    else
      var init, last := rows[..|rows| - 1], rows[|rows| - 1];
      assert forall k :: Done(rows, k) <==> Done(init, k) || (last.key == k && Completes(last)) by { DoneLast(rows); }
      var keys := CompletedSteps(init);
      if Completes(last) && last.key !in keys then keys + [last.key] else keys
  }

  /** The keys of finally failed rows in row order, each once. */
  function FailedSteps(rows: seq<Row>): (keys: seq<StepKey>)
    ensures forall k :: k in keys <==> FailedForGood(rows, k)
  {
    if rows == [] then []
    else
      var init, last := rows[..|rows| - 1], rows[|rows| - 1];
      assert forall k :: FailedForGood(rows, k) <==> FailedForGood(init, k) || (last.key == k && FailsFinally(last)) by { DoneLast(rows); }
      var keys := FailedSteps(init);
      if FailsFinally(last) && last.key !in keys then keys + [last.key] else keys
  }

  lemma DoneLast(rows: seq<Row>)
    requires rows != []
    ensures forall k :: Done(rows, k) <==>
      Done(rows[..|rows| - 1], k) || (rows[|rows| - 1].key == k && Completes(rows[|rows| - 1]))
    ensures forall k :: FailedForGood(rows, k) <==>
      FailedForGood(rows[..|rows| - 1], k) || (rows[|rows| - 1].key == k && FailsFinally(rows[|rows| - 1]))
  {
    var init := rows[..|rows| - 1];
    forall k ensures Done(rows, k) <==> Done(init, k) || (rows[|rows| - 1].key == k && Completes(rows[|rows| - 1])) {
      if Done(init, k) {
        var i :| 0 <= i < |init| && init[i].key == k && Completes(init[i]);
        assert rows[i] == init[i];
      }
      if Done(rows, k) {
        var i :| 0 <= i < |rows| && rows[i].key == k && Completes(rows[i]);
        assert i < |init| ==> init[i] == rows[i];
      }
    }
    forall k ensures FailedForGood(rows, k) <==> FailedForGood(init, k) || (rows[|rows| - 1].key == k && FailsFinally(rows[|rows| - 1])) {
      if FailedForGood(init, k) {
        var i :| 0 <= i < |init| && init[i].key == k && FailsFinally(init[i]);
        assert rows[i] == init[i];
      }
      if FailedForGood(rows, k) {
        var i :| 0 <= i < |rows| && rows[i].key == k && FailsFinally(rows[i]);
        assert i < |init| ==> init[i] == rows[i];
      }
    }
  }

  /** Rows that look the same to the router. */
  ghost predicate SameMarks(rows: seq<Row>, other: seq<Row>) {
    && |rows| == |other|
    && forall i {:trigger rows[i]} {:trigger other[i]} :: 0 <= i < |rows| ==>
         rows[i].key == other[i].key && (Completes(rows[i]) <==> Completes(other[i])) && (FailsFinally(rows[i]) <==> FailsFinally(other[i]))
  }

  lemma {:induction false} SameMarksSameSteps(rows: seq<Row>, other: seq<Row>)
    requires SameMarks(rows, other)
    ensures CompletedSteps(rows) == CompletedSteps(other) && FailedSteps(rows) == FailedSteps(other)
  {
    if rows != [] {
      SameMarksSameSteps(rows[..|rows| - 1], other[..|other| - 1]);
    }
  }

  function StateOf(e: Engine, config: Config): WorkflowState {
    WorkflowState(
      CompletedSteps(e.rows), FailedSteps(e.rows),
      e.stored.reviewCycle, config.maxReviewCycles, e.stored.attempt, config.maxAttempts,
      e.stored.testsPassed, e.stored.verificationPending, e.stored.reviewApproved, e.stored.hasBlockingFindings,
      config.uiQaEnabled, config.documentationEnabled, e.stored.skipPlanning, e.stored.createPullRequest,
      config.permissionLevel, e.status == RunStatus.CANCELLED || e.stored.cancelled)
  }

  function TotalAttempts(rows: seq<Row>): nat {
    if rows == [] then 0 else TotalAttempts(rows[..|rows| - 1]) + rows[|rows| - 1].attempt
  }

  /** The engine's cap on step executions, and its second look at the review budget. */
  function GuardDecision(d: Decision, s: WorkflowState, rows: seq<Row>): Decision {
    if !d.RunStep? then d
    else if TotalAttempts(rows) >= MAX_STEP_EXECUTIONS then WaitForHuman(NotConverging)
    else if (d.key == REVIEW || d.key == FINAL_REVIEW) && s.reviewCycle >= s.maxReviewCycles then WaitForHuman(NotApproved)
    else d
  }

  /** The second look at the review budget never disagrees with the router. */
  lemma GuardHasNoSay(s: WorkflowState)
    ensures Decide(s) in {RunStep(REVIEW), RunStep(FINAL_REVIEW)} ==> s.reviewCycle < s.maxReviewCycles
  {
    hide FailureVerdict;
  }

  function Verdict(e: Engine, config: Config): Decision {
    GuardDecision(Decide(StateOf(e, config)), StateOf(e, config), e.rows)
  }

  /** Decisions to end the run that have not been committed are invisible to the router. */
  lemma EndingsDoNotCount(e: Engine, f: Engine, config: Config)
    requires f == e.(endings := f.endings)
    ensures Verdict(f, config) == Verdict(e, config)
  {
    assert StateOf(f, config) == StateOf(e, config);
  }

  // -- the transactions ----------------------------------------------------------------

  /** Steps that get a fresh row each time they run. */
  predicate CycleStep(key: StepKey) {
    key == FIX || key == RETEST || key == RUN_TESTS || key == REVIEW || key == FINAL_REVIEW
  }

  function LastRunning(rows: seq<Row>, key: StepKey): (r: Option<nat>)
    ensures r.Some? ==> r.value < |rows| && rows[r.value].key == key && rows[r.value].status == RunStatus.RUNNING
    ensures r.None? ==> forall i :: 0 <= i < |rows| && rows[i].key == key ==> rows[i].status != RunStatus.RUNNING
  {
    if rows == [] then None
    else
      var last := |rows| - 1;
      if rows[last].key == key && rows[last].status == RunStatus.RUNNING then Some(last)
      else LastRunning(rows[..last], key)
  }

  /** The first row of the key, from position i on, that has not succeeded. */
  function FirstUnsucceeded(rows: seq<Row>, key: StepKey, i: nat): (r: Option<nat>)
    requires i <= |rows|
    ensures r.Some? ==> r.value < |rows| && rows[r.value].key == key && rows[r.value].status != RunStatus.SUCCEEDED
    ensures r.None? ==> forall j :: i <= j < |rows| && rows[j].key == key ==> rows[j].status == RunStatus.SUCCEEDED
    decreases |rows| - i
  {
    if i == |rows| then None
    else if rows[i].key == key && rows[i].status != RunStatus.SUCCEEDED then Some(i)
    else FirstUnsucceeded(rows, key, i + 1)
  }

  function ReusableRow(e: Engine, key: StepKey): Option<nat> {
    var abandoned := if e.current == Some(key) then LastRunning(e.rows, key) else None;
    if abandoned.Some? || CycleStep(key) then abandoned else FirstUnsucceeded(e.rows, key, 0)
  }

  predicate MayClaim(e: Engine, key: StepKey, leaseExpired: bool) {
    && e.status == RunStatus.RUNNING
    && (e.current.Some? ==> e.current == Some(key) && LastRunning(e.rows, key).Some? && leaseExpired)
  }

  function Claim(e: Engine, key: StepKey, config: Config): Engine {
    var reusable := ReusableRow(e, key);
    if reusable.Some? then
      var attempt := e.rows[reusable.value].attempt + 1;
      e.(current := Some(key),
         rows := e.rows[reusable.value := Row(key, RunStatus.RUNNING, attempt)],
         executions := e.executions + [Execution(reusable.value, attempt, key, e.stored, config)])
    else
      e.(current := Some(key),
         rows := e.rows + [Row(key, RunStatus.RUNNING, 1)],
         executions := e.executions + [Execution(|e.rows|, 1, key, e.stored, config)])
  }

  /**
   One `advance` up to its last transaction: load, decide, then claim a step, or settle on
   ending the run. A cancelled task refuses the claim.
   */
  function Advance(e: Engine, config: Config, leaseExpired: bool, taskCancelled: bool): Engine {
    if !Claimable(e.status) then e
    else
      var verdict := Verdict(e, config);
      var started := if e.status == RunStatus.PENDING then e.(status := RunStatus.RUNNING) else e;
      if !verdict.RunStep? then started.(endings := e.endings + [Ending(verdict, |e.log|)])
      else if MayClaim(started, verdict.key, leaseExpired) && !taskCancelled then Claim(started, verdict.key, config)
      else started
  }

  function EndStatus(verdict: Ended): RunStatus {
    match verdict
    case Completed => RunStatus.SUCCEEDED
    case Failed(_) => RunStatus.FAILED
    case WaitForHuman(_) => RunStatus.WAITING_FOR_HUMAN
    case Cancelled => RunStatus.CANCELLED
  }

  /** The transaction that ends the run: it only asks whether the run is still claimable. */
  function Commit(e: Engine, n: nat): Engine {
    if n < |e.endings| && Claimable(e.status) then e.(status := EndStatus(e.endings[n].verdict), current := None) else e
  }

  /** What each handler may report. */
  predicate CanReturn(key: StepKey, outcome: Outcome) {
    || outcome == StepFailed
    || match key
       case ANALYZE_REPOSITORY | CREATE_WORKTREE | DOCUMENT | PREPARE_PR => outcome == StepDone || outcome == StepSkipped
       case PLAN | CREATE_TASKS | COMPLETE => outcome == StepDone
       case IMPLEMENT | FIX => outcome == CodeChanged
       case RUN_TESTS | RETEST => outcome.ChecksRan?
       case UI_QA => outcome.UiReviewed? || outcome == StepSkipped
       case REVIEW | FINAL_REVIEW => outcome.Reviewed?
  }

  function Patched(base: Stored, outcome: Outcome): Stored {
    match outcome
    case StepFailed | StepSkipped | StepDone => base
    case CodeChanged =>
      base.(testsPassed := false, verificationPending := true, reviewApproved := false, hasBlockingFindings := false,
            attempt := base.attempt + 1)
    case ChecksRan(passed) => base.(testsPassed := passed, verificationPending := false)
    case UiReviewed(blocking) => if blocking then base.(hasBlockingFindings := true) else base
    case Reviewed(approved, blocking) =>
      base.(reviewApproved := approved, hasBlockingFindings := blocking || !approved, reviewCycle := base.reviewCycle + 1)
  }

  function ResultStatus(key: StepKey, attempt: nat, outcome: Outcome): RunStatus {
    match outcome
    case StepFailed => if attempt < MaxAttempts(key) then RunStatus.PENDING else RunStatus.FAILED
    case StepSkipped => RunStatus.SKIPPED
    case _ => RunStatus.SUCCEEDED
  }

  /** The guard of both result transactions: the run and the row still carry this claim. */
  predicate HoldsClaim(e: Engine, x: nat) {
    && x < |e.executions|
    && var claim := e.executions[x];
       && e.status == RunStatus.RUNNING && e.current == Some(claim.key)
       && claim.row < |e.rows|
       && e.rows[claim.row].status == RunStatus.RUNNING && e.rows[claim.row].attempt == claim.attempt
  }

  /** The result of execution x is stored, provided its claim still holds. */
  function Persist(e: Engine, x: nat, outcome: Outcome, taskCancelled: bool): Engine {
    if !HoldsClaim(e, x) || taskCancelled || !CanReturn(e.executions[x].key, outcome) then e
    else
      var claim := e.executions[x];
      e.(current := None,
         rows := e.rows[claim.row := e.rows[claim.row].(status := ResultStatus(claim.key, claim.attempt, outcome))],
         stored := Patched(claim.base, outcome),
         log := e.log + [Entry(x, claim.key, outcome)])
  }

  /** The entry transition or the result transaction threw: the claim is given back. */
  function Release(e: Engine, x: nat): Engine {
    if !HoldsClaim(e, x) then e
    else
      var claim := e.executions[x];
      e.(current := None, rows := e.rows[claim.row := e.rows[claim.row].(status := RunStatus.PENDING)])
  }

  function CancelRunning(rows: seq<Row>): (r: seq<Row>)
    ensures |r| == |rows|
    ensures forall i :: 0 <= i < |rows| ==> r[i] == if rows[i].status == RunStatus.RUNNING then rows[i].(status := RunStatus.CANCELLED) else rows[i]
  {
    seq(|rows|, i requires 0 <= i < |rows| =>
      if rows[i].status == RunStatus.RUNNING then rows[i].(status := RunStatus.CANCELLED) else rows[i])
  }

  /** A cancellation or an early failure from outside ends the run. */
  function Stop(e: Engine, status: RunStatus, flag: bool, clearKey: bool, cancelRows: bool): Engine {
    if !Claimable(e.status) || (status != RunStatus.FAILED && status != RunStatus.CANCELLED) then e
    else e.(status := status,
            current := if clearKey then None else e.current,
            rows := if cancelRows then CancelRunning(e.rows) else e.rows,
            stored := e.stored.(cancelled := e.stored.cancelled || flag))
  }

  datatype Action =
    | AdvanceRun(config: Config, leaseExpired: bool, taskCancelled: bool)
    | CommitEnding(ending: nat)
    | PersistResult(execution: nat, outcome: Outcome, refused: bool)
    | ReleaseClaim(released: nat)
    | StopRun(status: RunStatus, flag: bool, clearKey: bool, cancelRows: bool)

  function Step(e: Engine, a: Action): Engine {
    match a
    case AdvanceRun(config, leaseExpired, taskCancelled) => Advance(e, config, leaseExpired, taskCancelled)
    case CommitEnding(n) => Commit(e, n)
    case PersistResult(x, outcome, refused) => Persist(e, x, outcome, refused)
    case ReleaseClaim(x) => Release(e, x)
    case StopRun(status, flag, clearKey, cancelRows) => Stop(e, status, flag, clearKey, cancelRows)
  }

  function Run(e: Engine, actions: seq<Action>): Engine {
    if actions == [] then e else Step(Run(e, actions[..|actions| - 1]), actions[|actions| - 1])
  }

  lemma {:induction false} RunAppends(e: Engine, first: seq<Action>, second: seq<Action>)
    ensures Run(e, first + second) == Run(Run(e, first), second)
  {
    if second == [] {
      assert first + second == first;
    } else {
      assert (first + second)[..|first + second| - 1] == first + second[..|second| - 1];
      RunAppends(e, first, second[..|second| - 1]);
    }
  }

  lemma OneStep(e: Engine, a: Action)
    ensures Run(e, [a]) == Step(e, a)
  {
    assert [a][..0] == [];
  }
}
