/** How many results a run can store: every execution is paid for by one of the budgets. */
module EngineBudget {
  import opened EngineeringRouter
  import opened Statuses
  import opened WorkflowEngine
  import opened EngineClaims
  import opened EngineSafety
  import opened Wrappers

  function CountKey(log: seq<Entry>, key: StepKey): nat {
    if log == [] then 0
    else CountKey(log[..|log| - 1], key) + if log[|log| - 1].key == key then 1 else 0
  }

  /** The results of the key other than failures. */
  function CountOk(log: seq<Entry>, key: StepKey): nat {
    if log == [] then 0
    else CountOk(log[..|log| - 1], key) + if log[|log| - 1].key == key && log[|log| - 1].outcome != StepFailed then 1 else 0
  }

  /** Failures of the agent steps that get a fresh row, and so a fresh attempt counter, every time. */
  function CycleFailures(log: seq<Entry>): nat {
    if log == [] then 0
    else CycleFailures(log[..|log| - 1]) +
         if log[|log| - 1].key in {FIX, REVIEW, FINAL_REVIEW} && log[|log| - 1].outcome == StepFailed then 1 else 0
  }

  lemma AppendCounts(log: seq<Entry>, entry: Entry)
    ensures forall key :: CountKey(log + [entry], key) == CountKey(log, key) + if entry.key == key then 1 else 0
    ensures forall key :: CountOk(log + [entry], key) == CountOk(log, key) + if entry.key == key && entry.outcome != StepFailed then 1 else 0
  {
    assert (log + [entry])[..|log|] == log;
  }

  /** The results of the steps that run until they are done. */
  function CountOnce(log: seq<Entry>): nat {
    if log == [] then 0
    else CountOnce(log[..|log| - 1]) + if Repeats(log[|log| - 1].key) then 0 else 1
  }

  /** Each entry belongs to a step that runs once, to a retest, or to a cycle step that succeeded or failed. */
  lemma {:induction false} Partition(log: seq<Entry>)
    ensures |log| == CountOnce(log) + CountKey(log, RETEST) + CountOk(log, FIX) + CountOk(log, REVIEW) + CountOk(log, FINAL_REVIEW) + CycleFailures(log)
  {
    if log != [] {
      Partition(log[..|log| - 1]);
    }
  }

  function CountPlanning(log: seq<Entry>): nat {
    CountKey(log, ANALYZE_REPOSITORY) + CountKey(log, PLAN) + CountKey(log, CREATE_TASKS) + CountKey(log, CREATE_WORKTREE) + CountKey(log, IMPLEMENT)
  }

  function CountDelivery(log: seq<Entry>): nat {
    CountKey(log, RUN_TESTS) + CountKey(log, UI_QA) + CountKey(log, DOCUMENT) + CountKey(log, PREPARE_PR) + CountKey(log, COMPLETE)
  }

  lemma {:induction false} OnceByKey(log: seq<Entry>)
    ensures CountOnce(log) == CountPlanning(log) + CountDelivery(log)
  {
    if log != [] {
      OnceByKey(log[..|log| - 1]);
    }
  }

  // -- the invariant ----------------------------------------------------------------------------

  ghost predicate Live(e: Engine, key: StepKey) {
    e.status == RunStatus.RUNNING && e.current == Some(key)
  }

  ghost predicate Open(e: Engine, key: StepKey) {
    !Done(e.rows, key) && !FailedForGood(e.rows, key)
  }

  /** Results of a step that runs once never exceed its attempts, and one attempt is left while it is open. */
  ghost predicate WithinAttempts(e: Engine, key: StepKey) {
    && CountKey(e.log, key) <= MaxAttempts(key) - (if Open(e, key) then 1 else 0)
    && (forall i {:trigger e.rows[i]} :: 0 <= i < |e.rows| && e.rows[i].key == key && !CycleStep(key) ==>
          CountKey(e.log, key) + (if Live(e, key) then 1 else 0) <= e.rows[i].attempt)
  }

  /** Every step but the cycle steps has one row. */
  ghost predicate RowsUnique(rows: seq<Row>) {
    forall i, j :: 0 <= i < j < |rows| && rows[i].key == rows[j].key ==> CycleStep(rows[i].key)
  }

  ghost function RetestOwed(e: Engine): nat {
    if e.stored.verificationPending && Done(e.rows, RUN_TESTS) && !FailedForGood(e.rows, RETEST) then 1 else 0
  }

  function Positive(n: int): nat { if n < 0 then 0 else n }

  ghost predicate AttemptBudgets(e: Engine) {
    && RowsUnique(e.rows)
    && (forall key {:trigger WithinAttempts(e, key)} :: !Repeats(key) ==> WithinAttempts(e, key))
  }

  /** The two counters of the state column are exactly what the history says, and stay within the budgets. */
  ghost predicate CycleBudgets(e: Engine, maxAttempts: int, maxReviewCycles: int) {
    && CountKey(e.log, RETEST) + RetestOwed(e) <= CountOk(e.log, FIX)
    && CountersFit(e, maxAttempts, maxReviewCycles)
  }

  ghost predicate CountersFit(e: Engine, maxAttempts: int, maxReviewCycles: int) {
    && CountOk(e.log, IMPLEMENT) + CountOk(e.log, FIX) == e.stored.attempt
    && (Done(e.rows, IMPLEMENT) ==> CountOk(e.log, IMPLEMENT) >= 1)
    && CountOk(e.log, FIX) <= Positive(maxAttempts - 1)
    && CountOk(e.log, REVIEW) + CountOk(e.log, FINAL_REVIEW) == e.stored.reviewCycle
    && e.stored.reviewCycle <= Positive(maxReviewCycles)
  }

  ghost predicate ConfigsWithin(e: Engine, maxAttempts: int, maxReviewCycles: int) {
    forall x :: 0 <= x < |e.executions| ==>
      e.executions[x].config.maxAttempts <= maxAttempts && e.executions[x].config.maxReviewCycles <= maxReviewCycles
  }

  ghost predicate Budgeted(e: Engine, maxAttempts: int, maxReviewCycles: int) {
    && Safe(e) && AttemptBudgets(e)
    && ConfigsWithin(e, maxAttempts, maxReviewCycles)
    && CycleBudgets(e, maxAttempts, maxReviewCycles)
  }

  // -- preservation -------------------------------------------------------------------------------

  lemma RowOf(rows: seq<Row>, i: nat, row: Row, key: StepKey)
    requires i < |rows| && row.key == rows[i].key
    ensures key != row.key ==> (Done(rows[i := row], key) <==> Done(rows, key)) && (FailedForGood(rows[i := row], key) <==> FailedForGood(rows, key))
    ensures !Completes(rows[i]) && !Completes(row) ==> (Done(rows[i := row], key) <==> Done(rows, key))
    ensures !FailsFinally(rows[i]) && !FailsFinally(row) ==> (FailedForGood(rows[i := row], key) <==> FailedForGood(rows, key))
    ensures Completes(row) ==> Done(rows[i := row], row.key)
    ensures FailsFinally(row) ==> FailedForGood(rows[i := row], row.key)
  {
    var updated := rows[i := row];
    assert updated[i] == row;
    assert forall j :: 0 <= j < |rows| && j != i ==> updated[j] == rows[j];
    forall k | Done(rows, k) && (k != row.key || !Completes(rows[i])) ensures Done(updated, k) {
      var j :| 0 <= j < |rows| && rows[j].key == k && Completes(rows[j]);
      assert updated[j] == rows[j];
    }
    forall k | FailedForGood(rows, k) && (k != row.key || !FailsFinally(rows[i])) ensures FailedForGood(updated, k) {
      var j :| 0 <= j < |rows| && rows[j].key == k && FailsFinally(rows[j]);
      assert updated[j] == rows[j];
    }
  }

  lemma NewRow(rows: seq<Row>, row: Row, key: StepKey)
    requires !Completes(row) && !FailsFinally(row)
    ensures Done(rows + [row], key) <==> Done(rows, key)
    ensures FailedForGood(rows + [row], key) <==> FailedForGood(rows, key)
  {
    var longer := rows + [row];
    if Done(rows, key) {
      var j :| 0 <= j < |rows| && rows[j].key == key && Completes(rows[j]);
      assert longer[j] == rows[j];
    }
    if FailedForGood(rows, key) {
      var j :| 0 <= j < |rows| && rows[j].key == key && FailsFinally(rows[j]);
      assert longer[j] == rows[j];
    }
  }

  /** Which steps are done or failed for good is the same before and after. */
  ghost predicate SameProgress(before: seq<Row>, after: seq<Row>) {
    forall k :: (Done(after, k) <==> Done(before, k)) && (FailedForGood(after, k) <==> FailedForGood(before, k))
  }

  lemma ClaimKeepsProgress(e: Engine, key: StepKey, config: Config)
    requires StillOpen(e.rows, key)
    ensures SameProgress(e.rows, Claim(e, key, config).rows)
  {
    var c, reusable := Claim(e, key, config), ReusableRow(e, key);
    forall k ensures (Done(c.rows, k) <==> Done(e.rows, k)) && (FailedForGood(c.rows, k) <==> FailedForGood(e.rows, k)) {
      if reusable.Some? {
        var row := e.rows[reusable.value];
        assert !FailsFinally(row);
        assert !Completes(row);
        RowOf(e.rows, reusable.value, c.rows[reusable.value], k);
      } else {
        NewRow(e.rows, c.rows[|e.rows|], k);
      }
    }
  }

  lemma {:induction false} NoEntries(log: seq<Entry>, key: StepKey)
    requires forall n :: 0 <= n < |log| ==> log[n].key != key
    ensures CountKey(log, key) == 0
  {
    if log != [] {
      NoEntries(log[..|log| - 1], key);
    }
  }

  lemma NoRowNoEntries(e: Engine, key: StepKey)
    requires Safe(e) && forall i :: 0 <= i < |e.rows| ==> e.rows[i].key != key
    ensures CountKey(e.log, key) == 0
  {
    forall n: nat | n < |e.log| ensures e.log[n].key != key {
      assert EntryHasRow(e, n);
    }
    NoEntries(e.log, key);
  }

  lemma ClaimKeepsRowsUnique(e: Engine, key: StepKey, config: Config, leaseExpired: bool)
    requires RowsUnique(e.rows) && StillOpen(e.rows, key) && MayClaim(e, key, leaseExpired)
    ensures RowsUnique(Claim(e, key, config).rows)
  {
    var c := Claim(e, key, config);
    forall i, j | 0 <= i < j < |c.rows| && c.rows[i].key == c.rows[j].key ensures CycleStep(c.rows[i].key) {
      if j < |e.rows| {
        assert e.rows[i].key == e.rows[j].key;
      } else if !CycleStep(key) {
        assert Completes(e.rows[i]);
      }
    }
  }

  /** The row the claim works on is the only one that changes, and it gets one attempt more. */
  lemma ClaimedRows(e: Engine, key: StepKey, config: Config)
    ensures var c := Claim(e, key, config);
      && |e.rows| <= |c.rows| && c.log == e.log
      && (forall i {:trigger c.rows[i]} :: 0 <= i < |e.rows| ==>
            c.rows[i] == e.rows[i] || (e.rows[i].key == key && c.rows[i].key == key && c.rows[i].attempt == e.rows[i].attempt + 1))
      && (forall i {:trigger c.rows[i]} :: |e.rows| <= i < |c.rows| ==> c.rows[i].key == key && c.rows[i].attempt == 1)
      && (forall i {:trigger c.rows[i]} :: 0 <= i < |e.rows| && e.rows[i].key == key && !CycleStep(key) && RowsUnique(e.rows) && !Completes(e.rows[i]) ==>
            c.rows[i].attempt == e.rows[i].attempt + 1)
  {}

  /** An old row of a step that runs once still has at least as many attempts as results, one more while it is live. */
  lemma ClaimKeepsOldRow(e: Engine, key: StepKey, config: Config, leaseExpired: bool, i: nat)
    requires AttemptBudgets(e) && StillOpen(e.rows, key) && MayClaim(e, key, leaseExpired)
    requires i < |e.rows| && !CycleStep(e.rows[i].key) && !Repeats(e.rows[i].key)
    ensures var c, k := Claim(e, key, config), e.rows[i].key;
      i < |c.rows| && CountKey(c.log, k) + (if Live(c, k) then 1 else 0) <= c.rows[i].attempt
  {
    hide ReusableRow, CountKey, Open;
    ClaimedRows(e, key, config);
    assert WithinAttempts(e, e.rows[i].key);
    assert e.rows[i].key == key ==> !Completes(e.rows[i]);
  }

  lemma ClaimKeepsNewRow(e: Engine, key: StepKey, config: Config, i: nat)
    requires Safe(e) && StillOpen(e.rows, key) && !CycleStep(key) && |e.rows| <= i < |Claim(e, key, config).rows|
    ensures var c := Claim(e, key, config);
      c.rows[i].key == key && CountKey(c.log, key) + (if Live(c, key) then 1 else 0) <= c.rows[i].attempt
  {
    hide Safe, CountKey, StillOpen;
    ClaimedRows(e, key, config);
    forall j | 0 <= j < |e.rows| ensures e.rows[j].key != key {
      OnlyOneRow(e, key, config, j);
    }
    NoRowNoEntries(e, key);
  }

  lemma ClaimKeepsWithin(e: Engine, key: StepKey, config: Config, leaseExpired: bool, k: StepKey)
    requires Safe(e) && AttemptBudgets(e) && StillOpen(e.rows, key) && MayClaim(e, key, leaseExpired) && !Repeats(k)
    ensures WithinAttempts(Claim(e, key, config), k)
  {
    hide Safe, StillOpen, MayClaim, Claim, RowsUnique, CountKey, Done, FailedForGood, Repeats, MaxAttempts;
    var c := Claim(e, key, config);
    ClaimKeepsProgress(e, key, config);
    ClaimedRows(e, key, config);
    assert WithinAttempts(e, k);
    assert Open(c, k) <==> Open(e, k);
    forall i {:trigger c.rows[i]} | 0 <= i < |c.rows| && c.rows[i].key == k && !CycleStep(k)
      ensures CountKey(c.log, k) + (if Live(c, k) then 1 else 0) <= c.rows[i].attempt
    {
      if i < |e.rows| {
        ClaimKeepsOldRow(e, key, config, leaseExpired, i);
      } else {
        ClaimKeepsNewRow(e, key, config, i);
      }
    }
  }

  /** A step that runs once gets a new row only if it has none. */
  lemma OnlyOneRow(e: Engine, key: StepKey, config: Config, j: nat)
    requires StillOpen(e.rows, key) && !CycleStep(key) && |Claim(e, key, config).rows| > |e.rows| && j < |e.rows|
    ensures e.rows[j].key != key
  {
    assert e.rows[j].key == key ==> Completes(e.rows[j]);
  }

  lemma ClaimKeepsAttempts(e: Engine, key: StepKey, config: Config, leaseExpired: bool)
    requires Safe(e) && AttemptBudgets(e) && StillOpen(e.rows, key) && MayClaim(e, key, leaseExpired)
    ensures AttemptBudgets(Claim(e, key, config))
  {
    hide WithinAttempts, RowsUnique, Safe, StillOpen, MayClaim, Claim;
    ClaimKeepsRowsUnique(e, key, config, leaseExpired);
    forall k {:trigger WithinAttempts(Claim(e, key, config), k)} | !Repeats(k) ensures WithinAttempts(Claim(e, key, config), k) {
      ClaimKeepsWithin(e, key, config, leaseExpired, k);
    }
  }

  lemma DecisionStaysOpen(e: Engine, config: Config)
    requires Safe(e) && Verdict(e, config).RunStep?
    ensures StillOpen(e.rows, Verdict(e, config).key)
  {
    hide Verdict, ClaimsSound, HistoryFits, Done, FailedForGood;
    DecisionIsJustified(e, config, 0, 0);
  }

  lemma ClaimKeepsBudget(e: Engine, config: Config, leaseExpired: bool, maxAttempts: int, maxReviewCycles: int)
    requires Budgeted(e, maxAttempts, maxReviewCycles)
    requires config.maxAttempts <= maxAttempts && config.maxReviewCycles <= maxReviewCycles
    requires Verdict(e, config).RunStep? && MayClaim(e, Verdict(e, config).key, leaseExpired)
    ensures Budgeted(Claim(e, Verdict(e, config).key, config), maxAttempts, maxReviewCycles)
  {
    hide Safe, AttemptBudgets, Verdict, StillOpen, Done, FailedForGood;
    var key := Verdict(e, config).key;
    ClaimKeepsSafe(e, config, leaseExpired);
    DecisionStaysOpen(e, config);
    ClaimKeepsAttempts(e, key, config, leaseExpired);
    ClaimKeepsProgress(e, key, config);
  }

  // -- storing a result -----------------------------------------------------------------------

  lemma PersistProgress(e: Engine, x: nat, outcome: Outcome)
    requires HoldsClaim(e, x) && CanReturn(e.executions[x].key, outcome)
    requires e.rows[e.executions[x].row].key == e.executions[x].key
    ensures var c, key := Persist(e, x, outcome, false), e.executions[x].key;
            && (forall k :: k != key ==> (Done(c.rows, k) <==> Done(e.rows, k)) && (FailedForGood(c.rows, k) <==> FailedForGood(e.rows, k)))
            && (Done(c.rows, key) <==> Done(e.rows, key) || outcome != StepFailed)
            && (FailedForGood(c.rows, key) <==> FailedForGood(e.rows, key) || (outcome == StepFailed && e.executions[x].attempt >= MaxAttempts(key)))
  {
    var c, claim := Persist(e, x, outcome, false), e.executions[x];
    forall k ensures k != claim.key ==> (Done(c.rows, k) <==> Done(e.rows, k)) && (FailedForGood(c.rows, k) <==> FailedForGood(e.rows, k)) {
      RowOf(e.rows, claim.row, c.rows[claim.row], k);
    }
    RowOf(e.rows, claim.row, c.rows[claim.row], claim.key);
  }

  lemma PersistKeepsAttempts(e: Engine, x: nat, outcome: Outcome)
    requires Safe(e) && AttemptBudgets(e)
    requires HoldsClaim(e, x) && CanReturn(e.executions[x].key, outcome)
    ensures AttemptBudgets(Persist(e, x, outcome, false))
  {
    var c, claim := Persist(e, x, outcome, false), e.executions[x];
    HolderIsNewest(e, x);
    AppendCounts(e.log, Entry(x, claim.key, outcome));
    PersistProgress(e, x, outcome);
    forall k {:trigger WithinAttempts(c, k)} | !Repeats(k) ensures WithinAttempts(c, k) {
      assert WithinAttempts(e, k) && TokenFits(e, x);
      assert e.rows[claim.row].key == claim.key && StillOpen(e.rows, claim.key);
      if k == claim.key {
        assert Live(e, k) && Open(e, k);
        assert !CycleStep(k) ==> CountKey(e.log, k) + 1 <= claim.attempt;
      }
      forall i {:trigger c.rows[i]} | 0 <= i < |c.rows| && c.rows[i].key == k && !CycleStep(k)
        ensures CountKey(c.log, k) + (if Live(c, k) then 1 else 0) <= c.rows[i].attempt
      {
        assert e.rows[i].key == k && c.rows[i].attempt == e.rows[i].attempt;
      }
    }
  }

  lemma PersistKeepsCounters(e: Engine, x: nat, outcome: Outcome, maxAttempts: int, maxReviewCycles: int)
    requires Safe(e) && ConfigsWithin(e, maxAttempts, maxReviewCycles) && CountersFit(e, maxAttempts, maxReviewCycles)
    requires HoldsClaim(e, x) && CanReturn(e.executions[x].key, outcome)
    ensures CountersFit(Persist(e, x, outcome, false), maxAttempts, maxReviewCycles)
  {
    var claim := e.executions[x];
    HolderIsNewest(e, x);
    AppendCounts(e.log, Entry(x, claim.key, outcome));
    PersistProgress(e, x, outcome);
    assert ExecutionJustified(e, x);
    assert RowPrepared(e, claim.row);
  }

  /** What is known while a claim is held: a retest is owed exactly when one is under way. */
  lemma HeldClaimFacts(e: Engine, x: nat)
    requires Safe(e) && HoldsClaim(e, x)
    ensures var claim := e.executions[x];
            && claim.base == e.stored && e.rows[claim.row].key == claim.key && claim.attempt >= 1
            && (claim.key == RETEST ==> RetestOwed(e) == 1)
            && (claim.key == FIX ==> RetestOwed(e) == 0)
            && (claim.key == IMPLEMENT || claim.key == RUN_TESTS ==> !Done(e.rows, RUN_TESTS))
  {
    var claim := e.executions[x];
    HolderIsNewest(e, x);
    assert TokenFits(e, x) && ExecutionJustified(e, x) && RowPrepared(e, claim.row);
    forall i: nat | i < |e.rows| ensures claim.key == IMPLEMENT ==> e.rows[i].key != RUN_TESTS {
      assert RowPrepared(e, i);
    }
  }

  lemma PersistKeepsRetests(e: Engine, x: nat, outcome: Outcome)
    requires CountKey(e.log, RETEST) + RetestOwed(e) <= CountOk(e.log, FIX)
    requires HoldsClaim(e, x) && CanReturn(e.executions[x].key, outcome)
    requires var claim := e.executions[x];
             && claim.base == e.stored && e.rows[claim.row].key == claim.key && claim.attempt >= 1
             && (claim.key == RETEST ==> RetestOwed(e) == 1)
             && (claim.key == FIX ==> RetestOwed(e) == 0)
             && (claim.key == IMPLEMENT || claim.key == RUN_TESTS ==> !Done(e.rows, RUN_TESTS))
    ensures var c := Persist(e, x, outcome, false); CountKey(c.log, RETEST) + RetestOwed(c) <= CountOk(c.log, FIX)
  {
    AppendCounts(e.log, Entry(x, e.executions[x].key, outcome));
    PersistProgress(e, x, outcome);
  }

  lemma PersistKeepsBudget(e: Engine, x: nat, outcome: Outcome, maxAttempts: int, maxReviewCycles: int)
    requires Budgeted(e, maxAttempts, maxReviewCycles)
    requires HoldsClaim(e, x) && CanReturn(e.executions[x].key, outcome)
    ensures Budgeted(Persist(e, x, outcome, false), maxAttempts, maxReviewCycles)
  {
    PersistKeepsSafe(e, x, outcome);
    PersistKeepsAttempts(e, x, outcome);
    PersistKeepsCounters(e, x, outcome, maxAttempts, maxReviewCycles);
    HeldClaimFacts(e, x);
    PersistKeepsRetests(e, x, outcome);
  }

  // -- the remaining steps ------------------------------------------------------------------------

  /** Keys, attempts and progress stay, and no other step becomes the live one. */
  lemma QuietKeepsBudget(e: Engine, c: Engine, maxAttempts: int, maxReviewCycles: int)
    requires Budgeted(e, maxAttempts, maxReviewCycles) && Safe(c)
    requires c.log == e.log && c.executions == e.executions && c.stored.(cancelled := e.stored.cancelled) == e.stored
    requires |c.rows| == |e.rows| && SameProgress(e.rows, c.rows)
    requires forall i :: 0 <= i < |c.rows| ==> c.rows[i].key == e.rows[i].key && c.rows[i].attempt == e.rows[i].attempt
    requires forall k :: Live(c, k) ==> Live(e, k)
    ensures Budgeted(c, maxAttempts, maxReviewCycles)
  {
    forall k {:trigger WithinAttempts(c, k)} | !Repeats(k) ensures WithinAttempts(c, k) {
      assert WithinAttempts(e, k);
      forall i {:trigger c.rows[i]} | 0 <= i < |c.rows| && c.rows[i].key == k && !CycleStep(k)
        ensures CountKey(c.log, k) + (if Live(c, k) then 1 else 0) <= c.rows[i].attempt
      {
        assert e.rows[i].key == k;
      }
    }
  }

  lemma ReleaseKeepsBudget(e: Engine, x: nat, maxAttempts: int, maxReviewCycles: int)
    requires Budgeted(e, maxAttempts, maxReviewCycles) && HoldsClaim(e, x)
    ensures Budgeted(Release(e, x), maxAttempts, maxReviewCycles)
  {
    var c, row := Release(e, x), e.executions[x].row;
    ReleaseKeepsSafe(e, x);
    forall k ensures (Done(c.rows, k) <==> Done(e.rows, k)) && (FailedForGood(c.rows, k) <==> FailedForGood(e.rows, k)) {
      RowOf(e.rows, row, c.rows[row], k);
    }
    QuietKeepsBudget(e, c, maxAttempts, maxReviewCycles);
  }

  lemma CancelKeepsProgress(rows: seq<Row>)
    ensures SameProgress(rows, CancelRunning(rows))
  {
    forall k ensures (Done(CancelRunning(rows), k) <==> Done(rows, k)) && (FailedForGood(CancelRunning(rows), k) <==> FailedForGood(rows, k)) {
      SameStatuses(rows, CancelRunning(rows), k);
      SameStatuses(CancelRunning(rows), rows, k);
    }
  }

  lemma SameStatuses(rows: seq<Row>, other: seq<Row>, key: StepKey)
    requires |rows| == |other|
    requires forall i :: 0 <= i < |rows| ==>
      rows[i].key == other[i].key && (Completes(rows[i]) ==> Completes(other[i])) && (FailsFinally(rows[i]) ==> FailsFinally(other[i]))
    ensures Done(rows, key) ==> Done(other, key)
    ensures FailedForGood(rows, key) ==> FailedForGood(other, key)
  {}

  lemma StopKeepsBudget(e: Engine, status: RunStatus, flag: bool, clearKey: bool, cancelRows: bool, maxAttempts: int, maxReviewCycles: int)
    requires Budgeted(e, maxAttempts, maxReviewCycles)
    ensures Budgeted(Stop(e, status, flag, clearKey, cancelRows), maxAttempts, maxReviewCycles)
  {
    hide Done, FailedForGood, Safe, AttemptBudgets, CycleBudgets, ConfigsWithin;
    var c := Stop(e, status, flag, clearKey, cancelRows);
    StopKeepsSafe(e, status, flag, clearKey, cancelRows);
    CancelKeepsProgress(e.rows);
    if c != e {
      QuietKeepsBudget(e, c, maxAttempts, maxReviewCycles);
    }
  }

  lemma RestatusKeepsBudget(e: Engine, c: Engine, maxAttempts: int, maxReviewCycles: int)
    requires Budgeted(e, maxAttempts, maxReviewCycles)
    requires c.rows == e.rows && c.stored == e.stored && c.executions == e.executions && c.log == e.log
    requires
      || (c.current == e.current && (c.status == e.status || (e.status == RunStatus.PENDING && c.status == RunStatus.RUNNING)))
      || (c.status != RunStatus.PENDING && c.status != RunStatus.RUNNING)
    ensures Budgeted(c, maxAttempts, maxReviewCycles)
  {
    RestatusKeepsSafe(e, c);
    assert e.status == RunStatus.PENDING ==> e.current == None;
    QuietKeepsBudget(e, c, maxAttempts, maxReviewCycles);
  }

  lemma AdvanceKeepsBudget(e: Engine, config: Config, leaseExpired: bool, taskCancelled: bool, maxAttempts: int, maxReviewCycles: int)
    requires Budgeted(e, maxAttempts, maxReviewCycles) && Claimable(e.status)
    requires config.maxAttempts <= maxAttempts && config.maxReviewCycles <= maxReviewCycles
    ensures Budgeted(Advance(e, config, leaseExpired, taskCancelled), maxAttempts, maxReviewCycles)
  {
    hide Budgeted, Verdict, Claim;
    var started := if e.status == RunStatus.PENDING then e.(status := RunStatus.RUNNING) else e;
    if e.status == RunStatus.PENDING {
      StartKeepsVerdict(e, config);
    }
    RestatusKeepsBudget(e, started, maxAttempts, maxReviewCycles);
    var verdict := Verdict(e, config);
    if !verdict.RunStep? {
      RestatusKeepsBudget(e, Advance(e, config, leaseExpired, taskCancelled), maxAttempts, maxReviewCycles);
    } else if MayClaim(started, verdict.key, leaseExpired) && !taskCancelled {
      ClaimKeepsBudget(started, config, leaseExpired, maxAttempts, maxReviewCycles);
    }
  }

  predicate SettingsWithin(actions: seq<Action>, maxAttempts: int, maxReviewCycles: int) {
    forall i :: 0 <= i < |actions| && actions[i].AdvanceRun? ==>
      actions[i].config.maxAttempts <= maxAttempts && actions[i].config.maxReviewCycles <= maxReviewCycles
  }

  lemma StepKeepsBudget(e: Engine, a: Action, maxAttempts: int, maxReviewCycles: int)
    requires Budgeted(e, maxAttempts, maxReviewCycles) && SettingsWithin([a], maxAttempts, maxReviewCycles)
    ensures Budgeted(Step(e, a), maxAttempts, maxReviewCycles)
  {
    hide Budgeted, Verdict, Claim, Patched;
    assert [a][0] == a;
    match a {
      case AdvanceRun(config, leaseExpired, taskCancelled) =>
        if Claimable(e.status) {
          AdvanceKeepsBudget(e, config, leaseExpired, taskCancelled, maxAttempts, maxReviewCycles);
        }
      case CommitEnding(n) => RestatusKeepsBudget(e, Commit(e, n), maxAttempts, maxReviewCycles);
      case PersistResult(x, outcome, refused) =>
        if HoldsClaim(e, x) && !refused && CanReturn(e.executions[x].key, outcome) {
          PersistKeepsBudget(e, x, outcome, maxAttempts, maxReviewCycles);
        }
      case ReleaseClaim(x) =>
        if HoldsClaim(e, x) {
          ReleaseKeepsBudget(e, x, maxAttempts, maxReviewCycles);
        }
      case StopRun(status, flag, clearKey, cancelRows) =>
        StopKeepsBudget(e, status, flag, clearKey, cancelRows, maxAttempts, maxReviewCycles);
    }
  }

  lemma {:induction false} RunIsBudgeted(skipPlanning: bool, createPullRequest: bool, actions: seq<Action>, maxAttempts: int, maxReviewCycles: int)
    requires SettingsWithin(actions, maxAttempts, maxReviewCycles)
    ensures Budgeted(Run(Initial(skipPlanning, createPullRequest), actions), maxAttempts, maxReviewCycles)
    decreases |actions|, 1
  {
    if actions == [] {
      assert Budgeted(Initial(skipPlanning, createPullRequest), maxAttempts, maxReviewCycles);
    } else {
      RunGrowsBudgeted(skipPlanning, createPullRequest, actions, maxAttempts, maxReviewCycles);
    }
  }

  lemma {:induction false} RunGrowsBudgeted(skipPlanning: bool, createPullRequest: bool, actions: seq<Action>, maxAttempts: int, maxReviewCycles: int)
    requires actions != [] && SettingsWithin(actions, maxAttempts, maxReviewCycles)
    ensures Budgeted(Run(Initial(skipPlanning, createPullRequest), actions), maxAttempts, maxReviewCycles)
    decreases |actions|, 0
  {
    hide Budgeted, Step;
    RunIsBudgeted(skipPlanning, createPullRequest, actions[..|actions| - 1], maxAttempts, maxReviewCycles);
    StepKeepsBudget(Run(Initial(skipPlanning, createPullRequest), actions[..|actions| - 1]), actions[|actions| - 1], maxAttempts, maxReviewCycles);
  }

  // -- the bounds ---------------------------------------------------------------------------------

  function LoopBound(maxAttempts: int, maxReviewCycles: int): nat {
    17 + 2 * Positive(maxAttempts - 1) + Positive(maxReviewCycles)
  }

  /**
   The loop is bounded linearly by its two budgets, up to one result for each failure of an
   agent step that restarts with a fresh attempt counter.
   */
  lemma ResultsArePaidFor(skipPlanning: bool, createPullRequest: bool, actions: seq<Action>, maxAttempts: int, maxReviewCycles: int)
    requires SettingsWithin(actions, maxAttempts, maxReviewCycles)
    ensures var e := Run(Initial(skipPlanning, createPullRequest), actions);
            |e.log| <= LoopBound(maxAttempts, maxReviewCycles) + CycleFailures(e.log)
  {
    hide Run, Safe, AttemptBudgets, CountKey, CountOk, CycleFailures, CountOnce;
    RunIsBudgeted(skipPlanning, createPullRequest, actions, maxAttempts, maxReviewCycles);
    var e := Run(Initial(skipPlanning, createPullRequest), actions);
    Partition(e.log);
    OneShotResults(e);
  }

  /** The steps that run until they are done share seventeen attempts. */
  lemma OneShotResults(e: Engine)
    requires AttemptBudgets(e)
    ensures CountOnce(e.log) <= 17
  {
    hide CountKey;
    forall k | !Repeats(k) ensures CountKey(e.log, k) <= MaxAttempts(k) {
      assert WithinAttempts(e, k);
    }
    OnceByKey(e.log);
  }

  /** Executions that never stored a result: crashed, taken over, given back, or still under way. */
  function Unfinished(e: Engine): int {
    |e.executions| - |e.log|
  }

  /** The execution cap only stops runs that repeat failing agent steps, lose claims, or have very large budgets. */
  lemma CapOnlyStopsRunawayLoops(skipPlanning: bool, createPullRequest: bool, actions: seq<Action>, maxAttempts: int, maxReviewCycles: int, config: Config)
    requires SettingsWithin(actions, maxAttempts, maxReviewCycles)
    requires Verdict(Run(Initial(skipPlanning, createPullRequest), actions), config) == WaitForHuman(NotConverging)
    ensures var e := Run(Initial(skipPlanning, createPullRequest), actions);
            CycleFailures(e.log) + Unfinished(e) >= 60 - LoopBound(maxAttempts, maxReviewCycles)
  {
    hide Run, TokensOrdered, OneRunningRow, ResultsSpent, StateOf, TotalAttempts, CycleFailures, LoopBound;
    ResultsArePaidFor(skipPlanning, createPullRequest, actions, maxAttempts, maxReviewCycles);
    RunKeepsClaims(skipPlanning, createPullRequest, actions);
    var e := Run(Initial(skipPlanning, createPullRequest), actions);
    assert TotalAttempts(e.rows) >= MAX_STEP_EXECUTIONS;
  }
}
