/** What the engineering loop keeps over every run of the engine. */
module EngineSafety {
  import opened EngineeringRouter
  import opened Statuses
  import opened WorkflowEngine
  import opened EngineClaims

  // -- what a claim proves about the state it was decided on --------------------------------

  predicate NeedsVerifiedCode(key: StepKey) {
    key in {UI_QA, REVIEW, FINAL_REVIEW, DOCUMENT, PREPARE_PR, COMPLETE}
  }

  predicate NeedsApproval(key: StepKey) {
    key in {DOCUMENT, PREPARE_PR, COMPLETE}
  }

  /** The checks failed, or blocking findings of a review are open. */
  predicate Unfixed(stored: Stored) {
    !stored.testsPassed || (!stored.reviewApproved && stored.hasBlockingFindings)
  }

  ghost predicate Justified(claim: Execution) {
    && (NeedsVerifiedCode(claim.key) ==> claim.base.testsPassed && !claim.base.verificationPending)
    && (NeedsApproval(claim.key) ==> claim.base.reviewApproved)
    && (claim.key == RETEST ==> claim.base.verificationPending)
    && (claim.key == FIX ==>
          Unfixed(claim.base) &&
          !claim.base.verificationPending && claim.base.attempt < claim.config.maxAttempts &&
          claim.base.reviewCycle < claim.config.maxReviewCycles)
    && (claim.key == REVIEW || claim.key == FINAL_REVIEW ==> !claim.base.reviewApproved && !claim.base.hasBlockingFindings)
    && (claim.key == REVIEW ==> claim.base.reviewCycle < claim.config.maxReviewCycles - 1)
    && (claim.key == FINAL_REVIEW ==> claim.base.reviewCycle == claim.config.maxReviewCycles - 1)
    && (claim.key in {PLAN, CREATE_TASKS} ==> !claim.base.skipPlanning)
    && (claim.key == UI_QA ==> claim.config.uiQaEnabled)
    && (claim.key == DOCUMENT ==> claim.config.documentationEnabled)
    && (claim.key == PREPARE_PR ==> claim.base.createPullRequest)
    && (PermissionAtLeast(claim.config.permissionLevel, RequiredPermission(claim.key)) ||
          (claim.key in {PLAN, CREATE_TASKS} && claim.config.permissionLevel == LEVEL_0_OBSERVE))
    && (claim.key !in {ANALYZE_REPOSITORY, PLAN, CREATE_TASKS} ==> PermissionAtLeast(claim.config.permissionLevel, LEVEL_2_CODE))
  }

  /** The steps that must be completed before the given one starts. */
  function Prerequisites(key: StepKey, skipPlanning: bool): set<StepKey> {
    var planned := if skipPlanning then {ANALYZE_REPOSITORY} else {ANALYZE_REPOSITORY, PLAN, CREATE_TASKS};
    match key
    case ANALYZE_REPOSITORY => {}
    case PLAN => {ANALYZE_REPOSITORY}
    case CREATE_TASKS => {ANALYZE_REPOSITORY, PLAN}
    case CREATE_WORKTREE => planned
    case IMPLEMENT => planned + {CREATE_WORKTREE}
    case RUN_TESTS => planned + {CREATE_WORKTREE, IMPLEMENT}
    case _ => planned + {CREATE_WORKTREE, IMPLEMENT, RUN_TESTS}
  }

  ghost predicate Prepared(rows: seq<Row>, key: StepKey, skipPlanning: bool) {
    forall p :: p in Prerequisites(key, skipPlanning) ==> Done(rows, p)
  }

  /** Steps that run again in every cycle; the others run until they are done once. */
  predicate Repeats(key: StepKey) {
    key in {FIX, RETEST, REVIEW, FINAL_REVIEW}
  }

  /** A failed check is never mistaken for verified, approved code. */
  ghost predicate Verified(stored: Stored) {
    && (stored.verificationPending ==> !stored.testsPassed && !stored.hasBlockingFindings)
    && (stored.reviewApproved ==> stored.testsPassed)
  }

  lemma DecisionIsJustified(e: Engine, config: Config, row: nat, attempt: nat)
    requires Verified(e.stored) && Verdict(e, config).RunStep?
    ensures var key := Verdict(e, config).key;
            && Justified(Execution(row, attempt, key, e.stored, config))
            && Prepared(e.rows, key, e.stored.skipPlanning)
            && (!Repeats(key) ==> !Done(e.rows, key))
            && !FailedForGood(e.rows, key)
            && (forall k :: FailedForGood(e.rows, k) ==> Optional(k))
  {
    hide Done, FailedForGood, TotalAttempts, Justified;
    var s := StateOf(e, config);
    assert Decide(s) == Verdict(e, config);
    ClaimIsJustified(s, Execution(row, attempt, Verdict(e, config).key, e.stored, config));
    hide FailureVerdict;
  }

  /** The router's own checks, read off for the step it decides on. */
  lemma ClaimIsJustified(s: WorkflowState, claim: Execution)
    requires Verified(claim.base) && Decide(s) == RunStep(claim.key)
    requires
      && s.reviewCycle == claim.base.reviewCycle && s.attempt == claim.base.attempt && s.testsPassed == claim.base.testsPassed
      && s.verificationPending == claim.base.verificationPending && s.reviewApproved == claim.base.reviewApproved
      && s.hasBlockingFindings == claim.base.hasBlockingFindings && s.skipPlanning == claim.base.skipPlanning
      && s.createPullRequest == claim.base.createPullRequest
    requires
      && s.maxReviewCycles == claim.config.maxReviewCycles && s.maxAttempts == claim.config.maxAttempts
      && s.uiQaEnabled == claim.config.uiQaEnabled && s.documentationEnabled == claim.config.documentationEnabled
      && s.permissionLevel == claim.config.permissionLevel
    ensures Justified(claim)
  {
    hide FailureVerdict;
  }

  // -- the history ---------------------------------------------------------------------------

  /** The code changed after it was last checked. */
  function Unverified(log: seq<Entry>): bool {
    if log == [] then false
    else
      var last := log[|log| - 1].outcome;
      if last == CodeChanged then true
      else if last.ChecksRan? then false
      else Unverified(log[..|log| - 1])
  }

  predicate Fixed(entry: Entry) { entry.key == FIX && entry.outcome == CodeChanged }

  predicate Retested(entry: Entry) { entry.key == RETEST && entry.outcome.ChecksRan? }

  /** Between any two fixes lies a re-run of the checks. */
  ghost predicate RetestBetweenFixes(log: seq<Entry>) {
    forall i, j :: 0 <= i < j < |log| && Fixed(log[i]) && Fixed(log[j]) ==> exists k :: i < k < j && Retested(log[k])
  }

  ghost predicate HistoryFits(log: seq<Entry>) {
    && (forall i :: 0 <= i < |log| ==> CanReturn(log[i].key, log[i].outcome))
    && (forall i, j :: 0 <= i < j < |log| && log[i].key == FIX ==> log[j].key != RUN_TESTS)
    && RetestBetweenFixes(log)
  }

  lemma {:induction false} CheckedSince(log: seq<Entry>, i: nat) returns (k: nat)
    requires i < |log| && log[i].outcome == CodeChanged && !Unverified(log)
    ensures i < k < |log| && log[k].outcome.ChecksRan?
  {
    var last := |log| - 1;
    if log[last].outcome.ChecksRan? {
      k := last;
    } else {
      assert log[..last][i] == log[i];
      k := CheckedSince(log[..last], i);
    }
  }

  /** A FIX that changes checked code has a retest after each earlier one. */
  lemma NewFixIsRetested(log: seq<Entry>, i: nat) returns (k: nat)
    requires HistoryFits(log) && i < |log| && Fixed(log[i]) && !Unverified(log)
    ensures i < k < |log| && Retested(log[k])
  {
    hide RetestBetweenFixes;
    k := CheckedSince(log, i);
    assert CanReturn(log[k].key, log[k].outcome) && log[k].key != RUN_TESTS;
  }

  lemma AppendKeepsRetests(log: seq<Entry>, entry: Entry)
    requires HistoryFits(log) && (entry.key == FIX ==> !Unverified(log))
    ensures RetestBetweenFixes(log + [entry])
  {
    hide CanReturn, Unverified, Fixed, Retested;
    var longer := log + [entry];
    forall i, j | 0 <= i < j < |longer| && Fixed(longer[i]) && Fixed(longer[j]) ensures exists k :: i < k < j && Retested(longer[k]) {
      if j == |log| {
        assert entry.key == FIX by { FixedIsFix(entry); }
        var k := NewFixIsRetested(log, i);
        assert Retested(longer[k]);
      } else {
        var k :| i < k < j && Retested(log[k]);
        assert Retested(longer[k]);
      }
    }
  }

  lemma FixedIsFix(entry: Entry)
    requires Fixed(entry)
    ensures entry.key == FIX
  {}

  lemma AppendToHistory(log: seq<Entry>, entry: Entry)
    requires HistoryFits(log) && CanReturn(entry.key, entry.outcome)
    requires entry.key == RUN_TESTS ==> forall i :: 0 <= i < |log| ==> log[i].key != FIX
    requires entry.key == FIX ==> !Unverified(log)
    ensures HistoryFits(log + [entry])
    ensures Unverified(log + [entry]) ==
            if entry.outcome == CodeChanged then true else if entry.outcome.ChecksRan? then false else Unverified(log)
  {
    hide RetestBetweenFixes, CanReturn;
    assert (log + [entry])[..|log|] == log;
    AppendKeepsRetests(log, entry);
  }

  // -- the invariant ---------------------------------------------------------------------------

  ghost predicate ExecutionJustified(e: Engine, x: nat)
    requires x < |e.executions|
  {
    Justified(e.executions[x])
  }

  ghost predicate RowPrepared(e: Engine, i: nat)
    requires i < |e.rows|
  {
    Prepared(e.rows, e.rows[i].key, e.stored.skipPlanning)
  }

  ghost predicate EntryHasRow(e: Engine, n: nat)
    requires n < |e.log|
  {
    exists i :: 0 <= i < |e.rows| && e.rows[i].key == e.log[n].key
  }

  /** The step under way can still be completed: it neither failed for good nor, if it runs once, is done. */
  ghost predicate StillOpen(rows: seq<Row>, key: StepKey) {
    !FailedForGood(rows, key) && (!Repeats(key) ==> !Done(rows, key))
  }

  ghost predicate Safe(e: Engine) {
    && ClaimsSound(e)
    && Verified(e.stored) && (e.stored.reviewApproved ==> Done(e.rows, RUN_TESTS))
    && (forall x: nat {:trigger ExecutionJustified(e, x)} :: x < |e.executions| ==> ExecutionJustified(e, x))
    && (forall i: nat {:trigger RowPrepared(e, i)} :: i < |e.rows| ==> RowPrepared(e, i))
    && (e.status == RunStatus.RUNNING && e.current.Some? ==> StillOpen(e.rows, e.current.value))
    && e.stored.verificationPending == Unverified(e.log)
    && HistoryFits(e.log)
    && (forall n: nat {:trigger EntryHasRow(e, n)} :: n < |e.log| ==> EntryHasRow(e, n))
  }

  /** Rows keep their keys and completed rows stay completed. */
  ghost predicate RowsGrow(before: seq<Row>, after: seq<Row>) {
    && |before| <= |after|
    && (forall i :: 0 <= i < |before| ==> after[i].key == before[i].key)
    && (forall k :: Done(before, k) ==> Done(after, k))
  }

  lemma UpdateGrows(rows: seq<Row>, i: nat, row: Row)
    requires i < |rows| && row.key == rows[i].key
    requires Completes(row) || !Done(rows, row.key) || !Completes(rows[i])
    ensures RowsGrow(rows, rows[i := row])
  {
    forall k | Done(rows, k) ensures Done(rows[i := row], k) {
      var j :| 0 <= j < |rows| && rows[j].key == k && Completes(rows[j]);
      assert rows[i := row][j] == if j == i then row else rows[j];
    }
  }

  lemma AppendGrows(rows: seq<Row>, row: Row)
    ensures RowsGrow(rows, rows + [row])
  {
    forall k | Done(rows, k) ensures Done(rows + [row], k) {
      var j :| 0 <= j < |rows| && rows[j].key == k && Completes(rows[j]);
      assert (rows + [row])[j] == rows[j];
    }
  }

  /** The parts of the invariant that only look at rows and history survive growth. */
  lemma GrowthKeeps(e: Engine, f: Engine)
    requires Safe(e) && RowsGrow(e.rows, f.rows) && f.stored.skipPlanning == e.stored.skipPlanning && f.log == e.log
    ensures forall i: nat {:trigger RowPrepared(f, i)} :: i < |e.rows| ==> RowPrepared(f, i)
    ensures forall n: nat {:trigger EntryHasRow(f, n)} :: n < |f.log| ==> EntryHasRow(f, n)
  {
    forall i: nat {:trigger RowPrepared(f, i)} | i < |e.rows| ensures RowPrepared(f, i) {
      assert RowPrepared(e, i);
    }
    forall n: nat {:trigger EntryHasRow(f, n)} | n < |f.log| ensures EntryHasRow(f, n) {
      assert EntryHasRow(e, n);
      var i :| 0 <= i < |e.rows| && e.rows[i].key == e.log[n].key;
      assert f.rows[i].key == f.log[n].key;
    }
  }

  lemma ClaimGrowsRows(e: Engine, key: StepKey, config: Config)
    requires StillOpen(e.rows, key)
    ensures RowsGrow(e.rows, Claim(e, key, config).rows) && StillOpen(Claim(e, key, config).rows, key)
    ensures forall i :: |e.rows| <= i < |Claim(e, key, config).rows| ==> Claim(e, key, config).rows[i].key == key
  {
    var c, reusable := Claim(e, key, config), ReusableRow(e, key);
    if reusable.Some? {
      UpdateGrows(e.rows, reusable.value, c.rows[reusable.value]);
    } else {
      AppendGrows(e.rows, c.rows[|e.rows|]);
    }
    forall i | 0 <= i < |c.rows| && c.rows[i].key == key
      ensures !FailsFinally(c.rows[i]) && (!Repeats(key) ==> !Completes(c.rows[i]))
    {
      if i < |e.rows| && c.rows[i] == e.rows[i] {
        assert StillOpen(e.rows, key);
      }
    }
  }

  lemma GrowthKeepsPrepared(before: seq<Row>, after: seq<Row>, key: StepKey, skipPlanning: bool)
    requires RowsGrow(before, after) && Prepared(before, key, skipPlanning)
    ensures Prepared(after, key, skipPlanning)
  {}

  lemma ClaimKeepsSafe(e: Engine, config: Config, leaseExpired: bool)
    requires Safe(e) && Verdict(e, config).RunStep? && MayClaim(e, Verdict(e, config).key, leaseExpired)
    ensures Safe(Claim(e, Verdict(e, config).key, config))
  {
    hide Verdict, TotalAttempts, ClaimsSound, HistoryFits, RowsGrow, Prepared, ReusableRow, Done, FailedForGood, Justified;
    var key := Verdict(e, config).key;
    var c := Claim(e, key, config);
    VerdictBelowCap(e, config);
    ClaimKeepsClaims(e, key, config, leaseExpired);
    var newest := c.executions[|e.executions|];
    DecisionIsJustified(e, config, newest.row, newest.attempt);
    ClaimGrowsRows(e, key, config);
    assert e.stored.reviewApproved ==> Done(c.rows, RUN_TESTS) by {
      GrowthKeepsDone(e.rows, c.rows, RUN_TESTS);
    }
    GrowthKeeps(e, c);
    GrowthKeepsPrepared(e.rows, c.rows, key, e.stored.skipPlanning);
    forall x: nat {:trigger ExecutionJustified(c, x)} | x < |c.executions| ensures ExecutionJustified(c, x) {
      if x < |e.executions| {
        assert ExecutionJustified(e, x);
      }
    }
    forall i: nat {:trigger RowPrepared(c, i)} | i < |c.rows| ensures RowPrepared(c, i) {
      if i >= |e.rows| {
        assert c.rows[i].key == key;
      }
    }
  }

  lemma GrowthKeepsDone(before: seq<Row>, after: seq<Row>, key: StepKey)
    requires RowsGrow(before, after)
    ensures Done(before, key) ==> Done(after, key)
  {}

  /** While RUN_TESTS is under way no FIX has been stored. */
  lemma NoFixBeforeTests(e: Engine)
    requires Safe(e) && !Done(e.rows, RUN_TESTS)
    ensures forall n :: 0 <= n < |e.log| ==> e.log[n].key != FIX
  {
    hide ClaimsSound, HistoryFits, Unverified, Verified;
    forall n: nat | n < |e.log| ensures e.log[n].key != FIX {
      assert EntryHasRow(e, n);
      var i :| 0 <= i < |e.rows| && e.rows[i].key == e.log[n].key;
      assert RowPrepared(e, i);
    }
  }

  /** The stored state after a result still never mistakes unchecked code for approved code. */
  lemma PatchKeepsVerified(claim: Execution, outcome: Outcome)
    requires Verified(claim.base) && Justified(claim) && CanReturn(claim.key, outcome)
    requires claim.key == RUN_TESTS ==> !claim.base.reviewApproved
    requires claim.key == RETEST ==> claim.base.verificationPending
    ensures Verified(Patched(claim.base, outcome))
  {}

  lemma PersistKeepsSafe(e: Engine, x: nat, outcome: Outcome)
    requires Safe(e) && HoldsClaim(e, x) && CanReturn(e.executions[x].key, outcome)
    ensures Safe(Persist(e, x, outcome, false))
  {
    hide HistoryFits, RowsGrow, Prepared, Unverified, Done, FailedForGood;
    var c, claim := Persist(e, x, outcome, false), e.executions[x];
    StepKeepsClaims(e, PersistResult(x, outcome, false));
    HolderIsNewest(e, x);
    assert ExecutionJustified(e, x) && TokenFits(e, x) && StillOpen(e.rows, claim.key);
    ReviewNeedsTests(e, claim.row);
    UpdateGrows(e.rows, claim.row, c.rows[claim.row]);
    GrowthKeepsDone(e.rows, c.rows, RUN_TESTS);
    GrowthKeeps(e, c.(log := e.log));
    PatchKeepsVerified(claim, outcome);
    if claim.key == RUN_TESTS {
      NoFixBeforeTests(e);
    }
    AppendToHistory(e.log, Entry(x, claim.key, outcome));
    forall y: nat {:trigger ExecutionJustified(c, y)} | y < |c.executions| ensures ExecutionJustified(c, y) {
      assert ExecutionJustified(e, y);
    }
    forall i: nat {:trigger RowPrepared(c, i)} | i < |c.rows| ensures RowPrepared(c, i) {
      assert RowPrepared(c.(log := e.log), i);
    }
    forall n: nat {:trigger EntryHasRow(c, n)} | n < |c.log| ensures EntryHasRow(c, n) {
      if n < |e.log| {
        assert EntryHasRow(c.(log := e.log), n);
      } else {
        assert c.rows[claim.row].key == claim.key;
      }
    }
  }

  /** A review row exists only once the checks are done. */
  lemma ReviewNeedsTests(e: Engine, i: nat)
    requires Safe(e) && i < |e.rows|
    ensures Repeats(e.rows[i].key) || NeedsVerifiedCode(e.rows[i].key) ==> Done(e.rows, RUN_TESTS)
  {
    hide ClaimsSound, HistoryFits, Unverified, Verified;
    assert RowPrepared(e, i);
  }

  /** Steps that only change statuses of rows that are not complete, and of the run. */
  lemma QuietKeepsSafe(e: Engine, c: Engine)
    requires Safe(e) && ClaimsSound(c) && RowsGrow(e.rows, c.rows) && |c.rows| == |e.rows|
    requires c.stored.(cancelled := e.stored.cancelled) == e.stored && c.log == e.log && c.executions == e.executions
    requires c.status == RunStatus.RUNNING && c.current.Some? ==> c.rows == e.rows && c.current == e.current && e.status == RunStatus.RUNNING
    ensures Safe(c)
  {
    hide ClaimsSound, RowsGrow, HistoryFits, Unverified, Prepared, Justified;
    GrowthKeeps(e, c);
    GrowthKeepsDone(e.rows, c.rows, RUN_TESTS);
    forall x: nat {:trigger ExecutionJustified(c, x)} | x < |c.executions| ensures ExecutionJustified(c, x) {
      assert ExecutionJustified(e, x);
    }
  }

  /** Starting or ending the run, and settling on an end, leave everything the invariant looks at alone. */
  lemma RestatusKeepsSafe(e: Engine, c: Engine)
    requires Safe(e)
    requires c.rows == e.rows && c.stored == e.stored && c.executions == e.executions && c.log == e.log
    requires
      || (c.current == e.current && (c.status == e.status || (e.status == RunStatus.PENDING && c.status == RunStatus.RUNNING)))
      || (c.status != RunStatus.PENDING && c.status != RunStatus.RUNNING)
    ensures Safe(c)
  {
    hide HistoryFits, Unverified, Verified;
    RestatusKeepsClaims(e, c);
    forall x: nat {:trigger ExecutionJustified(c, x)} | x < |c.executions| ensures ExecutionJustified(c, x) {
      assert ExecutionJustified(e, x);
    }
    forall i: nat {:trigger RowPrepared(c, i)} | i < |c.rows| ensures RowPrepared(c, i) {
      assert RowPrepared(e, i);
    }
    forall n: nat {:trigger EntryHasRow(c, n)} | n < |c.log| ensures EntryHasRow(c, n) {
      assert EntryHasRow(e, n);
    }
  }

  /** Starting a run does not change what the router sees. */
  lemma StartKeepsVerdict(e: Engine, config: Config)
    requires e.status == RunStatus.PENDING
    ensures Verdict(e.(status := RunStatus.RUNNING), config) == Verdict(e, config)
  {
    assert StateOf(e.(status := RunStatus.RUNNING), config) == StateOf(e, config);
  }

  lemma AdvanceKeepsSafe(e: Engine, config: Config, leaseExpired: bool, taskCancelled: bool)
    requires Safe(e) && Claimable(e.status)
    ensures Safe(Advance(e, config, leaseExpired, taskCancelled))
  {
    hide Safe, Verdict, Claim;
    var started := if e.status == RunStatus.PENDING then e.(status := RunStatus.RUNNING) else e;
    if e.status == RunStatus.PENDING {
      StartKeepsVerdict(e, config);
    }
    RestatusKeepsSafe(e, started);
    var verdict := Verdict(e, config);
    if !verdict.RunStep? {
      RestatusKeepsSafe(e, Advance(e, config, leaseExpired, taskCancelled));
    } else if MayClaim(started, verdict.key, leaseExpired) && !taskCancelled {
      ClaimKeepsSafe(started, config, leaseExpired);
    }
  }

  lemma StopKeepsSafe(e: Engine, status: RunStatus, flag: bool, clearKey: bool, cancelRows: bool)
    requires Safe(e)
    ensures Safe(Stop(e, status, flag, clearKey, cancelRows))
  {
    hide Safe, ClaimsSound, RowsGrow, CancelRunning;
    var c := Stop(e, status, flag, clearKey, cancelRows);
    SafeIsSound(e);
    StopKeepsClaims(e, status, flag, clearKey, cancelRows);
    CancelGrows(e.rows);
    if c != e {
      QuietKeepsSafe(e, c);
    }
  }

  lemma SafeIsSound(e: Engine)
    requires Safe(e)
    ensures ClaimsSound(e)
  {
    hide ClaimsSound;
  }

  lemma CancelGrows(rows: seq<Row>)
    ensures RowsGrow(rows, CancelRunning(rows)) && RowsGrow(rows, rows)
  {
    forall k | Done(rows, k) ensures Done(CancelRunning(rows), k) {
      var i :| 0 <= i < |rows| && rows[i].key == k && Completes(rows[i]);
      assert CancelRunning(rows)[i] == rows[i];
    }
  }

  lemma HolderKeepsState(e: Engine, x: nat)
    requires Safe(e) && HoldsClaim(e, x)
    ensures e.executions[x].base == e.stored
  {
    hide HistoryFits, Unverified, TotalAttempts;
    HolderIsNewest(e, x);
  }

  lemma ReleaseKeepsSafe(e: Engine, x: nat)
    requires Safe(e) && HoldsClaim(e, x)
    ensures Safe(Release(e, x))
  {
    hide RowsGrow, HistoryFits, Verified, Unverified;
    var row := e.executions[x].row;
    StepKeepsClaims(e, ReleaseClaim(x));
    UpdateGrows(e.rows, row, Release(e, x).rows[row]);
    QuietKeepsSafe(e, Release(e, x));
  }

  lemma StepKeepsSafe(e: Engine, a: Action)
    requires Safe(e)
    ensures Safe(Step(e, a))
  {
    hide Safe;
    match a
    case AdvanceRun(config, leaseExpired, taskCancelled) =>
      if Claimable(e.status) {
        AdvanceKeepsSafe(e, config, leaseExpired, taskCancelled);
      }
    case CommitEnding(n) => RestatusKeepsSafe(e, Commit(e, n));
    case PersistResult(x, outcome, refused) =>
      if HoldsClaim(e, x) && !refused && CanReturn(e.executions[x].key, outcome) {
        PersistKeepsSafe(e, x, outcome);
      }
    case ReleaseClaim(x) =>
      if HoldsClaim(e, x) {
        ReleaseKeepsSafe(e, x);
      }
    case StopRun(status, flag, clearKey, cancelRows) =>
      StopKeepsSafe(e, status, flag, clearKey, cancelRows);
  }

  lemma {:induction false} RunIsSafe(skipPlanning: bool, createPullRequest: bool, actions: seq<Action>)
    ensures Safe(Run(Initial(skipPlanning, createPullRequest), actions))
  {
    hide Step;
    if actions != [] {
      RunIsSafe(skipPlanning, createPullRequest, actions[..|actions| - 1]);
      StepKeepsSafe(Run(Initial(skipPlanning, createPullRequest), actions[..|actions| - 1]), actions[|actions| - 1]);
    }
  }

  // -- the promises of the loop --------------------------------------------------------------

  /**
   No worker decides to review, document, publish or complete, or to hand over for a spent budget,
   on a stored code change that was not checked since. Steps are claimed in the state they were
   decided on; what may happen before the other decisions are committed is the subject of
   `EngineEndings` and `EngineStaleness`, and edits that were never stored that of `EngineWorktree`.
   */
  lemma NothingFollowsUnverifiedCode(skipPlanning: bool, createPullRequest: bool, actions: seq<Action>, config: Config)
    ensures var e := Run(Initial(skipPlanning, createPullRequest), actions);
            var verdict := Verdict(e, config);
            && (verdict == Completed || (verdict.RunStep? && NeedsVerifiedCode(verdict.key)) ==>
                  e.stored.testsPassed && !Unverified(e.log))
            && (verdict in {WaitForHuman(BudgetExhausted), WaitForHuman(NotApproved), WaitForHuman(PullRequestNotAllowed)} ==>
                  !Unverified(e.log))
  {
    hide Run, Safe, Verdict;
    RunIsSafe(skipPlanning, createPullRequest, actions);
    VerdictNeedsVerifiedCode(Run(Initial(skipPlanning, createPullRequest), actions), config);
  }

  lemma VerdictNeedsVerifiedCode(e: Engine, config: Config)
    requires Safe(e)
    ensures var verdict := Verdict(e, config);
            && (verdict == Completed || (verdict.RunStep? && NeedsVerifiedCode(verdict.key)) ==>
                  e.stored.testsPassed && !Unverified(e.log))
            && (verdict in {WaitForHuman(BudgetExhausted), WaitForHuman(NotApproved), WaitForHuman(PullRequestNotAllowed)} ==>
                  !Unverified(e.log))
  {
    hide Done, FailedForGood, TotalAttempts, ClaimsSound, HistoryFits, Unverified;
    assert Verified(e.stored) && e.stored.verificationPending == Unverified(e.log);
  }

  /** A retest lies between any two fixes of a run. */
  lemma EveryFixIsRetestedBeforeTheNext(skipPlanning: bool, createPullRequest: bool, actions: seq<Action>)
    ensures RetestBetweenFixes(Run(Initial(skipPlanning, createPullRequest), actions).log)
  {
    hide Run, ClaimsSound, RetestBetweenFixes;
    RunIsSafe(skipPlanning, createPullRequest, actions);
  }

  /** A decision to complete finds all the work done. */
  lemma CompletedIsEarned(e: Engine, config: Config)
    requires Safe(e) && Verdict(e, config) == Completed
    ensures e.stored.testsPassed && e.stored.reviewApproved && !Unverified(e.log)
    ensures Done(e.rows, COMPLETE) && Prepared(e.rows, COMPLETE, e.stored.skipPlanning)
    ensures forall k :: FailedForGood(e.rows, k) ==> Optional(k)
  {
    hide Done, FailedForGood, TotalAttempts, ClaimsSound, HistoryFits, Unverified, Prepared;
    var s := StateOf(e, config);
    assert Decide(s) == Completed;
    assert COMPLETE in s.completedSteps && FailureVerdict(s.failedSteps) == Completed;
    CompletedStepIsPrepared(e, COMPLETE);
    forall k | FailedForGood(e.rows, k) ensures Optional(k) {
      assert k in s.failedSteps;
    }
  }

  lemma CompletedStepIsPrepared(e: Engine, key: StepKey)
    requires Safe(e) && Done(e.rows, key)
    ensures Prepared(e.rows, key, e.stored.skipPlanning)
  {
    hide ClaimsSound, HistoryFits, Unverified, Prepared;
    var i: nat :| i < |e.rows| && e.rows[i].key == key && Completes(e.rows[i]);
    assert RowPrepared(e, i);
  }

  /** A step never starts before its predecessors are complete: completed steps follow the pipeline order. */
  lemma PipelineOrder(skipPlanning: bool, createPullRequest: bool, actions: seq<Action>, i: nat)
    requires i < |Run(Initial(skipPlanning, createPullRequest), actions).rows|
    ensures var e := Run(Initial(skipPlanning, createPullRequest), actions);
            Prepared(e.rows, e.rows[i].key, e.stored.skipPlanning)
  {
    hide Run, ClaimsSound, HistoryFits, Prepared;
    RunIsSafe(skipPlanning, createPullRequest, actions);
    assert RowPrepared(Run(Initial(skipPlanning, createPullRequest), actions), i);
  }

  /**
   Governance: below LEVEL_2_CODE nothing past CREATE_TASKS starts, PREPARE_PR never starts
   below LEVEL_3_PR, and every step but PLAN and CREATE_TASKS meets its required level.
   */
  lemma PermissionsHold(skipPlanning: bool, createPullRequest: bool, actions: seq<Action>, x: nat)
    requires x < |Run(Initial(skipPlanning, createPullRequest), actions).executions|
    ensures var claim := Run(Initial(skipPlanning, createPullRequest), actions).executions[x];
            && (claim.key !in {ANALYZE_REPOSITORY, PLAN, CREATE_TASKS} ==> PermissionAtLeast(claim.config.permissionLevel, LEVEL_2_CODE))
            && (claim.key == PREPARE_PR ==> PermissionAtLeast(claim.config.permissionLevel, LEVEL_3_PR))
            && (claim.key !in {PLAN, CREATE_TASKS} ==> PermissionAtLeast(claim.config.permissionLevel, RequiredPermission(claim.key)))
  {
    hide Run, ClaimsSound, HistoryFits, Prepared;
    RunIsSafe(skipPlanning, createPullRequest, actions);
    assert ExecutionJustified(Run(Initial(skipPlanning, createPullRequest), actions), x);
  }

  /**
   A decided step meets its required level in every case but one: after the analysis, a task at
   LEVEL_0 is still sent through PLAN and CREATE_TASKS, which require LEVEL_1.
   */
  lemma DecidedStepIsPermittedExactlyWhen(s: WorkflowState)
    requires Decide(s).RunStep?
    ensures PermissionAtLeast(s.permissionLevel, RequiredPermission(Decide(s).key)) <==>
      !(s.permissionLevel == LEVEL_0_OBSERVE && ANALYZE_REPOSITORY in s.completedSteps)
  {
    hide FailureVerdict;
  }

  /** Both steps are really asked for below their level. */
  lemma PlanningRunsBelowItsLevel(key: StepKey)
    requires key == PLAN || key == CREATE_TASKS
    ensures exists s :: Decide(s) == RunStep(key) && !PermissionAtLeast(s.permissionLevel, RequiredPermission(key))
  {
    var done := if key == PLAN then [ANALYZE_REPOSITORY] else [ANALYZE_REPOSITORY, PLAN];
    var s := WorkflowState(done, [], 0, 3, 0, 3, false, false, false, false, false, true, false, true, LEVEL_0_OBSERVE, false);
    assert Decide(s) == RunStep(key);
  }
}
