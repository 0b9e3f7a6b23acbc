/** Who may write a result: the claim tokens of the workflow engine over all runs. */
module EngineClaims {
  import opened EngineeringRouter
  import opened Statuses
  import opened WorkflowEngine
  import opened Wrappers

  // -- tokens ---------------------------------------------------------------------------

  ghost predicate TokenFits(e: Engine, x: nat)
    requires x < |e.executions|
  {
    var claim := e.executions[x];
    claim.row < |e.rows| && e.rows[claim.row].key == claim.key && 1 <= claim.attempt <= e.rows[claim.row].attempt
  }

  /** Every claim points at a row of its own key, and later claims of a row have higher attempts. */
  ghost predicate TokensOrdered(e: Engine) {
    && (forall x: nat {:trigger TokenFits(e, x)} :: x < |e.executions| ==> TokenFits(e, x))
    && (forall x: nat, y: nat :: x < y < |e.executions| && e.executions[x].row == e.executions[y].row ==>
          e.executions[x].attempt < e.executions[y].attempt)
  }

  /** While the run is live, the current key and the one running row agree, and the newest claim holds that row. */
  ghost predicate OneRunningRow(e: Engine) {
    if e.status == RunStatus.PENDING then e.rows == [] && e.current == None && e.executions == []
    else if e.status != RunStatus.RUNNING then true
    else if e.current == None then forall i :: 0 <= i < |e.rows| ==> e.rows[i].status != RunStatus.RUNNING
    else
      && |e.executions| > 0
      && var newest := e.executions[|e.executions| - 1];
         && newest.key == e.current.value && newest.base == e.stored
         && newest.row < |e.rows| && e.rows[newest.row] == Row(newest.key, RunStatus.RUNNING, newest.attempt)
         && forall i :: 0 <= i < |e.rows| && i != newest.row ==> e.rows[i].status != RunStatus.RUNNING
  }

  /** A stored result has used its token up. */
  ghost predicate Spent(e: Engine, n: nat)
    requires n < |e.log|
  {
    var x := e.log[n].execution;
    && x < |e.executions| && e.log[n].key == e.executions[x].key
    && var claim := e.executions[x];
       claim.row < |e.rows| && (claim.attempt < e.rows[claim.row].attempt || e.rows[claim.row].status != RunStatus.RUNNING)
  }

  ghost predicate ResultsSpent(e: Engine) {
    && (forall n: nat {:trigger Spent(e, n)} :: n < |e.log| ==> Spent(e, n))
    && (forall m: nat, n: nat :: m < n < |e.log| ==> e.log[m].execution < e.log[n].execution)
  }

  ghost predicate AttemptsCounted(e: Engine) {
    TotalAttempts(e.rows) == |e.executions| <= MAX_STEP_EXECUTIONS
  }

  ghost predicate ClaimsSound(e: Engine) {
    TokensOrdered(e) && OneRunningRow(e) && ResultsSpent(e) && AttemptsCounted(e)
  }

  // -- the effect of one claim ------------------------------------------------------------

  lemma {:induction false} UpdateAttempts(rows: seq<Row>, i: nat, row: Row)
    requires i < |rows|
    ensures TotalAttempts(rows[i := row]) == TotalAttempts(rows) - rows[i].attempt + row.attempt
  {
    var updated := rows[i := row];
    var last := |rows| - 1;
    if i == last {
      assert updated[..last] == rows[..last];
    } else {
      assert updated[..last] == rows[..last][i := row];
      UpdateAttempts(rows[..last], i, row);
    }
  }

  lemma AppendAttempts(rows: seq<Row>, row: Row)
    ensures TotalAttempts(rows + [row]) == TotalAttempts(rows) + row.attempt
  {
    assert (rows + [row])[..|rows|] == rows;
  }

  lemma ClaimKeepsTokens(e: Engine, key: StepKey, config: Config)
    requires TokensOrdered(e)
    ensures TokensOrdered(Claim(e, key, config))
  {
    var c := Claim(e, key, config);
    forall x: nat {:trigger TokenFits(c, x)} | x < |c.executions| ensures TokenFits(c, x) {
      if x < |e.executions| {
        assert TokenFits(e, x);
      }
    }
    forall x: nat, y: nat | x < y < |c.executions| && c.executions[x].row == c.executions[y].row
      ensures c.executions[x].attempt < c.executions[y].attempt
    {
      assert TokenFits(e, x);
    }
  }

  lemma ClaimKeepsSpent(e: Engine, key: StepKey, config: Config)
    requires TokensOrdered(e) && ResultsSpent(e)
    ensures ResultsSpent(Claim(e, key, config))
  {
    var c := Claim(e, key, config);
    forall n: nat {:trigger Spent(c, n)} | n < |c.log| ensures Spent(c, n) {
      assert Spent(e, n);
      assert TokenFits(e, e.log[n].execution);
    }
  }

  lemma ClaimCountsOneAttempt(e: Engine, key: StepKey, config: Config)
    ensures TotalAttempts(Claim(e, key, config).rows) == TotalAttempts(e.rows) + 1
  {
    var reusable, c := ReusableRow(e, key), Claim(e, key, config);
    if reusable.Some? {
      UpdateAttempts(e.rows, reusable.value, c.rows[reusable.value]);
    } else {
      AppendAttempts(e.rows, c.rows[|e.rows|]);
    }
  }

  lemma ClaimRunsOneRow(e: Engine, key: StepKey, config: Config, leaseExpired: bool)
    requires OneRunningRow(e) && MayClaim(e, key, leaseExpired)
    ensures OneRunningRow(Claim(e, key, config))
  {
    hide TotalAttempts;
    var c := Claim(e, key, config);
    var newest := c.executions[|c.executions| - 1];
    assert c.rows[newest.row] == Row(key, RunStatus.RUNNING, newest.attempt);
    forall i | 0 <= i < |c.rows| && i != newest.row ensures c.rows[i].status != RunStatus.RUNNING {
      assert c.rows[i] == e.rows[i];
    }
  }

  /** A claim raises the total attempts by one and hands out a token above all tokens of its row. */
  lemma ClaimKeepsClaims(e: Engine, key: StepKey, config: Config, leaseExpired: bool)
    requires ClaimsSound(e) && MayClaim(e, key, leaseExpired) && TotalAttempts(e.rows) < MAX_STEP_EXECUTIONS
    ensures ClaimsSound(Claim(e, key, config))
  {
    hide TokensOrdered, ResultsSpent, OneRunningRow, TotalAttempts;
    ClaimKeepsTokens(e, key, config);
    ClaimKeepsSpent(e, key, config);
    ClaimCountsOneAttempt(e, key, config);
    ClaimRunsOneRow(e, key, config, leaseExpired);
  }

  /** Only the newest claim can still be held. */
  lemma HolderIsNewest(e: Engine, x: nat)
    requires ClaimsSound(e) && HoldsClaim(e, x)
    ensures x == |e.executions| - 1 && e.executions[x].base == e.stored
  {
    var newest := |e.executions| - 1;
    assert TokenFits(e, x);
    assert e.executions[x].row == e.executions[newest].row;
  }

  /** Replacing the status of the held row by one that is not running ends the claim. */
  lemma EndOfClaimKeepsClaims(e: Engine, x: nat, status: RunStatus, stored: Stored, log: seq<Entry>)
    requires ClaimsSound(e) && HoldsClaim(e, x) && status != RunStatus.RUNNING
    requires log == e.log || exists outcome :: log == e.log + [Entry(x, e.executions[x].key, outcome)]
    ensures var row := e.executions[x].row;
            ClaimsSound(e.(current := None, rows := e.rows[row := e.rows[row].(status := status)], stored := stored, log := log))
  {
    HolderIsNewest(e, x);
    var row := e.executions[x].row;
    var c := e.(current := None, rows := e.rows[row := e.rows[row].(status := status)], stored := stored, log := log);
    UpdateAttempts(e.rows, row, c.rows[row]);
    forall y: nat {:trigger TokenFits(c, y)} | y < |c.executions| ensures TokenFits(c, y) {
      assert TokenFits(e, y);
    }
    forall n: nat | n < |e.log| ensures e.log[n].execution < x {
      assert Spent(e, n);
      assert TokenFits(e, e.log[n].execution);
    }
    forall n: nat {:trigger Spent(c, n)} | n < |c.log| ensures Spent(c, n) {
      if n < |e.log| {
        assert Spent(e, n);
      }
    }
  }

  lemma CancelKeepsAttempts(rows: seq<Row>)
    ensures TotalAttempts(CancelRunning(rows)) == TotalAttempts(rows)
  {
    if rows != [] {
      assert CancelRunning(rows)[..|rows| - 1] == CancelRunning(rows[..|rows| - 1]);
      CancelKeepsAttempts(rows[..|rows| - 1]);
    }
  }

  lemma StopKeepsClaims(e: Engine, status: RunStatus, flag: bool, clearKey: bool, cancelRows: bool)
    requires ClaimsSound(e)
    ensures ClaimsSound(Stop(e, status, flag, clearKey, cancelRows))
  {
    var c := Stop(e, status, flag, clearKey, cancelRows);
    CancelKeepsAttempts(e.rows);
    forall x: nat {:trigger TokenFits(c, x)} | x < |c.executions| ensures TokenFits(c, x) {
      assert TokenFits(e, x);
    }
    forall n: nat {:trigger Spent(c, n)} | n < |c.log| ensures Spent(c, n) {
      assert Spent(e, n);
    }
  }

  /** Steps that leave rows, claims and results alone, and at most start or end the run. */
  lemma RestatusKeepsClaims(e: Engine, c: Engine)
    requires ClaimsSound(e)
    requires c.rows == e.rows && c.stored == e.stored && c.executions == e.executions && c.log == e.log
    requires
      || (c.current == e.current && (c.status == e.status || (e.status == RunStatus.PENDING && c.status == RunStatus.RUNNING)))
      || (c.status != RunStatus.PENDING && c.status != RunStatus.RUNNING)
    ensures ClaimsSound(c)
  {
    forall x: nat {:trigger TokenFits(c, x)} | x < |c.executions| ensures TokenFits(c, x) {
      assert TokenFits(e, x);
    }
    forall n: nat {:trigger Spent(c, n)} | n < |c.log| ensures Spent(c, n) {
      assert Spent(e, n);
    }
  }

  lemma VerdictBelowCap(e: Engine, config: Config)
    requires Verdict(e, config).RunStep?
    ensures TotalAttempts(e.rows) < MAX_STEP_EXECUTIONS
  {
    hide Decide, StateOf, TotalAttempts;
  }

  lemma StepKeepsClaims(e: Engine, a: Action)
    requires ClaimsSound(e)
    ensures ClaimsSound(Step(e, a))
  {
    hide ClaimsSound, Decide, StateOf;
    match a
    case AdvanceRun(config, leaseExpired, taskCancelled) =>
      if Claimable(e.status) {
        var started := if e.status == RunStatus.PENDING then e.(status := RunStatus.RUNNING) else e;
        RestatusKeepsClaims(e, started);
        var verdict := Verdict(e, config);
        if !verdict.RunStep? {
          RestatusKeepsClaims(e, Step(e, a));
        } else if MayClaim(started, verdict.key, leaseExpired) && !taskCancelled {
          VerdictBelowCap(e, config);
          ClaimKeepsClaims(started, verdict.key, config, leaseExpired);
        }
      }
    case CommitEnding(n) => RestatusKeepsClaims(e, Commit(e, n));
    case PersistResult(x, outcome, refused) =>
      if HoldsClaim(e, x) && !refused && CanReturn(e.executions[x].key, outcome) {
        var claim := e.executions[x];
        EndOfClaimKeepsClaims(e, x, ResultStatus(claim.key, claim.attempt, outcome), Patched(claim.base, outcome), e.log + [Entry(x, claim.key, outcome)]);
      }
    case ReleaseClaim(x) =>
      if HoldsClaim(e, x) {
        EndOfClaimKeepsClaims(e, x, RunStatus.PENDING, e.stored, e.log);
      }
    case StopRun(status, flag, clearKey, cancelRows) =>
      StopKeepsClaims(e, status, flag, clearKey, cancelRows);
  }

  /** Over every run, with any crashes, lease takeovers and setting changes, the claims stay sound. */
  lemma {:induction false} RunKeepsClaims(skipPlanning: bool, createPullRequest: bool, actions: seq<Action>)
    ensures ClaimsSound(Run(Initial(skipPlanning, createPullRequest), actions))
  {
    if actions != [] {
      RunKeepsClaims(skipPlanning, createPullRequest, actions[..|actions| - 1]);
      StepKeepsClaims(Run(Initial(skipPlanning, createPullRequest), actions[..|actions| - 1]), actions[|actions| - 1]);
    }
  }

  // -- what it means ----------------------------------------------------------------------

  /** No run ever starts more than sixty step executions, whatever the router asks for. */
  lemma ExecutionsAreCapped(skipPlanning: bool, createPullRequest: bool, actions: seq<Action>)
    ensures |Run(Initial(skipPlanning, createPullRequest), actions).executions| <= 60
  {
    hide Run, TokensOrdered, OneRunningRow, ResultsSpent;
    RunKeepsClaims(skipPlanning, createPullRequest, actions);
  }

  /**
   A stored result always comes from the newest claim and is computed from the state
   that claim was decided on, so no update is lost; and no execution stores two results.
   */
  lemma OnlyNewestClaimWrites(skipPlanning: bool, createPullRequest: bool, actions: seq<Action>, x: nat, outcome: Outcome)
    ensures var e := Run(Initial(skipPlanning, createPullRequest), actions);
            var after := Step(e, PersistResult(x, outcome, false));
            after != e ==>
              && x == |e.executions| - 1
              && (forall n :: 0 <= n < |e.log| ==> e.log[n].execution < x)
              && after.stored == Patched(e.stored, outcome)
  {
    hide Run, ClaimsSound, Step;
    RunKeepsClaims(skipPlanning, createPullRequest, actions);
    WriterIsNewest(Run(Initial(skipPlanning, createPullRequest), actions), x, outcome);
  }

  lemma WriterIsNewest(e: Engine, x: nat, outcome: Outcome)
    requires ClaimsSound(e)
    ensures Step(e, PersistResult(x, outcome, false)) != e ==>
              && x == |e.executions| - 1
              && (forall n :: 0 <= n < |e.log| ==> e.log[n].execution < x)
              && Step(e, PersistResult(x, outcome, false)).stored == Patched(e.stored, outcome)
  {
    if HoldsClaim(e, x) {
      HolderIsNewest(e, x);
      forall n: nat | n < |e.log| ensures e.log[n].execution < x {
        assert Spent(e, n);
        assert TokenFits(e, e.log[n].execution);
      }
    }
  }

  /** Once a claim has been taken over or given back, its execution can never store a result again. */
  lemma {:induction false} LostClaimStaysLost(e: Engine, actions: seq<Action>, x: nat)
    requires ClaimsSound(e) && x < |e.executions| && !HoldsClaim(e, x)
    ensures ClaimsSound(Run(e, actions)) && x < |Run(e, actions).executions| && !HoldsClaim(Run(e, actions), x)
    ensures Run(e, actions).executions[x] == e.executions[x]
  {
    if actions != [] {
      LostClaimStaysLost(e, actions[..|actions| - 1], x);
      StepKeepsClaims(Run(e, actions[..|actions| - 1]), actions[|actions| - 1]);
      LostClaimStep(Run(e, actions[..|actions| - 1]), actions[|actions| - 1], x);
    }
  }

  lemma LostClaimStep(e: Engine, a: Action, x: nat)
    requires ClaimsSound(e) && x < |e.executions| && !HoldsClaim(e, x)
    ensures x < |Step(e, a).executions| && !HoldsClaim(Step(e, a), x)
    ensures Step(e, a).executions[x] == e.executions[x]
  {
    hide Verdict, TokensOrdered, ResultsSpent, AttemptsCounted;
    StepKeepsClaims(e, a);
    var after := Step(e, a);
    if HoldsClaim(after, x) {
      HolderIsNewest(after, x);
    }
  }
}
