/** The task life cycle: the transition table, and which statuses can be reached from which. */
module TaskMachine {
  import opened StateMachines

  datatype TaskStatus =
    | BACKLOG | PLANNING | PLAN_READY | QUEUED | IMPLEMENTING | IMPLEMENTATION_READY | TESTING | TEST_FAILED
    | REVIEWING | CHANGES_REQUESTED | FIXING | APPROVED | PR_READY | PR_CREATED | MERGED | COMPLETED
    | BLOCKED | FAILED | CANCELLED | NEEDS_HUMAN_REVIEW

  function NextStatuses(s: TaskStatus): seq<TaskStatus> {
    match s
    case BACKLOG => [PLANNING, QUEUED, BLOCKED, CANCELLED]
    case PLANNING => [PLAN_READY, FAILED, BLOCKED, CANCELLED, NEEDS_HUMAN_REVIEW]
    case PLAN_READY => [QUEUED, BACKLOG, BLOCKED, CANCELLED, NEEDS_HUMAN_REVIEW]
    case QUEUED => [IMPLEMENTING, BLOCKED, CANCELLED, FAILED]
    case IMPLEMENTING => [IMPLEMENTATION_READY, FAILED, BLOCKED, CANCELLED, NEEDS_HUMAN_REVIEW]
    case IMPLEMENTATION_READY => [TESTING, BLOCKED, CANCELLED, FAILED]
    case TESTING => [TEST_FAILED, REVIEWING, FAILED, CANCELLED]
    case TEST_FAILED => [FIXING, NEEDS_HUMAN_REVIEW, BLOCKED, CANCELLED, FAILED]
    case REVIEWING => [APPROVED, CHANGES_REQUESTED, FAILED, CANCELLED, NEEDS_HUMAN_REVIEW]
    case CHANGES_REQUESTED => [FIXING, NEEDS_HUMAN_REVIEW, BLOCKED, CANCELLED]
    case FIXING => [IMPLEMENTATION_READY, TESTING, FAILED, CANCELLED, NEEDS_HUMAN_REVIEW]
    case APPROVED => [PR_READY, COMPLETED, CANCELLED]
    case PR_READY => [PR_CREATED, FAILED, CANCELLED]
    case PR_CREATED => [MERGED, CHANGES_REQUESTED, CANCELLED, FAILED]
    case MERGED => [COMPLETED]
    case COMPLETED => []
    case BLOCKED => [BACKLOG, PLANNING, QUEUED, CANCELLED]
    case FAILED => [BACKLOG, QUEUED, PLANNING, NEEDS_HUMAN_REVIEW, CANCELLED]
    case CANCELLED => []
    case NEEDS_HUMAN_REVIEW => [FIXING, APPROVED, QUEUED, BACKLOG, BLOCKED, CANCELLED]
  }

  const TRANSITIONS: map<TaskStatus, seq<TaskStatus>> := map s: TaskStatus | true :: NextStatuses(s)

  const TASK_MACHINE := Definition(TaskStatus.BACKLOG, [TaskStatus.COMPLETED, TaskStatus.CANCELLED], TRANSITIONS)

  predicate IsTerminal(s: TaskStatus) {
    s in TASK_MACHINE.terminal
  }

  predicate CanMove(from: TaskStatus, to: TaskStatus) {
    Can(TRANSITIONS, from, to)
  }

  ghost predicate Reachable(from: TaskStatus, to: TaskStatus) {
    exists chain :: ChainBetween(TRANSITIONS, from, to, chain)
  }

  /** A dead end of the table is exactly a terminal status. */
  lemma OnlyTerminalStatusesAreDeadEnds(s: TaskStatus)
    ensures IsTerminal(s) <==> forall t :: !CanMove(s, t)
  {
    if !IsTerminal(s) {
      assert CanMove(s, NextStatuses(s)[0]);
    }
  }

  lemma ChainJoin(from: TaskStatus, via: TaskStatus, to: TaskStatus, p: seq<TaskStatus>, q: seq<TaskStatus>)
    requires ChainBetween(TRANSITIONS, from, via, p) && ChainBetween(TRANSITIONS, via, to, q)
    ensures ChainBetween(TRANSITIONS, from, to, p + q[1..])
  {
    var chain := p + q[1..];
    forall i | 0 <= i < |chain| - 1 ensures Can(TRANSITIONS, chain[i], chain[i + 1]) {
      if i < |p| - 1 {
        assert Can(TRANSITIONS, p[i], p[i + 1]);
      } else {
        assert Can(TRANSITIONS, q[i - |p| + 1], q[i - |p| + 1 + 1]);
      }
    }
  }

  /** One step on a way back to the backlog. */
  function Homeward(s: TaskStatus): TaskStatus
    requires s !in {TaskStatus.MERGED, TaskStatus.COMPLETED, TaskStatus.CANCELLED}
  {
    match s
    case BACKLOG | PLAN_READY | BLOCKED | FAILED | NEEDS_HUMAN_REVIEW => BACKLOG
    case PLANNING | QUEUED | IMPLEMENTING | IMPLEMENTATION_READY | TESTING | TEST_FAILED | REVIEWING | FIXING | PR_READY | PR_CREATED => FAILED
    case CHANGES_REQUESTED => BLOCKED
    case APPROVED => PR_READY
    case _ => BACKLOG
  }

  /** One step back on a way out of the backlog, and the length of that way. */
  function Origin(s: TaskStatus): (TaskStatus, nat) {
    match s
    case BACKLOG => (BACKLOG, 0)
    case PLANNING | QUEUED | BLOCKED | CANCELLED => (BACKLOG, 1)
    case PLAN_READY => (PLANNING, 2)
    case IMPLEMENTING => (QUEUED, 2)
    case FAILED => (QUEUED, 2)
    case NEEDS_HUMAN_REVIEW => (PLANNING, 2)
    case IMPLEMENTATION_READY => (IMPLEMENTING, 3)
    case FIXING | APPROVED => (NEEDS_HUMAN_REVIEW, 3)
    case TESTING => (FIXING, 4)
    case PR_READY | COMPLETED => (APPROVED, 4)
    case TEST_FAILED | REVIEWING => (TESTING, 5)
    case PR_CREATED => (PR_READY, 5)
    case CHANGES_REQUESTED => (REVIEWING, 6)
    case MERGED => (PR_CREATED, 6)
  }

  lemma NoMove(s: TaskStatus)
    ensures ChainBetween(TRANSITIONS, s, s, [s])
  {}

  lemma OneMove(s: TaskStatus, t: TaskStatus)
    requires CanMove(s, t)
    ensures ChainBetween(TRANSITIONS, s, t, [s, t])
  {}

  lemma HomeRank(s: TaskStatus) returns (chain: seq<TaskStatus>)
    requires s !in {TaskStatus.MERGED, TaskStatus.COMPLETED, TaskStatus.CANCELLED}
    ensures ChainBetween(TRANSITIONS, s, BACKLOG, chain)
    decreases if s == TaskStatus.BACKLOG then 0 else if s == TaskStatus.FAILED || s == TaskStatus.BLOCKED then 1
              else if s == TaskStatus.APPROVED then 3 else 2
  {
    if s == BACKLOG {
      NoMove(s);
      chain := [s];
    } else {
      var next := Homeward(s);
      assert CanMove(s, next);
      OneMove(s, next);
      var rest := HomeRank(next);
      ChainJoin(s, next, BACKLOG, [s, next], rest);
      chain := [s, next] + rest[1..];
    }
  }

  lemma WayOut(t: TaskStatus) returns (chain: seq<TaskStatus>)
    ensures ChainBetween(TRANSITIONS, BACKLOG, t, chain)
    decreases Origin(t).1
  {
    if t == BACKLOG {
      NoMove(t);
      chain := [t];
    } else {
      var previous := Origin(t).0;
      assert CanMove(previous, t);
      OneMove(previous, t);
      var rest := WayOut(previous);
      ChainJoin(BACKLOG, previous, t, rest, [previous, t]);
      chain := rest + [previous, t][1..];
    }
  }

  lemma {:induction false} NoWayBack(chain: seq<TaskStatus>, k: nat)
    requires LegalChain(TRANSITIONS, chain) && k < |chain|
    ensures IsTerminal(chain[0]) ==> chain[k] == chain[0]
    ensures chain[0] == TaskStatus.MERGED ==> chain[k] in {TaskStatus.MERGED, TaskStatus.COMPLETED}
  {
    if k > 0 {
      NoWayBack(chain, k - 1);
      assert Can(TRANSITIONS, chain[k - 1], chain[k - 1 + 1]);
    }
  }

  lemma OverBacklog(from: TaskStatus, to: TaskStatus)
    requires from !in {TaskStatus.MERGED, TaskStatus.COMPLETED, TaskStatus.CANCELLED}
    ensures Reachable(from, to)
  {
    hide NextStatuses;
    var home := HomeRank(from);
    var out := WayOut(to);
    ChainJoin(from, BACKLOG, to, home, out);
  }

  lemma NoWayOut(from: TaskStatus, to: TaskStatus)
    requires from in {TaskStatus.MERGED, TaskStatus.COMPLETED, TaskStatus.CANCELLED} && Reachable(from, to)
    ensures from == to || (from == TaskStatus.MERGED && to == TaskStatus.COMPLETED)
  {
    var chain :| ChainBetween(TRANSITIONS, from, to, chain);
    NoWayBack(chain, |chain| - 1);
    hide NextStatuses, CanMove;
  }

  /**
   Every status is reachable from every other, except that nothing leaves COMPLETED and
   CANCELLED, and a merged task can only be completed. So a workflow can be finished with
   any target unless the task is already MERGED, COMPLETED or CANCELLED.
   */
  lemma ReachabilityIsExact(from: TaskStatus, to: TaskStatus)
    ensures Reachable(from, to) <==>
      || from == to
      || (from == TaskStatus.MERGED && to == TaskStatus.COMPLETED)
      || from !in {TaskStatus.MERGED, TaskStatus.COMPLETED, TaskStatus.CANCELLED}
  {
    if from == to {
      NoMove(from);
    } else if from == TaskStatus.MERGED && to == TaskStatus.COMPLETED {
      OneMove(from, to);
    } else if from !in {TaskStatus.MERGED, TaskStatus.COMPLETED, TaskStatus.CANCELLED} {
      OverBacklog(from, to);
    } else if Reachable(from, to) {
      NoWayOut(from, to);
    }
  }

  // -- what the life cycle is for -----------------------------------------------------------

  /** The moves that are promised by name, and the one that is refused by name. */
  lemma PromisedMoves()
    ensures LegalChain(TRANSITIONS, [BACKLOG, PLANNING, PLAN_READY, QUEUED, IMPLEMENTING, IMPLEMENTATION_READY, TESTING,
                                     REVIEWING, APPROVED, PR_READY, PR_CREATED, MERGED, COMPLETED])
    ensures LegalChain(TRANSITIONS, [TESTING, TEST_FAILED, FIXING, TESTING])
    ensures LegalChain(TRANSITIONS, [REVIEWING, CHANGES_REQUESTED, FIXING, TESTING])
    ensures forall s :: s in {TEST_FAILED, CHANGES_REQUESTED, REVIEWING, TaskStatus.FAILED} ==> CanMove(s, NEEDS_HUMAN_REVIEW)
    ensures !CanMove(TESTING, COMPLETED)
  {
    var happy := [BACKLOG, PLANNING, PLAN_READY, QUEUED, IMPLEMENTING, IMPLEMENTATION_READY, TESTING,
                  REVIEWING, APPROVED, PR_READY, PR_CREATED, MERGED, COMPLETED];
    forall i | 0 <= i < |happy| - 1 ensures Can(TRANSITIONS, happy[i], happy[i + 1]) {
      HappyMove(i);
    }
  }

  lemma HappyMove(i: nat)
    requires i < 12
    ensures var happy := [BACKLOG, PLANNING, PLAN_READY, QUEUED, IMPLEMENTING, IMPLEMENTATION_READY, TESTING,
                          REVIEWING, APPROVED, PR_READY, PR_CREATED, MERGED, COMPLETED];
      Can(TRANSITIONS, happy[i], happy[i + 1])
  {}

  /** The life cycle read backwards: from where a task can come to a status in one move. */
  predicate ComesFrom(to: TaskStatus, s: TaskStatus) {
    match to
    case BACKLOG => s.PLAN_READY? || s.BLOCKED? || s.FAILED? || s.NEEDS_HUMAN_REVIEW?
    case PLANNING => s.BACKLOG? || s.BLOCKED? || s.FAILED?
    case PLAN_READY => s.PLANNING?
    case QUEUED => s.BACKLOG? || s.PLAN_READY? || s.BLOCKED? || s.FAILED? || s.NEEDS_HUMAN_REVIEW?
    case IMPLEMENTING => s.QUEUED?
    case IMPLEMENTATION_READY => s.IMPLEMENTING? || s.FIXING?
    case TESTING => s.IMPLEMENTATION_READY? || s.FIXING?
    case TEST_FAILED => s.TESTING?
    case REVIEWING => s.TESTING?
    case CHANGES_REQUESTED => s.REVIEWING? || s.PR_CREATED?
    case FIXING => s.TEST_FAILED? || s.CHANGES_REQUESTED? || s.NEEDS_HUMAN_REVIEW?
    case APPROVED => s.REVIEWING? || s.NEEDS_HUMAN_REVIEW?
    case PR_READY => s.APPROVED?
    case PR_CREATED => s.PR_READY?
    case MERGED => s.PR_CREATED?
    case COMPLETED => s.APPROVED? || s.MERGED?
    case BLOCKED =>
      || s.BACKLOG? || s.PLANNING? || s.PLAN_READY? || s.QUEUED? || s.IMPLEMENTING?
      || s.IMPLEMENTATION_READY? || s.TEST_FAILED? || s.CHANGES_REQUESTED? || s.NEEDS_HUMAN_REVIEW?
    case FAILED =>
      || s.PLANNING? || s.QUEUED? || s.IMPLEMENTING? || s.IMPLEMENTATION_READY? || s.TESTING?
      || s.TEST_FAILED? || s.REVIEWING? || s.FIXING? || s.PR_READY? || s.PR_CREATED?
    case NEEDS_HUMAN_REVIEW =>
      || s.PLANNING? || s.PLAN_READY? || s.IMPLEMENTING? || s.TEST_FAILED? || s.REVIEWING?
      || s.CHANGES_REQUESTED? || s.FIXING? || s.FAILED?
    case CANCELLED => !s.MERGED? && !s.COMPLETED? && !s.CANCELLED?
  }

  lemma BacklogMoves(from: TaskStatus, to: TaskStatus)
    requires from.BACKLOG? || from.PLANNING?
    ensures CanMove(from, to) <==> ComesFrom(to, from)
  {}

  lemma QueueMoves(from: TaskStatus, to: TaskStatus)
    requires from.PLAN_READY? || from.QUEUED? || from.BLOCKED?
    ensures CanMove(from, to) <==> ComesFrom(to, from)
  {}

  lemma CodingMoves(from: TaskStatus, to: TaskStatus)
    requires from.IMPLEMENTING? || from.IMPLEMENTATION_READY?
    ensures CanMove(from, to) <==> ComesFrom(to, from)
  {}

  lemma TestMoves(from: TaskStatus, to: TaskStatus)
    requires from.TESTING? || from.TEST_FAILED? || from.FIXING?
    ensures CanMove(from, to) <==> ComesFrom(to, from)
  {}

  lemma ReviewMoves(from: TaskStatus, to: TaskStatus)
    requires from.REVIEWING? || from.CHANGES_REQUESTED? || from.APPROVED?
    ensures CanMove(from, to) <==> ComesFrom(to, from)
  {}

  lemma HumanMoves(from: TaskStatus, to: TaskStatus)
    requires from.FAILED? || from.NEEDS_HUMAN_REVIEW?
    ensures CanMove(from, to) <==> ComesFrom(to, from)
  {}

  lemma DeliveryMoves(from: TaskStatus, to: TaskStatus)
    requires from.PR_READY? || from.PR_CREATED? || from.MERGED? || from.COMPLETED? || from.CANCELLED?
    ensures CanMove(from, to) <==> ComesFrom(to, from)
  {}

  /** A move is legal exactly when the table read backwards has it. */
  lemma MovesReadBackwards(from: TaskStatus, to: TaskStatus)
    ensures CanMove(from, to) <==> ComesFrom(to, from)
  {
    hide CanMove, ComesFrom;
    match from
    case BACKLOG | PLANNING => BacklogMoves(from, to);
    case PLAN_READY | QUEUED | BLOCKED => QueueMoves(from, to);
    case IMPLEMENTING | IMPLEMENTATION_READY => CodingMoves(from, to);
    case TESTING | TEST_FAILED | FIXING => TestMoves(from, to);
    case REVIEWING | CHANGES_REQUESTED | APPROVED => ReviewMoves(from, to);
    case FAILED | NEEDS_HUMAN_REVIEW => HumanMoves(from, to);
    case PR_READY | PR_CREATED | MERGED | COMPLETED | CANCELLED => DeliveryMoves(from, to);
  }

  predicate Reviewed(s: TaskStatus) {
    s in {APPROVED, PR_READY, PR_CREATED, MERGED, COMPLETED}
  }

  predicate UnderReview(s: TaskStatus) {
    s == REVIEWING || s == NEEDS_HUMAN_REVIEW
  }

  lemma OnlyReviewLeadsOn(from: TaskStatus, to: TaskStatus)
    requires CanMove(from, to) && Reviewed(to)
    ensures Reviewed(from) || UnderReview(from)
  {}

  /** No legal way leads to approval, a pull request or completion around the review, by the machine or a person. */
  lemma {:induction false} ReviewCannotBeBypassed(chain: seq<TaskStatus>)
    requires LegalChain(TRANSITIONS, chain) && |chain| > 0 && Reviewed(chain[|chain| - 1]) && !Reviewed(chain[0])
    ensures exists k :: 0 <= k < |chain| && UnderReview(chain[k])
  {
    hide CanMove, Can;
    var last := |chain| - 1;
    assert Can(TRANSITIONS, chain[last - 1], chain[last - 1 + 1]);
    assert CanMove(chain[last - 1], chain[last]) by { CanMoveIs(chain[last - 1], chain[last]); }
    OnlyReviewLeadsOn(chain[last - 1], chain[last]);
    if !UnderReview(chain[last - 1]) {
      var init := chain[..last];
      forall i | 0 <= i < |init| - 1 ensures Can(TRANSITIONS, init[i], init[i + 1]) {
        assert Can(TRANSITIONS, chain[i], chain[i + 1]);
      }
      ReviewCannotBeBypassed(init);
      var k :| 0 <= k < |init| && UnderReview(init[k]);
      assert UnderReview(chain[k]);
    }
  }

  lemma CanMoveIs(from: TaskStatus, to: TaskStatus)
    ensures CanMove(from, to) == Can(TRANSITIONS, from, to)
  {}
}
