/** What every interleaving keeps of the tasks' histories, and what a walker may conclude. */
module TaskHistory {
  import opened StateMachines
  import opened Statuses
  import opened TaskMachine
  import opened TaskStore
  import opened TaskProtocol
  import opened Wrappers

  // -- histories only grow, by legal moves -------------------------------------------------

  ghost predicate LegalFrom(visits: seq<TaskStatus>, lo: nat) {
    forall k :: lo < k < |visits| ==> CanMove(visits[k - 1], visits[k])
  }

  ghost predicate Grew(before: Task, after: Task) {
    && after.project == before.project
    && |before.earlier| <= |after.earlier|
    && after.Visits()[..|before.earlier| + 1] == before.Visits()
    && LegalFrom(after.Visits(), |before.earlier|)
  }

  ghost predicate TasksGrew(before: map<nat, Task>, after: map<nat, Task>) {
    forall t {:trigger t in before} {:trigger t in after} :: t in before ==> t in after && Grew(before[t], after[t])
  }

  ghost predicate NewTasksAreBlank(before: map<nat, Task>, after: map<nat, Task>) {
    forall t {:trigger t in after} :: t in after && t !in before ==> after[t].earlier == []
  }

  lemma GrewByWalking(row: Task, path: seq<TaskStatus>)
    requires LegalChain(TRANSITIONS, path) && path[0] == row.status
    ensures Grew(row, row.Walked(path))
  {
    var after := row.Walked(path);
    assert after.Visits() == row.earlier + path;
    forall k | |row.earlier| < k < |after.Visits()| ensures CanMove(after.Visits()[k - 1], after.Visits()[k]) {
      var i := k - 1 - |row.earlier|;
      assert Can(TRANSITIONS, path[i], path[i + 1]);
    }
  }

  lemma GrewByMoving(row: Task, next: TaskStatus)
    requires CanMove(row.status, next)
    ensures Grew(row, row.Moved(next))
  {}

  lemma GrewTwice(a: Task, b: Task, c: Task)
    requires Grew(a, b) && Grew(b, c)
    ensures Grew(a, c)
  {
    var n := |a.earlier| + 1;
    assert c.Visits()[..n] == c.Visits()[..|b.earlier| + 1][..n];
    forall k | |a.earlier| < k < |c.Visits()| ensures CanMove(c.Visits()[k - 1], c.Visits()[k]) {
      if k <= |b.earlier| {
        assert c.Visits()[k - 1] == c.Visits()[..|b.earlier| + 1][k - 1] && c.Visits()[k] == c.Visits()[..|b.earlier| + 1][k];
        assert CanMove(b.Visits()[k - 1], b.Visits()[k]);
      }
    }
  }

  /** A walker only ever moves along its path. */
  ghost predicate PathsAreLegal(w: World) {
    forall id {:trigger id in w.walkers} :: id in w.walkers ==>
      |w.walkers[id].path| > 0 && LegalChain(TRANSITIONS, w.walkers[id].path)
  }

  lemma GrewNot(row: Task)
    ensures Grew(row, row)
  {
    assert row.Visits()[..|row.earlier| + 1] == row.Visits();
  }

  lemma OneTaskGrew(tasks: map<nat, Task>, t: nat, row: Task)
    requires t in tasks ==> Grew(tasks[t], row)
    ensures TasksGrew(tasks, tasks[t := row])
  {
    hide Grew;
    forall u | u in tasks ensures Grew(tasks[u], tasks[t := row][u]) {
      GrewNot(tasks[u]);
    }
  }

  lemma NoTaskGrew(tasks: map<nat, Task>)
    ensures TasksGrew(tasks, tasks)
  {
    hide Grew;
    forall t | t in tasks ensures Grew(tasks[t], tasks[t]) {
      GrewNot(tasks[t]);
    }
  }

  lemma LegalHop(path: seq<TaskStatus>, i: nat)
    requires LegalChain(TRANSITIONS, path) && i + 1 < |path|
    ensures CanMove(path[i], path[i + 1])
  {
    hide NextStatuses;
  }

  /** The compare-and-set moves the task only if it still stands where the caller believes. */
  lemma HopGrows(db: Db, task: nat, from: TaskStatus, to: TaskStatus)
    requires CanMove(from, to)
    ensures TasksGrew(db.tasks, Hop(db, task, from, to).tasks)
  {
    hide CanMove, Grew;
    if StatusIs(db, task, from) {
      GrewByMoving(db.tasks[task], to);
      OneTaskGrew(db.tasks, task, db.tasks[task].Moved(to));
    } else {
      NoTaskGrew(db.tasks);
    }
  }

  lemma StepWalkGrows(w: World, id: nat)
    requires PathsAreLegal(w)
    ensures TasksGrew(w.db.tasks, StepWalk(w, id).db.tasks)
  {
    hide CanMove, LegalChain, TasksGrew, Hop, StatusIs;
    NoTaskGrew(w.db.tasks);
    if id in w.walkers {
      var k := w.walkers[id];
      if k.state == Walking && k.at + 1 < |k.path| {
        LegalHop(k.path, k.at);
        HopGrows(w.db, k.task, k.path[k.at], k.path[k.at + 1]);
      }
    }
  }

  lemma AnswerIsLegal(from: TaskStatus, to: TaskStatus, chain: seq<TaskStatus>)
    requires PathAnswer(from, to, Some(chain))
    ensures |chain| > 0 && LegalChain(TRANSITIONS, chain) && chain[0] == from && chain[|chain| - 1] == to
  {
    hide NextStatuses;
  }

  lemma FinishRunGrows(w: World, run: nat, task: nat, status: RunStatus, target: TaskStatus, path: Option<seq<TaskStatus>>)
    ensures TasksGrew(w.db.tasks, FinishRun(w, run, task, status, target, path).db.tasks)
  {
    hide Grew, LegalChain, TasksGrew, Reachable, ShortestChain;
    NoTaskGrew(w.db.tasks);
    if task in w.db.tasks && path.Some? && PathAnswer(w.db.tasks[task].status, target, path) {
      AnswerIsLegal(w.db.tasks[task].status, target, path.value);
      GrewByWalking(w.db.tasks[task], path.value);
      OneTaskGrew(w.db.tasks, task, w.db.tasks[task].Walked(path.value));
    }
  }

  lemma CancelTaskGrows(w: World, task: nat, demanded: Option<nat>)
    ensures TasksGrew(w.db.tasks, CancelTask(w, task, demanded).db.tasks)
  {
    hide Grew, CanMove, TasksGrew;
    NoTaskGrew(w.db.tasks);
    if CancellationAllowed(w.db, task, demanded) && w.db.tasks[task].status != TaskStatus.CANCELLED {
      GrewByMoving(w.db.tasks[task], TaskStatus.CANCELLED);
      OneTaskGrew(w.db.tasks, task, w.db.tasks[task].Moved(TaskStatus.CANCELLED));
    }
  }

  /** The actions that may write a task. */
  predicate WritesTasks(action: Action) {
    action.ACreateTask? || action.AStepWalk? || action.AFinishRun? || action.AMoveTask? || action.ACancelTask?
  }

  lemma OtherActionsLeaveTasks(w: World, action: Action)
    requires !WritesTasks(action)
    ensures Step(w, action).db.tasks == w.db.tasks
  {
    hide PathAnswer, ParentCancelled, ProperParents, IsTerminal, CreateTask, StepWalk, FinishRun, MoveTask, CancelTask;
  }

  predicate MovesWalkers(action: Action) {
    action.AStartWalk? || action.AStepWalk?
  }

  lemma OtherActionsLeaveWalkers(w: World, action: Action)
    requires !MovesWalkers(action)
    ensures Step(w, action).walkers == w.walkers && Step(w, action).authored == w.authored
  {
    hide PathAnswer, ParentCancelled, ProperParents, IsTerminal, CancellationAllowed, Finished, Cancelled, Completion, Hop, StartWalk, StepWalk;
  }

  lemma TasksGrowInAStep(w: World, action: Action)
    requires PathsAreLegal(w)
    ensures TasksGrew(w.db.tasks, Step(w, action).db.tasks)
  {
    hide TasksGrew, StepWalk, FinishRun, CancelTask, Hop, PathsAreLegal, CanMove;
    if !WritesTasks(action) {
      OtherActionsLeaveTasks(w, action);
      NoTaskGrew(w.db.tasks);
    } else {
      match action
      case AStepWalk(id) => StepWalkGrows(w, id);
      case AFinishRun(run, task, status, target, path) => FinishRunGrows(w, run, task, status, target, path);
      case ACancelTask(task, demanded) => CancelTaskGrows(w, task, demanded);
      case ACreateTask(task, project) =>
        NoTaskGrew(w.db.tasks);
        if task !in w.db.tasks {
          OneTaskGrew(w.db.tasks, task, Task(project, TASK_MACHINE.initial, []));
        }
      case AMoveTask(task, from, to) =>
        NoTaskGrew(w.db.tasks);
        if CanMove(from, to) {
          HopGrows(w.db, task, from, to);
        }
    }
  }

  lemma NewTasksStartBlank(w: World, action: Action)
    ensures NewTasksAreBlank(w.db.tasks, Step(w, action).db.tasks)
  {
    hide PathAnswer, CanMove, MayClaimRun;
    if !WritesTasks(action) {
      OtherActionsLeaveTasks(w, action);
    } else if !action.ACreateTask? {
      assert Step(w, action).db.tasks.Keys == w.db.tasks.Keys;
    }
  }

  lemma StartedPathIsLegal(w: World, id: nat, task: nat, target: TaskStatus, confirms: bool, path: Option<seq<TaskStatus>>)
    requires PathsAreLegal(w)
    ensures PathsAreLegal(StartWalk(w, id, task, target, confirms, path))
  {
    hide NextStatuses, Reachable;
    if task in w.db.tasks {
      NoMove(w.db.tasks[task].status);
      NoMove(target);
    }
  }

  lemma PathsStayLegal(w: World, action: Action)
    requires PathsAreLegal(w)
    ensures PathsAreLegal(Step(w, action))
  {
    hide LegalChain, StartWalk;
    if !MovesWalkers(action) {
      OtherActionsLeaveWalkers(w, action);
    } else if action.AStartWalk? {
      StartedPathIsLegal(w, action.walker, action.task, action.target, action.confirms, action.path);
    }
  }

  ghost predicate LegalHistories(tasks: map<nat, Task>) {
    forall t {:trigger t in tasks} :: t in tasks ==> LegalFrom(tasks[t].Visits(), 0)
  }

  lemma LegalAfterGrowth(before: Task, after: Task)
    requires LegalFrom(before.Visits(), 0) && Grew(before, after)
    ensures LegalFrom(after.Visits(), 0)
  {
    hide CanMove;
    var seen := after.Visits()[..|before.earlier| + 1];
    forall k | 0 < k < |after.Visits()| ensures CanMove(after.Visits()[k - 1], after.Visits()[k]) {
      if k <= |before.earlier| {
        assert after.Visits()[k - 1] == seen[k - 1] && after.Visits()[k] == seen[k];
        assert CanMove(before.Visits()[k - 1], before.Visits()[k]);
      }
    }
  }

  lemma HistoriesStayLegal(before: map<nat, Task>, after: map<nat, Task>)
    requires LegalHistories(before) && TasksGrew(before, after) && NewTasksAreBlank(before, after)
    ensures LegalHistories(after)
  {
    hide Grew, CanMove;
    forall t | t in after ensures LegalFrom(after[t].Visits(), 0) {
      if t in before {
        LegalAfterGrowth(before[t], after[t]);
      }
    }
  }

  lemma TasksGrewTwice(a: map<nat, Task>, b: map<nat, Task>, c: map<nat, Task>)
    requires TasksGrew(a, b) && TasksGrew(b, c)
    ensures TasksGrew(a, c)
  {
    hide Grew;
    forall t | t in a ensures t in c && Grew(a[t], c[t]) {
      assert t in b;
      GrewTwice(a[t], b[t], c[t]);
    }
  }

  /** The invariant of the whole protocol about tasks. */
  ghost predicate SoundTasks(w: World) {
    PathsAreLegal(w) && LegalHistories(w.db.tasks)
  }

  lemma {:induction false} RunKeepsSoundTasks(w: World, actions: seq<Action>)
    requires SoundTasks(w)
    ensures SoundTasks(Run(w, actions))
    ensures TasksGrew(w.db.tasks, Run(w, actions).db.tasks)
  {
    hide TasksGrew, LegalHistories, PathsAreLegal, NewTasksAreBlank, Step;
    if actions == [] {
      NoTaskGrew(w.db.tasks);
    } else {
      var init, last := actions[..|actions| - 1], actions[|actions| - 1];
      RunKeepsSoundTasks(w, init);
      var middle := Run(w, init);
      PathsStayLegal(middle, last);
      TasksGrowInAStep(middle, last);
      NewTasksStartBlank(middle, last);
      HistoriesStayLegal(middle.db.tasks, Step(middle, last).db.tasks);
      TasksGrewTwice(w.db.tasks, middle.db.tasks, Step(middle, last).db.tasks);
    }
  }

  // -- what the histories say ------------------------------------------------------------------

  ghost predicate Reached(w: World, actions: seq<Action>) {
    exists tasks, runs, steps :: LegalHistories(tasks) && w == Run(Initial(tasks, runs, steps), actions)
  }

  lemma ReachedIsSound(w: World, actions: seq<Action>)
    requires Reached(w, actions)
    ensures SoundTasks(w)
  {
    hide LegalHistories, Run;
    var tasks, runs, steps :| LegalHistories(tasks) && w == Run(Initial(tasks, runs, steps), actions);
    RunKeepsSoundTasks(Initial(tasks, runs, steps), actions);
  }

  /** Whoever writes a task, the values its status takes form a legal walk of the task machine. */
  lemma StatusTakesALegalWalk(w: World, actions: seq<Action>, t: nat)
    requires Reached(w, actions) && t in w.db.tasks
    ensures LegalChain(TRANSITIONS, w.db.tasks[t].Visits())
  {
    hide Reached, NextStatuses;
    ReachedIsSound(w, actions);
    var visits := w.db.tasks[t].Visits();
    forall i | 0 <= i < |visits| - 1 ensures Can(TRANSITIONS, visits[i], visits[i + 1]) {
      assert CanMove(visits[i + 1 - 1], visits[i + 1]);
    }
  }

  /** A completed or cancelled task is never moved again. */
  lemma TerminalStatusIsNeverLeft(w: World, before: seq<Action>, later: seq<Action>, t: nat)
    requires Reached(w, before) && t in w.db.tasks && IsTerminal(w.db.tasks[t].status)
    ensures t in Run(w, later).db.tasks && Run(w, later).db.tasks[t] == w.db.tasks[t]
  {
    hide Reached, Run;
    ReachedIsSound(w, before);
    RunKeepsSoundTasks(w, later);
    TerminalStaysPut(w.db.tasks[t], Run(w, later).db.tasks[t]);
  }

  lemma TerminalStaysPut(before: Task, after: Task)
    requires IsTerminal(before.status) && Grew(before, after)
    ensures after == before
  {
    var n := |before.earlier|;
    var seen := after.Visits()[..n + 1];
    assert after.Visits()[n] == seen[n] == before.status;
    if |after.Visits()| > n + 1 {
      assert CanMove(after.Visits()[n + 1 - 1], after.Visits()[n + 1]);
      OnlyTerminalStatusesAreDeadEnds(before.status);
    } else {
      assert after.Visits() == seen == before.Visits();
      assert after.earlier == after.Visits()[..n] == before.earlier;
    }
  }

  // -- walkers -------------------------------------------------------------------------------------

  /** Hop j of the walker stands in the task's history, in the walker's own hand. */
  ghost predicate HopMade(w: World, id: nat, j: nat) {
    && id in w.walkers && w.walkers[id].task in w.db.tasks
    && j < |w.walkers[id].marks| && j + 1 < |w.walkers[id].path|
    && var k, m := w.walkers[id], w.walkers[id].marks[j];
       var visits := w.db.tasks[k.task].Visits();
       && 0 < m < |visits| && visits[m - 1] == k.path[j] && visits[m] == k.path[j + 1]
       && (k.task, m) in w.authored && w.authored[(k.task, m)] == id
       && (j > 0 ==> k.marks[j - 1] < m)
  }

  /** The visit is nobody's, or another walker's. */
  predicate NotWrittenBy(w: World, id: nat, t: nat, i: nat) {
    (t, i) in w.authored ==> w.authored[(t, i)] != id
  }

  ghost predicate WalkerOk(w: World, id: nat) {
    && id in w.walkers && w.walkers[id].task in w.db.tasks
    && var k := w.walkers[id];
       var visits := w.db.tasks[k.task].Visits();
       && k.at < |k.path| && |k.marks| == k.at
       && k.since < |visits| && visits[k.since] == k.path[k.at]
       && (k.at > 0 ==> k.marks[k.at - 1] == k.since)
       && (k.state != NoPath ==> k.path[|k.path| - 1] == k.target)
       && (k.state == Walking ==> k.at + 1 < |k.path|)
       && (k.state == Confirming ==> k.at + 1 == |k.path|)
       && (k.state == Arrived ==> k.at + 1 == |k.path|)
       && (k.state == Disturbed ==> k.since + 1 < |visits|)
       && (forall j {:trigger HopMade(w, id, j)} :: 0 <= j < k.at ==> HopMade(w, id, j))
       && (forall i: nat {:trigger NotWrittenBy(w, id, k.task, i)} :: i > k.since ==> NotWrittenBy(w, id, k.task, i))
  }

  ghost predicate SoundWalkers(w: World) {
    && (forall id {:trigger id in w.walkers} :: id in w.walkers ==> WalkerOk(w, id))
    && (forall key {:trigger key in w.authored} :: key in w.authored ==>
          w.authored[key] in w.walkers && key.0 in w.db.tasks && key.1 <= |w.db.tasks[key.0].earlier|)
  }

  lemma GrewKeepsVisit(before: Task, after: Task, i: nat)
    requires Grew(before, after) && i <= |before.earlier|
    ensures i < |after.Visits()| && after.Visits()[i] == before.Visits()[i]
  {
    hide CanMove;
    assert after.Visits()[i] == after.Visits()[..|before.earlier| + 1][i];
  }

  /** A walker that does not act is untouched by growing histories and by others' signatures. */
  lemma BystanderStaysOk(w: World, after: World, id: nat)
    requires WalkerOk(w, id) && TasksGrew(w.db.tasks, after.db.tasks)
    requires id in after.walkers && after.walkers[id] == w.walkers[id]
    requires forall t: nat, i: nat :: NotWrittenBy(w, id, t, i) ==> NotWrittenBy(after, id, t, i)
    requires forall key :: key in w.authored ==> key in after.authored && after.authored[key] == w.authored[key]
    ensures WalkerOk(after, id)
  {
    hide Grew;
    var k := w.walkers[id];
    var before, now := w.db.tasks[k.task], after.db.tasks[k.task];
    GrewKeepsVisit(before, now, k.since);
    GrewKeepsVisit(before, now, |before.earlier|);
    forall j | 0 <= j < k.at ensures HopMade(after, id, j) {
      assert HopMade(w, id, j);
      GrewKeepsVisit(before, now, k.marks[j]);
      GrewKeepsVisit(before, now, k.marks[j] - 1);
    }
    forall i: nat | i > k.since ensures NotWrittenBy(after, id, k.task, i) {
      assert NotWrittenBy(w, id, k.task, i);
    }
  }

  lemma AuthoredStaysInRange(w: World, after: World)
    requires SoundWalkers(w) && TasksGrew(w.db.tasks, after.db.tasks)
    requires after.authored == w.authored && forall id :: id in w.walkers ==> id in after.walkers
    ensures forall key :: key in after.authored ==>
      after.authored[key] in after.walkers && key.0 in after.db.tasks && key.1 <= |after.db.tasks[key.0].earlier|
  {
    hide WalkerOk, CanMove;
    forall key | key in after.authored ensures key.0 in after.db.tasks && key.1 <= |after.db.tasks[key.0].earlier| {
      assert key in w.authored;
      assert Grew(w.db.tasks[key.0], after.db.tasks[key.0]);
    }
  }

  lemma OtherActionsKeepWalkersSound(w: World, action: Action)
    requires PathsAreLegal(w) && SoundWalkers(w) && !MovesWalkers(action)
    ensures SoundWalkers(Step(w, action))
  {
    hide WalkerOk, TasksGrew, Step, PathsAreLegal;
    var after := Step(w, action);
    OtherActionsLeaveWalkers(w, action);
    TasksGrowInAStep(w, action);
    AuthoredStaysInRange(w, after);
    forall id | id in after.walkers ensures WalkerOk(after, id) {
      BystanderStaysOk(w, after, id);
    }
  }

  lemma UnknownWalkerWroteNothing(w: World, after: World, id: nat)
    requires SoundWalkers(w) && id !in w.walkers && after.authored == w.authored
    ensures forall t: nat, i: nat :: NotWrittenBy(after, id, t, i)
  {
    hide WalkerOk;
  }

  /** A walker that has not hopped yet, standing where it looked. */
  ghost predicate Starting(db: Db, k: Walker) {
    && k.task in db.tasks && k.at == 0 && k.marks == [] && |k.path| > 0
    && k.since < |db.tasks[k.task].Visits()| && db.tasks[k.task].Visits()[k.since] == k.path[0]
    && (k.state != NoPath ==> k.path[|k.path| - 1] == k.target)
    && (k.state == Walking ==> |k.path| > 1)
    && (k.state == Confirming || k.state == Arrived ==> |k.path| == 1)
    && k.state != Disturbed
  }

  lemma NewWalkerOk(w: World, after: World, id: nat, k: Walker)
    requires SoundWalkers(w) && id !in w.walkers && Starting(w.db, k)
    requires after == w.(walkers := w.walkers[id := k])
    ensures WalkerOk(after, id)
  {
    UnknownWalkerWroteNothing(w, after, id);
    hide SoundWalkers;
  }

  lemma StartedWalk(row: Task, target: TaskStatus, path: seq<TaskStatus>)
    requires row.status != target && PathAnswer(row.status, target, Some(path))
    ensures |path| > 1 && path[0] == row.status && path[|path| - 1] == target
  {
    AnswerIsLegal(row.status, target, path);
  }

  lemma FreshWalkerIsOk(w: World, id: nat, task: nat, target: TaskStatus, confirms: bool, path: Option<seq<TaskStatus>>)
    requires SoundWalkers(w) && id !in w.walkers && id in StartWalk(w, id, task, target, confirms, path).walkers
    ensures WalkerOk(StartWalk(w, id, task, target, confirms, path), id)
  {
    hide PathAnswer, WalkerOk, SoundWalkers;
    var after := StartWalk(w, id, task, target, confirms, path);
    var row := w.db.tasks[task];
    assert row.Visits()[|row.earlier|] == row.status;
    if row.status != target && path.Some? {
      StartedWalk(row, target, path.value);
    }
    assert Starting(w.db, after.walkers[id]);
    NewWalkerOk(w, after, id, after.walkers[id]);
  }

  lemma StartKeepsWalkersSound(w: World, id: nat, task: nat, target: TaskStatus, confirms: bool, path: Option<seq<TaskStatus>>)
    requires SoundWalkers(w)
    ensures SoundWalkers(StartWalk(w, id, task, target, confirms, path))
  {
    hide PathAnswer, WalkerOk, TasksGrew;
    var after := StartWalk(w, id, task, target, confirms, path);
    NoTaskGrew(w.db.tasks);
    forall other | other in after.walkers ensures WalkerOk(after, other) {
      if other in w.walkers {
        BystanderStaysOk(w, after, other);
      } else {
        FreshWalkerIsOk(w, id, task, target, confirms, path);
      }
    }
  }

  predicate CanHop(w: World, id: nat) {
    && id in w.walkers
    && var k := w.walkers[id];
       k.state == Walking && k.at + 1 < |k.path| && StatusIs(w.db, k.task, k.path[k.at])
  }

  lemma StuckActorStaysOk(w: World, id: nat)
    requires WalkerOk(w, id) && !CanHop(w, id)
    ensures WalkerOk(StepWalk(w, id), id)
  {
    hide CanMove, Hop;
    var after, k := StepWalk(w, id), w.walkers[id];
    assert after.db == w.db && after.authored == w.authored;
    forall j | 0 <= j < k.at ensures HopMade(after, id, j) {
      assert HopMade(w, id, j);
    }
    forall i: nat | i > k.since ensures NotWrittenBy(after, id, k.task, i) {
      assert NotWrittenBy(w, id, k.task, i);
    }
  }

  lemma HopperStaysOk(w: World, id: nat)
    requires WalkerOk(w, id) && CanHop(w, id)
    requires SoundWalkers(w)
    ensures WalkerOk(StepWalk(w, id), id)
  {
    hide CanMove, SoundWalkers;
    var after, k := StepWalk(w, id), w.walkers[id];
    var row := w.db.tasks[k.task];
    assert after.db.tasks[k.task].Visits() == row.Visits() + [k.path[k.at + 1]];
    forall j | 0 <= j < k.at + 1 ensures HopMade(after, id, j) {
      if j < k.at {
        assert HopMade(w, id, j);
        MarkIsPast(w, id, j);
      }
    }
    NothingAuthoredAhead(w, id);
    forall i: nat | i > |row.earlier| + 1 ensures NotWrittenBy(after, id, k.task, i) {
      assert NotWrittenBy(w, id, k.task, i);
    }
  }

  /** A walker's hops lie at or before the visit it last saw. */
  lemma {:induction false} MarkIsPast(w: World, id: nat, j: nat)
    requires WalkerOk(w, id) && j < w.walkers[id].at
    ensures w.walkers[id].marks[j] <= w.walkers[id].since
    decreases w.walkers[id].at - j
  {
    assert HopMade(w, id, j);
    if j + 1 < w.walkers[id].at {
      MarkIsPast(w, id, j + 1);
      assert HopMade(w, id, j + 1);
    }
  }

  lemma NothingAuthoredAhead(w: World, id: nat)
    requires SoundWalkers(w) && id in w.walkers && w.walkers[id].task in w.db.tasks
    ensures forall i: nat :: i > |w.db.tasks[w.walkers[id].task].earlier| ==> NotWrittenBy(w, id, w.walkers[id].task, i)
  {
    hide WalkerOk;
  }

  lemma HopKeepsWalkersSound(w: World, id: nat)
    requires PathsAreLegal(w) && SoundWalkers(w)
    ensures SoundWalkers(StepWalk(w, id))
  {
    hide WalkerOk, TasksGrew, Grew, PathsAreLegal;
    var after := StepWalk(w, id);
    StepWalkGrows(w, id);
    if id in w.walkers {
      assert WalkerOk(w, id);
      if CanHop(w, id) {
        HopperStaysOk(w, id);
      } else {
        StuckActorStaysOk(w, id);
      }
      SignaturesStayInRange(w, id);
      forall other | other in after.walkers && other != id ensures WalkerOk(after, other) {
        BystanderStaysOk(w, after, other);
      }
    }
  }

  lemma SignaturesStayInRange(w: World, id: nat)
    requires SoundWalkers(w) && id in w.walkers
    ensures var after := StepWalk(w, id);
      && (forall key :: key in after.authored ==>
            after.authored[key] in after.walkers && key.0 in after.db.tasks && key.1 <= |after.db.tasks[key.0].earlier|)
      && (forall key :: key in w.authored ==> key in after.authored && after.authored[key] == w.authored[key])
  {
    hide CanMove;
    assert WalkerOk(w, id);
  }

  lemma {:induction false} RunKeepsWalkersSound(w: World, actions: seq<Action>)
    requires SoundTasks(w) && SoundWalkers(w)
    ensures SoundWalkers(Run(w, actions))
  {
    hide SoundWalkers, LegalHistories, PathsAreLegal, StartWalk, StepWalk;
    if actions != [] {
      var init, last := actions[..|actions| - 1], actions[|actions| - 1];
      RunKeepsWalkersSound(w, init);
      RunKeepsSoundTasks(w, init);
      var middle := Run(w, init);
      if last.AStartWalk? {
        StartKeepsWalkersSound(middle, last.walker, last.task, last.target, last.confirms, last.path);
      } else if last.AStepWalk? {
        HopKeepsWalkersSound(middle, last.walker);
      } else {
        OtherActionsKeepWalkersSound(middle, last);
      }
    }
  }

  lemma ReachedWalkersAreSound(w: World, actions: seq<Action>)
    requires Reached(w, actions)
    ensures SoundWalkers(w)
  {
    hide LegalHistories, Run, WalkerOk;
    var tasks, runs, steps :| LegalHistories(tasks) && w == Run(Initial(tasks, runs, steps), actions);
    RunKeepsWalkersSound(Initial(tasks, runs, steps), actions);
  }

  /**
   A walker that returns normally found the target already set, or made every hop of its
   path itself: each is one step of the task's history, signed by it, in order.
   */
  lemma ArrivalIsEarned(w: World, actions: seq<Action>, id: nat)
    requires Reached(w, actions) && id in w.walkers && w.walkers[id].state == Arrived
    ensures var k := w.walkers[id];
      && k.task in w.db.tasks && k.since <= |w.db.tasks[k.task].earlier|
      && w.db.tasks[k.task].Visits()[k.since] == k.target
      && |k.marks| + 1 == |k.path| && k.path[|k.path| - 1] == k.target
      && (forall j :: 0 <= j < |k.marks| ==> HopMade(w, id, j))
  {
    hide Reached;
    ReachedWalkersAreSound(w, actions);
    assert WalkerOk(w, id);
  }

  /** A walker fails half way only because somebody else wrote the task right after its last look. */
  lemma OnlyOthersDisturb(w: World, actions: seq<Action>, id: nat)
    requires Reached(w, actions) && id in w.walkers && w.walkers[id].state == Disturbed
    ensures var k := w.walkers[id];
      && k.task in w.db.tasks && k.since < |w.db.tasks[k.task].earlier|
      && NotWrittenBy(w, id, k.task, k.since + 1)
  {
    hide Reached;
    ReachedWalkersAreSound(w, actions);
    assert WalkerOk(w, id);
  }

  /** Without a competing write the next hop succeeds: a walker is stopped by nothing else. */
  lemma UndisturbedHopSucceeds(w: World, actions: seq<Action>, id: nat)
    requires Reached(w, actions) && id in w.walkers && w.walkers[id].state == Walking
    requires w.walkers[id].task in w.db.tasks && w.walkers[id].since == |w.db.tasks[w.walkers[id].task].earlier|
    ensures var k := Step(w, AStepWalk(id)).walkers[id];
      k.at == w.walkers[id].at + 1 && (k.state == Arrived <==> k.at + 1 == |k.path|) && k.state in {Walking, Arrived}
  {
    hide Reached;
    ReachedWalkersAreSound(w, actions);
    assert WalkerOk(w, id);
  }
}
