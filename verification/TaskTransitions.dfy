/** The worker's task transitions and the API's cancellation, on tables updated in place. */
module TaskTransitions {
  import opened StateMachines
  import opened Statuses
  import opened TaskMachine
  import opened TaskStore
  import opened Wrappers

  // -- whom a transaction concerns -----------------------------------------------------------

  /** A workflow run of the task and its project that has not ended. */
  predicate OpenRunOf(db: Db, r: nat, task: nat)
    requires task in db.tasks
  {
    && r in db.runs && db.runs[r].task == Some(task) && db.runs[r].project == db.tasks[task].project
    && db.runs[r].status in {RunStatus.PENDING, RunStatus.RUNNING, RunStatus.WAITING_FOR_HUMAN}
  }

  /** The agent run belongs to the workflow run, directly or through one of its steps. */
  predicate WorksUnder(db: Db, a: AgentRun, r: nat) {
    a.run == Some(r) || (a.step.Some? && a.step.value in db.steps && db.steps[a.step.value].run == r)
  }

  predicate Alive(a: AgentRun) {
    a.status in {AgentRunStatus.PENDING, AgentRunStatus.RUNNING}
  }

  /** Everything that owns the agent run lies in the project, and something does. */
  predicate BelongsTo(db: Db, a: AgentRun, project: nat) {
    && !(a.task.None? && a.run.None? && a.step.None?)
    && (a.task.None? || (a.task.value in db.tasks && db.tasks[a.task.value].project == project))
    && (a.run.None? || (a.run.value in db.runs && db.runs[a.run.value].project == project))
    && (a.step.None? || (a.step.value in db.steps && db.steps[a.step.value].run in db.runs
                         && db.runs[db.steps[a.step.value].run].project == project))
  }

  /** A rival run is cancelled, its running steps are, and its agents are dead. */
  lemma RivalIsOver(db: Db, run: nat, task: nat, status: RunStatus, path: seq<TaskStatus>, r: nat)
    requires task in db.tasks && OpenRunOf(db, run, task) && |path| > 0 && r != run && OpenRunOf(db, r, task)
    ensures var after := Finished(db, run, task, status, path);
      && r in after.runs && after.runs[r].status == RunStatus.CANCELLED
      && (forall s :: s in after.steps && after.steps[s].run == r ==> after.steps[s].status != RunStatus.RUNNING)
      && (forall a :: a in after.agents && WorksUnder(after, after.agents[a], r) ==> !Alive(after.agents[a]))
  {
    var after, siblings := Finished(db, run, task, status, path), Siblings(db, run, task);
    assert r in siblings;
    forall a | a in after.agents && WorksUnder(after, after.agents[a], r) ensures !Alive(after.agents[a]) {
      assert Attached(db.steps, db.agents[a], task, siblings);
    }
  }

  /** A transaction that commits leaves no other run of the task open and none of their agents alive. */
  lemma FinishLeavesNothingRunning(db: Db, run: nat, task: nat, status: RunStatus, path: seq<TaskStatus>)
    requires task in db.tasks && OpenRunOf(db, run, task) && |path| > 0
    ensures var after := Finished(db, run, task, status, path);
      && after.tasks[task].status == path[|path| - 1] && after.runs[run].status == status
      && (forall a :: a in after.agents && after.agents[a].task == Some(task) ==> !Alive(after.agents[a]))
      && (forall a :: a in db.agents && after.agents[a] != db.agents[a] ==> after.agents[a] == db.agents[a].(status := AgentRunStatus.CANCELLED))
      && (forall s :: s in db.steps && after.steps[s] != db.steps[s] ==> after.steps[s] == db.steps[s].(status := RunStatus.CANCELLED))
      && (forall r :: r != run && OpenRunOf(db, r, task) ==>
            && after.runs[r].status == RunStatus.CANCELLED
            && (forall s :: s in after.steps && after.steps[s].run == r ==> after.steps[s].status != RunStatus.RUNNING)
            && (forall a :: a in after.agents && WorksUnder(after, after.agents[a], r) ==> !Alive(after.agents[a])))
  {
    hide Finished, WorksUnder, Alive;
    forall r | r != run && OpenRunOf(db, r, task)
      ensures var after := Finished(db, run, task, status, path);
        && r in after.runs && after.runs[r].status == RunStatus.CANCELLED
        && (forall s :: s in after.steps && after.steps[s].run == r ==> after.steps[s].status != RunStatus.RUNNING)
        && (forall a :: a in after.agents && WorksUnder(after, after.agents[a], r) ==> !Alive(after.agents[a]))
    {
      RivalIsOver(db, run, task, status, path, r);
    }
    OwnRunIsOver(db, run, task, status, path);
  }

  lemma OwnRunIsOver(db: Db, run: nat, task: nat, status: RunStatus, path: seq<TaskStatus>)
    requires task in db.tasks && OpenRunOf(db, run, task) && |path| > 0
    ensures var after := Finished(db, run, task, status, path);
      && task in after.tasks && after.tasks[task].status == path[|path| - 1]
      && run in after.runs && after.runs[run].status == status
      && (forall a :: a in after.agents && after.agents[a].task == Some(task) ==> !Alive(after.agents[a]))
      && after.agents.Keys == db.agents.Keys && after.steps.Keys == db.steps.Keys
      && (forall a :: a in db.agents && after.agents[a] != db.agents[a] ==> after.agents[a] == db.agents[a].(status := AgentRunStatus.CANCELLED))
      && (forall s :: s in db.steps && after.steps[s] != db.steps[s] ==> after.steps[s] == db.steps[s].(status := RunStatus.CANCELLED))
  {
    var after := Finished(db, run, task, status, path);
    forall a | a in after.agents && after.agents[a].task == Some(task) ensures !Alive(after.agents[a]) {
      assert Attached(db.steps, db.agents[a], task, Siblings(db, run, task));
    }
  }

  /** An agent run that is over, or works neither for the task nor for a rival run, is left alone. */
  lemma BystanderIsSpared(db: Db, run: nat, task: nat, status: RunStatus, path: seq<TaskStatus>, a: nat)
    requires task in db.tasks && OpenRunOf(db, run, task) && |path| > 0 && a in db.agents
    requires !Alive(db.agents[a]) ||
      (db.agents[a].task != Some(task) && forall r :: r != run && OpenRunOf(db, r, task) ==> !WorksUnder(db, db.agents[a], r))
    ensures var after := Finished(db, run, task, status, path); a in after.agents && after.agents[a] == db.agents[a]
  {
    var row, siblings := db.agents[a], Siblings(db, run, task);
    assert forall r :: r in siblings ==> r != run && OpenRunOf(db, r, task);
    if Alive(row) {
      assert row.run.Some? && row.run.value in siblings ==> WorksUnder(db, row, row.run.value);
      assert row.step.Some? && row.step.value in db.steps && db.steps[row.step.value].run in siblings ==>
        WorksUnder(db, row, db.steps[row.step.value].run);
      assert !Attached(db.steps, row, task, siblings);
    }
  }

  /** What a commit leaves alone: other tasks, runs that are not open or not of the task, their steps, and their agents. */
  lemma FinishTouchesNothingElse(db: Db, run: nat, task: nat, status: RunStatus, path: seq<TaskStatus>)
    requires task in db.tasks && OpenRunOf(db, run, task) && |path| > 0
    ensures var after := Finished(db, run, task, status, path);
      && (forall t :: t in db.tasks && t != task ==> t in after.tasks && after.tasks[t] == db.tasks[t])
      && (forall r :: r in db.runs && r != run && !OpenRunOf(db, r, task) ==> r in after.runs && after.runs[r] == db.runs[r])
      && (forall s :: s in db.steps && (db.steps[s].status != RunStatus.RUNNING || db.steps[s].run == run || !OpenRunOf(db, db.steps[s].run, task)) ==>
            s in after.steps && after.steps[s] == db.steps[s])
      && (forall a :: a in db.agents && db.agents[a].task != Some(task)
                      && (forall r :: r != run && OpenRunOf(db, r, task) ==> !WorksUnder(db, db.agents[a], r)) ==>
            a in after.agents && after.agents[a] == db.agents[a])
      && (forall a :: a in db.agents && !Alive(db.agents[a]) ==> a in after.agents && after.agents[a] == db.agents[a])
      && (forall a :: a in db.agents ==> a in after.agents && after.agents[a].output == db.agents[a].output)
  {
    forall a | a in db.agents ensures
      var after := Finished(db, run, task, status, path);
      && a in after.agents && after.agents[a].output == db.agents[a].output
      && (!Alive(db.agents[a]) ||
            (db.agents[a].task != Some(task) && forall r :: r != run && OpenRunOf(db, r, task) ==> !WorksUnder(db, db.agents[a], r)) ==>
          after.agents[a] == db.agents[a])
    {
      if !Alive(db.agents[a]) ||
         (db.agents[a].task != Some(task) && forall r :: r != run && OpenRunOf(db, r, task) ==> !WorksUnder(db, db.agents[a], r)) {
        BystanderIsSpared(db, run, task, status, path, a);
      }
    }
    hide AttachedAgents, WorksUnder, Alive;
  }

  /**
   The API's cancellation leaves the task cancelled, exactly its open runs cancelled, none of
   their steps running, and none of the agent runs that belong to it and its project alive.
   */
  lemma CancellationLeavesNothingRunning(db: Db, task: nat)
    requires task in db.tasks
    ensures var after := Cancelled(db, task);
      && after.tasks[task].status == TaskStatus.CANCELLED
      && (forall r :: r in db.runs ==> r in after.runs && after.runs[r].status == if OpenRunOf(db, r, task) then RunStatus.CANCELLED else db.runs[r].status)
      && (forall s :: s in after.steps && OpenRunOf(db, after.steps[s].run, task) ==> after.steps[s].status != RunStatus.RUNNING)
      && (forall a :: a in db.agents && after.agents[a] != db.agents[a] ==> after.agents[a] == db.agents[a].(status := AgentRunStatus.CANCELLED))
      && (forall s :: s in db.steps && after.steps[s] != db.steps[s] ==> after.steps[s] == db.steps[s].(status := RunStatus.CANCELLED))
      && (forall a :: a in after.agents && after.agents[a].task == Some(task) && BelongsTo(db, db.agents[a], db.tasks[task].project) ==>
            !Alive(after.agents[a]))
      && (forall a, r :: a in after.agents && BelongsTo(db, db.agents[a], db.tasks[task].project) ==>
            (OpenRunOf(db, r, task) && WorksUnder(after, after.agents[a], r) ==> !Alive(after.agents[a])))
  {
    var after, project := Cancelled(db, task), db.tasks[task].project;
    var active := ActiveRuns(db.runs, task, project);
    assert forall r :: OpenRunOf(db, r, task) ==> r in active;
    forall a | a in db.agents && BelongsTo(db, db.agents[a], project) && Attached(db.steps, db.agents[a], task, active)
      ensures !Alive(after.agents[a])
    {
      assert a in OwnedAgents(db, task, active, project);
    }
  }

  /** It touches no other task, no other run, no step of another run, no agent run with an owner elsewhere, and no output. */
  lemma CancellationTouchesNothingElse(db: Db, task: nat)
    requires task in db.tasks
    ensures var after := Cancelled(db, task);
      && (forall t :: t in db.tasks && t != task ==> t in after.tasks && after.tasks[t] == db.tasks[t])
      && (forall r :: r in db.runs && !OpenRunOf(db, r, task) ==> r in after.runs && after.runs[r] == db.runs[r])
      && (forall s :: s in db.steps && (db.steps[s].status != RunStatus.RUNNING || !OpenRunOf(db, db.steps[s].run, task)) ==>
            s in after.steps && after.steps[s] == db.steps[s])
      && (forall a :: a in db.agents && !Alive(db.agents[a]) ==> a in after.agents && after.agents[a] == db.agents[a])
      && (forall a :: a in db.agents && !BelongsTo(db, db.agents[a], db.tasks[task].project) ==> a in after.agents && after.agents[a] == db.agents[a])
      && (forall a :: a in db.agents && db.agents[a].task != Some(task)
                      && (forall r :: OpenRunOf(db, r, task) ==> !WorksUnder(db, db.agents[a], r)) ==>
            a in after.agents && after.agents[a] == db.agents[a])
      && (forall a :: a in db.agents ==> a in after.agents && after.agents[a].output == db.agents[a].output)
  {
    var active := ActiveRuns(db.runs, task, db.tasks[task].project);
    forall a | a in db.agents && Attached(db.steps, db.agents[a], task, active) && db.agents[a].task != Some(task)
      ensures exists r :: OpenRunOf(db, r, task) && WorksUnder(db, db.agents[a], r)
    {
      var r := if db.agents[a].run.Some? && db.agents[a].run.value in active then db.agents[a].run.value
               else db.steps[db.agents[a].step.value].run;
      assert OpenRunOf(db, r, task) && WorksUnder(db, db.agents[a], r);
    }
  }

  /** Only a task that is neither finished nor merged can be cancelled; a cancelled one may be cancelled again. */
  lemma CancellableStatuses(s: TaskStatus)
    ensures s == TaskStatus.CANCELLED || CanMove(s, TaskStatus.CANCELLED) <==> s !in {TaskStatus.COMPLETED, TaskStatus.MERGED}
  {}

  lemma StandingStill(row: Task, path: seq<TaskStatus>)
    requires |path| > 0 && path[0] == row.status
    ensures row.Walked(path[..1]) == row
  {
    assert path[..1][..0] == [];
  }

  lemma OneHopFurther(row: Task, path: seq<TaskStatus>, k: nat)
    requires 0 < k < |path|
    ensures row.Walked(path[..k]).Moved(path[k]) == row.Walked(path[..k + 1])
  {
    assert path[..k][..k - 1] == path[..k - 1] && path[..k + 1][..k] == path[..k];
    assert path[..k] == path[..k - 1] + [path[k - 1]];
    assert row.earlier + path[..k - 1] + [path[k - 1]] == row.earlier + path[..k];
  }

  lemma HopIs(db: Db, task: nat, from: TaskStatus, to: TaskStatus)
    ensures StatusIs(db, task, from) == (task in db.tasks && db.tasks[task].status == from)
    ensures Hop(db, task, from, to) ==
      if task in db.tasks && db.tasks[task].status == from then db.(tasks := db.tasks[task := db.tasks[task].Moved(to)]) else db
  {}

  class Store {
    var tasks: map<nat, Task>
    var runs: map<nat, WorkflowRun>
    var steps: map<nat, StepRow>
    var agents: map<nat, AgentRun>

    function Contents(): Db
      reads this
    {
      Db(tasks, runs, steps, agents)
    }

    constructor (db: Db)
      ensures Contents() == db
    {
      tasks, runs, steps, agents := db.tasks, db.runs, db.steps, db.agents;
    }

    predicate TaskIsCancelled(task: Option<nat>)
      reads this
    {
      task.Some? && task.value in tasks && tasks[task.value].status == TaskStatus.CANCELLED
    }

    predicate RunIsCancelled(run: Option<nat>)
      reads this
    {
      run.Some? && run.value in runs && runs[run.value].status == RunStatus.CANCELLED
    }

    lemma ContentsAre()
      ensures Contents() == Db(tasks, runs, steps, agents)
    {}

    /** The guarded status update: claims the row exactly when it still holds `from`. */
    method MoveIf(task: nat, from: TaskStatus, to: TaskStatus) returns (claimed: bool)
      modifies this`tasks
      ensures claimed == old(StatusIs(Contents(), task, from))
      ensures Contents() == old(Hop(Contents(), task, from, to))
    {
      hide *;
      ContentsAre();
      HopIs(Contents(), task, from, to);
      claimed := task in tasks && tasks[task].status == from;
      if claimed {
        tasks := tasks[task := tasks[task].Moved(to)];
      }
      ContentsAre();
    }

    /** The hop loop both transitions share, when nobody else writes the task. */
    method WalkHops(task: nat, path: seq<TaskStatus>)
      requires |path| > 0 && StatusIs(Contents(), task, path[0])
      modifies this`tasks
      ensures Contents() == old(Contents()).(tasks := old(tasks)[task := old(tasks)[task].Walked(path)])
    {
      var current, k := path[0], 1;
      StandingStill(tasks[task], path);
      while k < |path|
        invariant 1 <= k <= |path| && current == path[k - 1]
        invariant task in tasks && tasks == old(tasks)[task := old(tasks)[task].Walked(path[..k])]
      {
        var claimed := MoveIf(task, current, path[k]);
        assert claimed;
        OneHopFurther(old(tasks)[task], path, k);
        current := path[k];
        k := k + 1;
      }
      assert path[..k] == path;
    }

    /** One terminal decision in one transaction: everything happens, or nothing does. */
    method FinishWorkflow(run: nat, task: nat, status: RunStatus, target: TaskStatus)
      returns (outcome: Outcome<bool>, ghost path: seq<TaskStatus>)
      modifies this
      ensures outcome == NoSuchTask <==> task !in old(tasks)
      ensures outcome == Returned(false) <==> task in old(tasks) && !old(OpenRunOf(Contents(), run, task))
      ensures outcome == Unreachable <==>
        task in old(tasks) && old(OpenRunOf(Contents(), run, task)) && !Reachable(old(tasks)[task].status, target)
      ensures outcome == Returned(true) <==>
        task in old(tasks) && old(OpenRunOf(Contents(), run, task)) && Reachable(old(tasks)[task].status, target)
      ensures outcome == Returned(true) ==>
        && ShortestChain(TRANSITIONS, old(tasks)[task].status, target, path)
        && Contents() == Finished(old(Contents()), run, task, status, path)
      ensures outcome != Returned(true) ==> Contents() == old(Contents())
    {
      path := [];
      if task !in tasks {
        return NoSuchTask, path;
      }
      var row := tasks[task];
      if !MayClaimRun(Contents(), run, task) {
        return Returned(false), path;
      }
      var savedRuns, savedSteps, savedAgents := runs, steps, agents;
      runs := runs[run := runs[run].(status := status)];
      var siblings := ActiveRuns(runs, task, row.project) - {run};
      assert siblings == Siblings(old(Contents()), run, task);
      var attached := AttachedAgents(Contents(), task, siblings);
      runs := CancelRuns(runs, siblings);
      steps := CancelSteps(steps, siblings);
      agents := CancelAgents(agents, attached);
      var found := Path(TRANSITIONS, row.status, target);
      if found.None? {
        runs, steps, agents := savedRuns, savedSteps, savedAgents;
        return Unreachable, path;
      }
      path := found.value;
      assert Reachable(row.status, target);
      WalkHops(task, found.value);
      return Returned(true), path;
    }

    /** A worker's walk to a target that nobody disturbs. */
    method To(task: nat, target: TaskStatus) returns (outcome: Outcome<TaskStatus>, ghost path: seq<TaskStatus>)
      modifies this`tasks
      ensures outcome == NoSuchTask <==> task !in old(tasks)
      ensures outcome == Unreachable <==> task in old(tasks) && !Reachable(old(tasks)[task].status, target)
      ensures outcome == Returned(target) <==> task in old(tasks) && Reachable(old(tasks)[task].status, target)
      ensures outcome == Returned(target) ==>
        && ShortestChain(TRANSITIONS, old(tasks)[task].status, target, path)
        && Contents() == old(Contents()).(tasks := old(tasks)[task := old(tasks)[task].Walked(path)])
      ensures outcome != Returned(target) ==> Contents() == old(Contents())
    {
      path := [];
      if task !in tasks {
        return NoSuchTask, path;
      }
      if tasks[task].status == target {
        path := [target];
        assert ChainBetween(TRANSITIONS, target, target, path);
        StandingStill(tasks[task], path);
        assert path[..1] == path;
        return Returned(target), path;
      }
      var found := Path(TRANSITIONS, tasks[task].status, target);
      if found.None? {
        return Unreachable, path;
      }
      path := found.value;
      assert Reachable(tasks[task].status, target);
      WalkHops(task, found.value);
      return Returned(target), path;
    }

    /**
     The API's cancellation of a task with its runs, steps and agents. A demanded run must still be
     open, and is cancelled with the rest; otherwise nothing happens.
     */
    method CancelWithWorkflows(task: nat, demanded: Option<nat>) returns (outcome: Outcome<set<nat>>)
      modifies this
      ensures outcome == NoSuchTask <==> task !in old(tasks)
      ensures outcome.Returned? <==>
        && task in old(tasks) && old(tasks)[task].status !in {TaskStatus.COMPLETED, TaskStatus.MERGED}
        && (demanded.Some? ==> old(OpenRunOf(Contents(), demanded.value, task)))
      ensures outcome == Refused <==>
        && task in old(tasks)
        && (old(tasks)[task].status in {TaskStatus.COMPLETED, TaskStatus.MERGED} || (demanded.Some? && !old(OpenRunOf(Contents(), demanded.value, task))))
      ensures outcome.Returned? <==> old(CancellationAllowed(Contents(), task, demanded))
      ensures outcome.Returned? ==>
        && Contents() == Cancelled(old(Contents()), task)
        && (forall r :: r in outcome.value <==> old(OpenRunOf(Contents(), r, task)))
        && (demanded.Some? ==> demanded.value in runs && runs[demanded.value].status == RunStatus.CANCELLED)
      ensures !outcome.Returned? ==> Contents() == old(Contents())
    {
      if task !in tasks {
        return NoSuchTask;
      }
      var row := tasks[task];
      CancellableStatuses(row.status);
      if row.status != TaskStatus.CANCELLED && !CanMove(row.status, TaskStatus.CANCELLED) {
        return Refused;
      }
      var active := ActiveRuns(runs, task, row.project);
      if demanded.Some? && demanded.value !in active {
        return Refused;
      }
      var owned := OwnedAgents(Contents(), task, active, row.project);
      runs := CancelRuns(runs, active);
      steps := CancelSteps(steps, active);
      agents := CancelAgents(agents, owned);
      if row.status != TaskStatus.CANCELLED {
        var claimed := MoveIf(task, row.status, TaskStatus.CANCELLED);
        assert claimed;
      }
      return Returned(active);
    }

    /**
     The completion transaction of an agent run. Whoever runs it, the run is over afterwards, so
     no second completion can claim it; and only a claim under live parents leaves any output.
     */
    method CompleteAgentRun(a: nat, status: AgentRunStatus, output: Option<nat>) returns (claimed: bool)
      modifies this`agents
      ensures (Contents(), claimed) == old(Completion(Contents(), a, status, output))
      ensures agents.Keys == old(agents).Keys
      ensures claimed <==>
        && a in old(agents) && old(agents)[a].status == AgentRunStatus.RUNNING
        && !old(TaskIsCancelled(agents[a].task)) && !old(RunIsCancelled(agents[a].run))
      ensures a in agents && status != AgentRunStatus.RUNNING ==> agents[a].status != AgentRunStatus.RUNNING
      ensures claimed ==>
        && a in agents && old(agents)[a].status == AgentRunStatus.RUNNING
        && !ParentCancelled(Contents(), agents[a].task, agents[a].run)
        && agents[a].status == status && agents[a].output == output
      ensures !claimed ==> forall b :: b in agents ==> agents[b].output == old(agents)[b].output
      ensures a in agents && ParentCancelled(Contents(), agents[a].task, agents[a].run) && old(agents)[a].status == AgentRunStatus.RUNNING ==>
        agents[a].status == AgentRunStatus.CANCELLED
      ensures forall b :: b in agents && (b != a || old(agents)[a].status != AgentRunStatus.RUNNING) ==> agents[b] == old(agents)[b]
    {
      claimed := false;
      if a in agents && agents[a].status == AgentRunStatus.RUNNING {
        if ParentCancelled(Contents(), agents[a].task, agents[a].run) {
          agents := agents[a := agents[a].(status := AgentRunStatus.CANCELLED)];
        } else {
          agents := agents[a := agents[a].(status := status, output := output)];
          claimed := true;
        }
      }
    }
  }
}
