/** What the writers achieve: which decisions, moves and starts happen, whose result lands, and who is stopped. */
module ProtocolOutcomes {
  import opened StateMachines
  import opened Statuses
  import opened TaskMachine
  import opened TaskStore
  import opened TaskProtocol
  import opened TaskTransitions
  import opened Wrappers

  /** Neither the task nor the workflow run of the agent run is cancelled. */
  predicate ParentsLive(db: Db, row: AgentRun) {
    && (row.task.Some? && row.task.value in db.tasks ==> db.tasks[row.task.value].status != TaskStatus.CANCELLED)
    && (row.run.Some? && row.run.value in db.runs ==> db.runs[row.run.value].status != RunStatus.CANCELLED)
  }

  /** The executor is at work and its row still says so. */
  predicate AtWork(w: World, a: nat) {
    && a in w.executors && w.executors[a] == Working
    && a in w.db.agents && w.db.agents[a].status == AgentRunStatus.RUNNING
  }

  predicate Final(status: AgentRunStatus) {
    status !in {AgentRunStatus.PENDING, AgentRunStatus.RUNNING}
  }

  /**
   A result that comes back while the execution is at work under live parents is claimed: the row
   shows exactly its status and output, and its usage can be recorded.
   */
  lemma LiveResultLands(w: World, a: nat, status: AgentRunStatus, output: Option<nat>)
    requires AtWork(w, a) && ParentsLive(w.db, w.db.agents[a]) && Final(status)
    ensures var after := Step(w, ACompleteAgent(a, status, output));
      && a in after.db.agents && after.db.agents[a] == w.db.agents[a].(status := status, output := output)
      && after.completions == w.completions + [Claim(a, w.db, status, output)]
      && Step(after, ARecordUsage(a)).usage == w.usage + [a]
  {}

  /** One that comes back under a cancelled parent is lost, and the row is cancelled. */
  lemma LateResultIsCancelled(w: World, a: nat, status: AgentRunStatus, output: Option<nat>)
    requires AtWork(w, a) && !ParentsLive(w.db, w.db.agents[a]) && Final(status)
    ensures var after := Step(w, ACompleteAgent(a, status, output));
      && a in after.db.agents && after.db.agents[a] == w.db.agents[a].(status := AgentRunStatus.CANCELLED)
      && after.completions == w.completions && Step(after, ARecordUsage(a)).usage == w.usage
  {}

  /** An execution is let in exactly under live parents and within its budget; otherwise it is recorded dead. */
  lemma CreationIsDecided(w: World, a: nat, task: nat, run: Option<nat>, step: Option<nat>, overBudget: bool)
    requires a !in w.db.agents && a !in w.executors && ProperParents(w.db, task, run, step)
    ensures var after := Step(w, ACreateAgent(a, task, run, step, overBudget));
      && a in after.db.agents && after.db.agents[a].task == Some(task) && after.db.agents[a].run == run
      && after.db.agents[a].step == step && after.db.agents[a].output == None
      && (AtWork(after, a) <==> ParentsLive(w.db, after.db.agents[a]) && !overBudget)
      && after.db.agents[a].status ==
           if !ParentsLive(w.db, after.db.agents[a]) then AgentRunStatus.CANCELLED
           else if overBudget then AgentRunStatus.BUDGET_EXCEEDED else AgentRunStatus.RUNNING
  {
    hide ProperParents, MoveTask, CancelTask, FinishRun, StartWalk, StepWalk, CompleteAgent;
  }

  /** A poll that saw a cancelled parent stops an execution that is still at work. */
  lemma PollStops(w: World, a: nat)
    requires AtWork(w, a) && !ParentsLive(w.db, w.db.agents[a])
    ensures var after := Step(Step(w, APollReads(a)), APollWrites(a));
      a in after.db.agents && after.db.agents[a] == w.db.agents[a].(status := AgentRunStatus.CANCELLED)
  {}

  /** One that saw live parents writes nothing. */
  lemma PollSpares(w: World, a: nat)
    requires AtWork(w, a) && ParentsLive(w.db, w.db.agents[a]) && a !in w.polls
    ensures Step(Step(w, APollReads(a)), APollWrites(a)).db == w.db
  {}

  /** The API stops an agent run that is not over, and leaves every other one alone. */
  lemma ApiStops(w: World, a: nat)
    requires a in w.db.agents
    ensures var after := Step(w, ACancelAgent(a)).db.agents;
      && a in after
      && after[a] == (if Final(w.db.agents[a].status) then w.db.agents[a] else w.db.agents[a].(status := AgentRunStatus.CANCELLED))
      && forall b :: b in w.db.agents && b != a ==> b in after && after[b] == w.db.agents[b]
  {}

  /** A guarded write of a run's status lands exactly while the run is open. */
  lemma OpenRunsAreWritten(w: World, r: nat, status: RunStatus)
    requires r in w.db.runs
    ensures var after := Step(w, AWriteRun(r, status)).db.runs;
      r in after && after[r].status ==
        if w.db.runs[r].status in {RunStatus.PENDING, RunStatus.RUNNING, RunStatus.WAITING_FOR_HUMAN} then status else w.db.runs[r].status
  {}

  /** A workflow is started exactly for a task that is not finished and, unless forced, with attempts left and beside no other. */
  lemma RunIsStartedExactlyWhen(w: World, run: nat, task: nat, force: bool, spent: bool)
    requires run !in w.db.runs
    ensures var after := Step(w, ACreateRun(run, task, force, spent));
      && (run in after.db.runs <==>
            && task in w.db.tasks && w.db.tasks[task].status !in {TaskStatus.COMPLETED, TaskStatus.CANCELLED}
            && (force || (!spent && forall r :: r in w.db.runs && w.db.runs[r].task == Some(task) ==>
                            w.db.runs[r].status !in {RunStatus.PENDING, RunStatus.RUNNING})))
      && (run in after.db.runs ==> after.db.runs[run] == WorkflowRun(Some(task), w.db.tasks[task].project, RunStatus.PENDING))
  {}

  // -- decisions and moves ------------------------------------------------------------------

  /** A terminal decision happens, wholly, exactly while its run is open and the task can get to the target. */
  lemma DecisionHappensExactlyWhen(w: World, run: nat, task: nat, status: RunStatus, target: TaskStatus, path: Option<seq<TaskStatus>>)
    requires task in w.db.tasks && PathAnswer(w.db.tasks[task].status, target, path)
    ensures var after := Step(w, AFinishRun(run, task, status, target, path)).db;
      if OpenRunOf(w.db, run, task) && Reachable(w.db.tasks[task].status, target) then
        && path.Some? && |path.value| > 0 && after == Finished(w.db, run, task, status, path.value)
        && task in after.tasks && after.tasks[task].status == target && run in after.runs && after.runs[run].status == status
      else after == w.db
  {
    hide CancelRuns, CancelSteps, CancelAgents, AttachedAgents;
    if path.Some? {
      assert ChainBetween(TRANSITIONS, w.db.tasks[task].status, target, path.value);
      if OpenRunOf(w.db, run, task) {
        OwnRunIsOver(w.db, run, task, status, path.value);
      }
    }
  }

  /** The API's cancellation happens exactly for a task that can be cancelled and a demanded run that is open. */
  lemma CancellationHappensExactlyWhen(w: World, task: nat, demanded: Option<nat>)
    ensures var after := Step(w, ACancelTask(task, demanded)).db;
      if task in w.db.tasks && w.db.tasks[task].status !in {TaskStatus.COMPLETED, TaskStatus.MERGED}
         && (demanded.Some? ==> OpenRunOf(w.db, demanded.value, task))
      then after == Cancelled(w.db, task) && after.tasks[task].status == TaskStatus.CANCELLED else after == w.db
  {
    if task in w.db.tasks {
      CancellableStatuses(w.db.tasks[task].status);
    }
    hide CanMove, CancelRuns, CancelSteps, CancelAgents;
  }

  /** A single move happens exactly when it is legal and the task still is where it was seen. */
  lemma MoveHappensExactlyWhen(w: World, task: nat, from: TaskStatus, to: TaskStatus)
    ensures var after := Step(w, AMoveTask(task, from, to)).db;
      if CanMove(from, to) && task in w.db.tasks && w.db.tasks[task].status == from then
        && task in after.tasks && after.tasks[task].status == to && after.tasks[task].Visits() == w.db.tasks[task].Visits() + [to]
        && after == w.db.(tasks := after.tasks) && forall t :: t in w.db.tasks && t != task ==> t in after.tasks && after.tasks[t] == w.db.tasks[t]
      else after == w.db
  {
    hide CanMove;
  }

  /** A new task waits in the backlog. */
  lemma TaskStartsInBacklog(w: World, task: nat, project: nat)
    requires task !in w.db.tasks
    ensures var after := Step(w, ACreateTask(task, project)).db;
      && task in after.tasks && after.tasks[task].Visits() == [TaskStatus.BACKLOG] && after.tasks[task].project == project
      && after == w.db.(tasks := after.tasks) && forall t :: t in w.db.tasks ==> t in after.tasks && after.tasks[t] == w.db.tasks[t]
  {}

  // -- walks ------------------------------------------------------------------------------------

  /** How a walk begins: at the target there is nothing to do but to confirm it, without a way there is no walk. */
  lemma WalkBegins(w: World, id: nat, task: nat, target: TaskStatus, confirms: bool, path: Option<seq<TaskStatus>>)
    requires id !in w.walkers && task in w.db.tasks && PathAnswer(w.db.tasks[task].status, target, path)
    ensures var after := Step(w, AStartWalk(id, task, target, confirms, path));
      && after.db == w.db && id in after.walkers && after.walkers[id].task == task && after.walkers[id].target == target
      && after.walkers[id].state ==
           if w.db.tasks[task].status == target then (if confirms then Confirming else Arrived)
           else if Reachable(w.db.tasks[task].status, target) then Walking else NoPath
  {
    if path.Some? {
      assert ChainBetween(TRANSITIONS, w.db.tasks[task].status, target, path.value);
    }
  }

  /** A confirmation arrives exactly when the target is still set. */
  lemma ConfirmationLooksAgain(w: World, id: nat)
    requires id in w.walkers && w.walkers[id].state == Confirming
    ensures var after, k := Step(w, AStepWalk(id)), w.walkers[id];
      && after.db == w.db && id in after.walkers
      && after.walkers[id].state == if k.task in w.db.tasks && w.db.tasks[k.task].status == k.target then Arrived else Disturbed
  {}

  function Hops(w: World, id: nat, n: nat): World {
    if n == 0 then w else StepWalk(Hops(w, id, n - 1), id)
  }

  /** The walker has made n hops of its path, and nothing else has happened. */
  predicate OnItsWay(w: World, after: World, id: nat, n: nat)
    requires id in w.walkers && w.walkers[id].task in w.db.tasks && n < |w.walkers[id].path|
  {
    var k := w.walkers[id];
    && id in after.walkers && after.walkers[id].path == k.path && after.walkers[id].task == k.task && after.walkers[id].at == n
    && after.walkers[id].state == (if n > 0 && n == |k.path| - 1 then Arrived else Walking)
    && after.db == w.db.(tasks := w.db.tasks[k.task := w.db.tasks[k.task].Walked(k.path[..n + 1])])
  }

  /** Left alone, a walk makes every hop of its path and arrives, with exactly that path behind the task. */
  lemma {:induction false} UndisturbedWalkArrives(w: World, id: nat, n: nat)
    requires id in w.walkers && w.walkers[id].state == Walking && w.walkers[id].at == 0 && n < |w.walkers[id].path|
    requires w.walkers[id].task in w.db.tasks && w.walkers[id].path[0] == w.db.tasks[w.walkers[id].task].status
    ensures OnItsWay(w, Hops(w, id, n), id, n)
  {
    if n == 0 {
      var k := w.walkers[id];
      StandingStill(w.db.tasks[k.task], k.path);
      assert w.db.tasks[k.task := w.db.tasks[k.task]] == w.db.tasks;
    } else {
      hide OnItsWay, StepWalk;
      UndisturbedWalkArrives(w, id, n - 1);
      OneMoreHop(w, Hops(w, id, n - 1), id, n);
    }
  }

  lemma OneMoreHop(w: World, now: World, id: nat, n: nat)
    requires id in w.walkers && w.walkers[id].task in w.db.tasks && 0 < n < |w.walkers[id].path|
    requires OnItsWay(w, now, id, n - 1)
    ensures OnItsWay(w, StepWalk(now, id), id, n)
  {
    hide StepWalk;
    var k := w.walkers[id];
    WalkerHops(now, id);
    OneHopFurther(w.db.tasks[k.task], k.path, n);
  }

  lemma WalkerHops(w: World, id: nat)
    requires id in w.walkers && w.walkers[id].state == Walking && w.walkers[id].at + 1 < |w.walkers[id].path|
    requires StatusIs(w.db, w.walkers[id].task, w.walkers[id].path[w.walkers[id].at])
    ensures var after, k := StepWalk(w, id), w.walkers[id];
      && id in after.walkers && after.walkers[id].path == k.path && after.walkers[id].task == k.task && after.walkers[id].at == k.at + 1
      && after.walkers[id].state == (if k.at + 2 == |k.path| then Arrived else Walking)
      && after.db == w.db.(tasks := w.db.tasks[k.task := w.db.tasks[k.task].Moved(k.path[k.at + 1])])
  {}
}
