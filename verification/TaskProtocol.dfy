/**
 Every writer of tasks, runs and agent runs at once: workers walking a task hop by hop
 without a lock, terminal decisions, the API, and agent executions. One transaction or
 one guarded update is one step; a crash is a writer that takes no further step.
 */
module TaskProtocol {
  import opened Statuses
  import opened TaskMachine
  import opened TaskStore
  import opened Wrappers

  datatype WalkState = Walking | Confirming | Arrived | Disturbed | NoPath

  /**
   One call of `to`. `at` counts the hops made, `marks` says where in the task's visits they
   are, and `since` is the visit the walker last read or wrote.
   */
  datatype Walker = Walker(task: nat, target: TaskStatus, path: seq<TaskStatus>, at: nat, marks: seq<nat>, since: nat, state: WalkState)

  datatype Phase = Working | Claimed | Lost | Recorded

  /** The completion transaction of an agent run wrote this result, having seen this stored value. */
  datatype Claim = Claim(agent: nat, seen: Db, status: AgentRunStatus, output: Option<nat>)

  /**
   The stored value with the callers in flight. `authored` says which walker wrote a visit of
   a task; `completions`, `usage` and `ended` are the claimed results, the usage recorded for
   them and the runs given a final status by a terminal decision.
   */
  datatype World = World(
    db: Db,
    walkers: map<nat, Walker>,
    authored: map<(nat, nat), nat>,
    executors: map<nat, Phase>,
    polls: set<nat>,
    completions: seq<Claim>,
    usage: seq<nat>,
    ended: seq<nat>)

  // -- walkers --------------------------------------------------------------------------

  ghost function StartWalk(w: World, id: nat, task: nat, target: TaskStatus, confirms: bool, path: Option<seq<TaskStatus>>): World {
    if id in w.walkers || task !in w.db.tasks then w
    else
      var row := w.db.tasks[task];
      var here := |row.earlier|;
      if row.status == target then
        w.(walkers := w.walkers[id := Walker(task, target, [target], 0, [], here, if confirms then Confirming else Arrived)])
      else if !PathAnswer(row.status, target, path) then w
      else if path.None? then w.(walkers := w.walkers[id := Walker(task, target, [row.status], 0, [], here, NoPath)])
      else w.(walkers := w.walkers[id := Walker(task, target, path.value, 0, [], here, Walking)])
  }

  function StepWalk(w: World, id: nat): World {
    if id !in w.walkers then w
    else
      var k := w.walkers[id];
      if k.state == Confirming then
        w.(walkers := w.walkers[id := k.(state := if StatusIs(w.db, k.task, k.target) then Arrived else Disturbed)])
      else if k.state != Walking || k.at + 1 >= |k.path| then w
      else if StatusIs(w.db, k.task, k.path[k.at]) then
        var position := |w.db.tasks[k.task].earlier| + 1;
        w.(db := Hop(w.db, k.task, k.path[k.at], k.path[k.at + 1]),
           authored := w.authored[(k.task, position) := id],
           walkers := w.walkers[id := k.(at := k.at + 1, marks := k.marks + [position], since := position,
                                         state := if k.at + 2 == |k.path| then Arrived else Walking)])
      else w.(walkers := w.walkers[id := k.(state := Disturbed)])
  }

  // -- terminal decisions and the API ------------------------------------------------------

  ghost function FinishRun(w: World, run: nat, task: nat, status: RunStatus, target: TaskStatus, path: Option<seq<TaskStatus>>): World {
    if task !in w.db.tasks || !MayClaimRun(w.db, run, task) then w
    else if !PathAnswer(w.db.tasks[task].status, target, path) || path.None? then w
    else w.(db := Finished(w.db, run, task, status, path.value),
            ended := if Claimable(status) then w.ended else w.ended + [run])
  }

  function MoveTask(w: World, task: nat, from: TaskStatus, to: TaskStatus): World {
    if CanMove(from, to) then w.(db := Hop(w.db, task, from, to)) else w
  }

  function CancelTask(w: World, task: nat, demanded: Option<nat>): World {
    if CancellationAllowed(w.db, task, demanded) then w.(db := Cancelled(w.db, task)) else w
  }

  function CreateTask(w: World, task: nat, project: nat): World {
    if task in w.db.tasks then w
    else w.(db := w.db.(tasks := w.db.tasks[task := Task(project, TASK_MACHINE.initial, [])]))
  }

  /** Starting a workflow: refused for a finished task, and unless forced without attempts left or beside a running one. */
  function CreateRun(w: World, run: nat, task: nat, force: bool, spent: bool): World {
    if run in w.db.runs || task !in w.db.tasks || IsTerminal(w.db.tasks[task].status) then w
    else if !force && exists r :: r in w.db.runs && w.db.runs[r].task == Some(task)
                                  && (w.db.runs[r].status == RunStatus.PENDING || w.db.runs[r].status == RunStatus.RUNNING) then w
    else if spent && !force then w
    else w.(db := w.db.(runs := w.db.runs[run := WorkflowRun(Some(task), w.db.tasks[task].project, RunStatus.PENDING)]))
  }

  /** Any guarded update of a run outside a task transaction: start, early failure, engine cancellation. */
  function WriteRun(w: World, run: nat, status: RunStatus): World {
    if run in w.db.runs && Claimable(w.db.runs[run].status)
    then w.(db := w.db.(runs := w.db.runs[run := w.db.runs[run].(status := status)]))
    else w
  }

  function WriteStep(w: World, step: nat, run: nat, status: RunStatus): World {
    if step in w.db.steps then w.(db := w.db.(steps := w.db.steps[step := w.db.steps[step].(status := status)]))
    else w.(db := w.db.(steps := w.db.steps[step := StepRow(run, status)]))
  }

  // -- agent executions ------------------------------------------------------------------------

  /** The engine hands over its own run and a step of that run. */
  predicate ProperParents(db: Db, task: nat, run: Option<nat>, step: Option<nat>) {
    && task in db.tasks
    && (run.Some? ==> RunOf(db.runs, run.value, task, db.tasks[task].project))
    && (step.Some? ==> run.Some? && step.value in db.steps && db.steps[step.value].run == run.value)
  }

  function CreateAgent(w: World, a: nat, task: nat, run: Option<nat>, step: Option<nat>, overBudget: bool): World {
    if a in w.db.agents || a in w.executors || !ProperParents(w.db, task, run, step) then w
    else
      var status :=
        if ParentCancelled(w.db, Some(task), run) then AgentRunStatus.CANCELLED
        else if overBudget then AgentRunStatus.BUDGET_EXCEEDED
        else AgentRunStatus.RUNNING;
      var created := w.(db := w.db.(agents := w.db.agents[a := AgentRun(Some(task), run, step, status, None)]));
      if status == AgentRunStatus.RUNNING then created.(executors := w.executors[a := Working]) else created
  }

  /** The poll reads the parents; what it decides to write may land much later. */
  function PollReads(w: World, a: nat): World {
    if a in w.executors && a in w.db.agents && ParentCancelled(w.db, w.db.agents[a].task, w.db.agents[a].run)
    then w.(polls := w.polls + {a})
    else w
  }

  function PollWrites(w: World, a: nat): World {
    if a in w.polls && a in w.db.agents
    then w.(db := AgentCas(w.db, a, w.db.agents[a].(status := AgentRunStatus.CANCELLED)), polls := w.polls - {a})
    else w
  }

  /** The provider returned or threw: the completion transaction. */
  function CompleteAgent(w: World, a: nat, status: AgentRunStatus, output: Option<nat>): World {
    if a !in w.executors || w.executors[a] != Working || ActiveAgent(status) then w
    else
      var (db, claimed) := Completion(w.db, a, status, output);
      w.(db := db,
         executors := w.executors[a := if claimed then Claimed else Lost],
         completions := if claimed then w.completions + [Claim(a, w.db, status, output)] else w.completions)
  }

  function RecordUsage(w: World, a: nat): World {
    if a in w.executors && w.executors[a] == Claimed
    then w.(executors := w.executors[a := Recorded], usage := w.usage + [a])
    else w
  }

  /** The API stops one agent run. */
  function CancelAgent(w: World, a: nat): World {
    if a in w.db.agents then w.(db := w.db.(agents := CancelAgents(w.db.agents, {a}))) else w
  }

  // -- runs of the protocol ------------------------------------------------------------------------

  datatype Action =
    | ACreateTask(task: nat, project: nat)
    | AStartWalk(walker: nat, task: nat, target: TaskStatus, confirms: bool, path: Option<seq<TaskStatus>>)
    | AStepWalk(walker: nat)
    | AFinishRun(run: nat, task: nat, runStatus: RunStatus, target: TaskStatus, path: Option<seq<TaskStatus>>)
    | AMoveTask(task: nat, from: TaskStatus, to: TaskStatus)
    | ACancelTask(task: nat, demanded: Option<nat>)
    | ACreateRun(run: nat, task: nat, force: bool, spent: bool)
    | AWriteRun(run: nat, runStatus: RunStatus)
    | AWriteStep(step: nat, run: nat, runStatus: RunStatus)
    | ACreateAgent(agent: nat, task: nat, parentRun: Option<nat>, parentStep: Option<nat>, overBudget: bool)
    | APollReads(agent: nat)
    | APollWrites(agent: nat)
    | ACompleteAgent(agent: nat, agentStatus: AgentRunStatus, output: Option<nat>)
    | ARecordUsage(agent: nat)
    | ACancelAgent(agent: nat)

  ghost function Step(w: World, action: Action): World {
    match action
    case ACreateTask(task, project) => CreateTask(w, task, project)
    case AStartWalk(id, task, target, confirms, path) => StartWalk(w, id, task, target, confirms, path)
    case AStepWalk(id) => StepWalk(w, id)
    case AFinishRun(run, task, status, target, path) => FinishRun(w, run, task, status, target, path)
    case AMoveTask(task, from, to) => MoveTask(w, task, from, to)
    case ACancelTask(task, demanded) => CancelTask(w, task, demanded)
    case ACreateRun(run, task, force, spent) => CreateRun(w, run, task, force, spent)
    case AWriteRun(run, status) => WriteRun(w, run, status)
    case AWriteStep(step, run, status) => WriteStep(w, step, run, status)
    case ACreateAgent(a, task, run, step, overBudget) => CreateAgent(w, a, task, run, step, overBudget)
    case APollReads(a) => PollReads(w, a)
    case APollWrites(a) => PollWrites(w, a)
    case ACompleteAgent(a, status, output) => CompleteAgent(w, a, status, output)
    case ARecordUsage(a) => RecordUsage(w, a)
    case ACancelAgent(a) => CancelAgent(w, a)
  }

  ghost function Run(w: World, actions: seq<Action>): World {
    if actions == [] then w else Step(Run(w, actions[..|actions| - 1]), actions[|actions| - 1])
  }

  /** Any stored tasks, runs and steps; nobody in flight yet. */
  function Initial(tasks: map<nat, Task>, runs: map<nat, WorkflowRun>, steps: map<nat, StepRow>): World {
    World(Db(tasks, runs, steps, map[]), map[], map[], map[], {}, [], [], [])
  }
}
