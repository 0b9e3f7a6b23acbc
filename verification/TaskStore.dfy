/**
 The rows the transition and agent transactions work on, and the transactions
 themselves as functions of the stored value.
 */
module TaskStore {
  import opened StateMachines
  import opened Statuses
  import opened TaskMachine
  import opened Wrappers

  /** `status` is the column; `earlier` is every value it had before, oldest first. */
  datatype Task = Task(project: nat, status: TaskStatus, earlier: seq<TaskStatus>) {
    function Visits(): seq<TaskStatus> {
      earlier + [status]
    }

    function Moved(next: TaskStatus): Task {
      Task(project, next, earlier + [status])
    }

    /** The status after walking a path that starts at the present one. */
    function Walked(path: seq<TaskStatus>): Task
      requires |path| > 0
    {
      Task(project, path[|path| - 1], earlier + path[..|path| - 1])
    }
  }

  datatype WorkflowRun = WorkflowRun(task: Option<nat>, project: nat, status: RunStatus)

  datatype StepRow = StepRow(run: nat, status: RunStatus)

  datatype AgentRun = AgentRun(task: Option<nat>, run: Option<nat>, step: Option<nat>, status: AgentRunStatus, output: Option<nat>)

  datatype Db = Db(
    tasks: map<nat, Task>,
    runs: map<nat, WorkflowRun>,
    steps: map<nat, StepRow>,
    agents: map<nat, AgentRun>)

  // -- selections ------------------------------------------------------------------

  predicate RunOf(runs: map<nat, WorkflowRun>, r: nat, task: nat, project: nat) {
    r in runs && runs[r].task == Some(task) && runs[r].project == project
  }

  function ActiveRuns(runs: map<nat, WorkflowRun>, task: nat, project: nat): set<nat> {
    set r | r in runs && RunOf(runs, r, task, project) && Claimable(runs[r].status)
  }

  predicate Attached(steps: map<nat, StepRow>, a: AgentRun, task: nat, runIds: set<nat>) {
    || a.task == Some(task)
    || (a.run.Some? && a.run.value in runIds)
    || (a.step.Some? && a.step.value in steps && steps[a.step.value].run in runIds)
  }

  /** Every populated owner of the agent run lies in the project. */
  predicate OwnedBy(db: Db, a: AgentRun, project: nat) {
    && (a.task.Some? || a.run.Some? || a.step.Some?)
    && (a.task.Some? ==> a.task.value in db.tasks && db.tasks[a.task.value].project == project)
    && (a.run.Some? ==> a.run.value in db.runs && db.runs[a.run.value].project == project)
    && (a.step.Some? ==>
          a.step.value in db.steps && db.steps[a.step.value].run in db.runs && db.runs[db.steps[a.step.value].run].project == project)
  }

  // -- the bulk updates ---------------------------------------------------------------

  function CancelRuns(runs: map<nat, WorkflowRun>, ids: set<nat>): map<nat, WorkflowRun> {
    map r | r in runs :: if r in ids && Claimable(runs[r].status) then runs[r].(status := RunStatus.CANCELLED) else runs[r]
  }

  function CancelSteps(steps: map<nat, StepRow>, ids: set<nat>): map<nat, StepRow> {
    map s | s in steps ::
      if steps[s].run in ids && steps[s].status == RunStatus.RUNNING then steps[s].(status := RunStatus.CANCELLED) else steps[s]
  }

  function CancelAgents(agents: map<nat, AgentRun>, chosen: set<nat>): map<nat, AgentRun> {
    map a | a in agents ::
      if a in chosen && ActiveAgent(agents[a].status) then agents[a].(status := AgentRunStatus.CANCELLED) else agents[a]
  }

  function AttachedAgents(db: Db, task: nat, runIds: set<nat>): set<nat> {
    set a | a in db.agents && Attached(db.steps, db.agents[a], task, runIds)
  }

  function OwnedAgents(db: Db, task: nat, runIds: set<nat>, project: nat): set<nat> {
    set a | a in db.agents && Attached(db.steps, db.agents[a], task, runIds) && OwnedBy(db, db.agents[a], project)
  }

  // -- a single compare-and-set on the status column ----------------------------------

  predicate StatusIs(db: Db, task: nat, status: TaskStatus) {
    task in db.tasks && db.tasks[task].status == status
  }

  function Hop(db: Db, task: nat, from: TaskStatus, to: TaskStatus): Db {
    if StatusIs(db, task, from) then db.(tasks := db.tasks[task := db.tasks[task].Moved(to)]) else db
  }

  // -- the worker's terminal decision ----------------------------------------------------

  predicate MayClaimRun(db: Db, run: nat, task: nat)
    requires task in db.tasks
  {
    RunOf(db.runs, run, task, db.tasks[task].project) && Claimable(db.runs[run].status)
  }

  function Siblings(db: Db, run: nat, task: nat): set<nat>
    requires task in db.tasks
  {
    ActiveRuns(db.runs, task, db.tasks[task].project) - {run}
  }

  /** The stored value after the run is ended, its rivals are cancelled and the task has walked the path. */
  function Finished(db: Db, run: nat, task: nat, status: RunStatus, path: seq<TaskStatus>): Db
    requires task in db.tasks && MayClaimRun(db, run, task) && |path| > 0
  {
    var siblings := Siblings(db, run, task);
    Db(db.tasks[task := db.tasks[task].Walked(path)],
       CancelRuns(db.runs[run := db.runs[run].(status := status)], siblings),
       CancelSteps(db.steps, siblings),
       CancelAgents(db.agents, AttachedAgents(db, task, siblings)))
  }

  /** What a search for a path may answer. */
  ghost predicate PathAnswer(from: TaskStatus, to: TaskStatus, path: Option<seq<TaskStatus>>) {
    match path
    case None => !Reachable(from, to)
    case Some(chain) => ShortestChain(TRANSITIONS, from, to, chain)
  }

  datatype Outcome<+T> = Returned(value: T) | NoSuchTask | Unreachable | Refused

  // -- the API's cancellation ---------------------------------------------------------------

  predicate CancellationAllowed(db: Db, task: nat, demanded: Option<nat>) {
    && task in db.tasks
    && (db.tasks[task].status == TaskStatus.CANCELLED || CanMove(db.tasks[task].status, TaskStatus.CANCELLED))
    && (demanded.Some? ==> demanded.value in ActiveRuns(db.runs, task, db.tasks[task].project))
  }

  function Cancelled(db: Db, task: nat): Db
    requires task in db.tasks
  {
    var row := db.tasks[task];
    var runs := ActiveRuns(db.runs, task, row.project);
    Db(if row.status == TaskStatus.CANCELLED then db.tasks else db.tasks[task := row.Moved(TaskStatus.CANCELLED)],
       CancelRuns(db.runs, runs),
       CancelSteps(db.steps, runs),
       CancelAgents(db.agents, OwnedAgents(db, task, runs, row.project)))
  }

  // -- agent runs -----------------------------------------------------------------------------

  predicate RunCancelled(db: Db, run: Option<nat>) {
    run.Some? && run.value in db.runs && db.runs[run.value].status == RunStatus.CANCELLED
  }

  predicate TaskCancelled(db: Db, task: Option<nat>) {
    task.Some? && task.value in db.tasks && db.tasks[task.value].status == TaskStatus.CANCELLED
  }

  predicate ParentCancelled(db: Db, task: Option<nat>, run: Option<nat>) {
    TaskCancelled(db, task) || RunCancelled(db, run)
  }

  function AgentCas(db: Db, a: nat, to: AgentRun): Db {
    if a in db.agents && db.agents[a].status == AgentRunStatus.RUNNING then db.(agents := db.agents[a := to]) else db
  }

  /** The completion transaction: the stored value, and whether the result was claimed. */
  function Completion(db: Db, a: nat, status: AgentRunStatus, output: Option<nat>): (Db, bool) {
    if a !in db.agents || db.agents[a].status != AgentRunStatus.RUNNING then (db, false)
    else
      var row := db.agents[a];
      if ParentCancelled(db, row.task, row.run) then (AgentCas(db, a, row.(status := AgentRunStatus.CANCELLED)), false)
      else (AgentCas(db, a, row.(status := status, output := output)), true)
  }
}
