/** What every interleaving keeps of workflow runs and agent runs. */
module AgentLife {
  import opened Graphs
  import opened Statuses
  import opened TaskMachine
  import opened TaskStore
  import opened TaskProtocol
  import opened TaskHistory
  import opened Wrappers

  // -- one step ------------------------------------------------------------------------------

  predicate RunKept(before: WorkflowRun, after: WorkflowRun) {
    && after.task == before.task && after.project == before.project
    && (!Claimable(before.status) ==> after == before)
  }

  predicate AgentKept(before: AgentRun, after: AgentRun) {
    && after.task == before.task && after.run == before.run && after.step == before.step
    && (after.status == before.status || !ActiveAgent(after.status))
    && (!ActiveAgent(before.status) ==> after == before)
  }

  ghost predicate RunsKept(before: map<nat, WorkflowRun>, after: map<nat, WorkflowRun>) {
    forall r {:trigger r in before} {:trigger r in after} :: r in before ==> r in after && RunKept(before[r], after[r])
  }

  ghost predicate StepsKept(before: map<nat, StepRow>, after: map<nat, StepRow>) {
    forall s {:trigger s in before} {:trigger s in after} :: s in before ==> s in after && after[s].run == before[s].run
  }

  ghost predicate AgentsKept(before: map<nat, AgentRun>, after: map<nat, AgentRun>) {
    forall a {:trigger a in before} {:trigger a in after} :: a in before ==> a in after && AgentKept(before[a], after[a])
  }

  /** A run enters the tables only under a task that is not finished. */
  ghost predicate NewRunsAreWelcome(before: Db, after: Db) {
    forall r {:trigger r in after.runs} :: r in after.runs && r !in before.runs ==>
      && after.runs[r].task.Some?
      && var t := after.runs[r].task.value;
         t in before.tasks && !IsTerminal(before.tasks[t].status) && after.runs[r].project == before.tasks[t].project
  }

  /** An agent run enters the tables with proper parents, and dead if one of them is cancelled. */
  ghost predicate NewAgentsAreProper(before: Db, after: Db) {
    forall a {:trigger a in after.agents} :: a in after.agents && a !in before.agents ==>
      && after.agents[a].task.Some? && after.agents[a].output == None
      && ProperParents(before, after.agents[a].task.value, after.agents[a].run, after.agents[a].step)
      && (ParentCancelled(before, after.agents[a].task, after.agents[a].run) ==> !ActiveAgent(after.agents[a].status))
  }

  ghost predicate Kept(before: Db, after: Db) {
    RunsKept(before.runs, after.runs) && StepsKept(before.steps, after.steps) && AgentsKept(before.agents, after.agents)
  }

  lemma KeptByNothing(db: Db)
    ensures Kept(db, db)
  {}

  predicate LeavesRunsAndAgents(action: Action) {
    || action.ACreateTask? || action.AStartWalk? || action.AStepWalk? || action.AMoveTask? || action.APollReads? || action.ARecordUsage?
  }

  lemma OnlyTasksMove(w: World, action: Action)
    requires LeavesRunsAndAgents(action)
    ensures var after := Step(w, action).db;
      after.runs == w.db.runs && after.steps == w.db.steps && after.agents == w.db.agents
  {
    hide PathAnswer, CanMove, ParentCancelled, FinishRun, CancelTask, CreateRun, WriteRun, WriteStep, CreateAgent, PollWrites, CompleteAgent,
         CancelAgent;
  }

  lemma CreateRunKeeps(w: World, run: nat, task: nat, force: bool, spent: bool)
    ensures Kept(w.db, CreateRun(w, run, task, force, spent).db)
  {
    hide IsTerminal;
  }

  lemma CreateAgentKeeps(w: World, a: nat, task: nat, run: Option<nat>, step: Option<nat>, overBudget: bool)
    ensures Kept(w.db, CreateAgent(w, a, task, run, step, overBudget).db)
  {
    hide ParentCancelled, ProperParents;
  }

  lemma WriteRunKeeps(w: World, run: nat, status: RunStatus)
    ensures Kept(w.db, WriteRun(w, run, status).db)
  {}

  lemma WriteStepKeeps(w: World, step: nat, run: nat, status: RunStatus)
    ensures Kept(w.db, WriteStep(w, step, run, status).db)
  {
    KeptByNothing(w.db);
  }

  /** Agent runs are neither added nor changed, except that live ones may be cancelled. */
  ghost predicate AgentsOnlyDie(before: map<nat, AgentRun>, after: map<nat, AgentRun>) {
    && after.Keys == before.Keys
    && forall a {:trigger a in after} :: a in after ==>
         || after[a] == before[a]
         || (ActiveAgent(before[a].status) && after[a] == before[a].(status := AgentRunStatus.CANCELLED))
  }

  lemma CancelAgentsOnlyKills(agents: map<nat, AgentRun>, chosen: set<nat>)
    ensures AgentsOnlyDie(agents, CancelAgents(agents, chosen))
  {}

  lemma SameAgentsOnlyDie(agents: map<nat, AgentRun>)
    ensures AgentsOnlyDie(agents, agents)
  {}

  lemma PollWritesOnlyKills(w: World, a: nat)
    ensures AgentsOnlyDie(w.db.agents, PollWrites(w, a).db.agents)
  {}

  lemma FinishRunOnlyKills(w: World, run: nat, task: nat, status: RunStatus, target: TaskStatus, path: Option<seq<TaskStatus>>)
    ensures AgentsOnlyDie(w.db.agents, FinishRun(w, run, task, status, target, path).db.agents)
  {
    hide PathAnswer, Attached, AgentsOnlyDie, CancelAgents;
    SameAgentsOnlyDie(w.db.agents);
    if task in w.db.tasks && MayClaimRun(w.db, run, task) {
      CancelAgentsOnlyKills(w.db.agents, AttachedAgents(w.db, task, Siblings(w.db, run, task)));
    }
  }

  lemma CancelTaskOnlyKills(w: World, task: nat, demanded: Option<nat>)
    ensures AgentsOnlyDie(w.db.agents, CancelTask(w, task, demanded).db.agents)
  {
    hide CanMove, Attached, OwnedBy, AgentsOnlyDie, CancelAgents;
    SameAgentsOnlyDie(w.db.agents);
    if task in w.db.tasks {
      var project := w.db.tasks[task].project;
      CancelAgentsOnlyKills(w.db.agents, OwnedAgents(w.db, task, ActiveRuns(w.db.runs, task, project), project));
    }
  }

  lemma StepOnlyKills(w: World, action: Action)
    requires !action.ACreateAgent? && !action.ACompleteAgent?
    ensures AgentsOnlyDie(w.db.agents, Step(w, action).db.agents)
  {
    hide AgentsOnlyDie, FinishRun, CancelTask, CreateTask, StartWalk, StepWalk, MoveTask, PollReads, PollWrites, RecordUsage, CancelAgents;
    SameAgentsOnlyDie(w.db.agents);
    if LeavesRunsAndAgents(action) {
      OnlyTasksMove(w, action);
    } else {
      match action
      case AFinishRun(run, task, status, target, path) => FinishRunOnlyKills(w, run, task, status, target, path);
      case ACancelTask(task, demanded) => CancelTaskOnlyKills(w, task, demanded);
      case APollWrites(a) => PollWritesOnlyKills(w, a);
      case ACancelAgent(a) => CancelAgentsOnlyKills(w.db.agents, {a});
      case _ =>
    }
  }

  lemma OneRowKept(agents: map<nat, AgentRun>, a: nat, row: AgentRun)
    requires a in agents ==> AgentKept(agents[a], row)
    ensures AgentsKept(agents, agents[a := row])
  {}

  lemma CompletionKeeps(w: World, a: nat, status: AgentRunStatus, output: Option<nat>)
    ensures Kept(w.db, CompleteAgent(w, a, status, output).db)
  {
    hide ParentCancelled, AgentsKept, RunsKept, StepsKept;
    SameRowsAreKept(w.db);
    SameAgentsAreKept(w.db.agents);
    if a in w.db.agents && w.db.agents[a].status == AgentRunStatus.RUNNING && !ActiveAgent(status) {
      OneRowKept(w.db.agents, a, w.db.agents[a].(status := AgentRunStatus.CANCELLED));
      OneRowKept(w.db.agents, a, w.db.agents[a].(status := status, output := output));
    }
  }

  lemma SameAgentsAreKept(agents: map<nat, AgentRun>)
    ensures AgentsKept(agents, agents)
  {}

  lemma DyingIsKept(before: map<nat, AgentRun>, after: map<nat, AgentRun>)
    requires AgentsOnlyDie(before, after)
    ensures AgentsKept(before, after)
  {}

  lemma CancelRunsKeeps(runs: map<nat, WorkflowRun>, ids: set<nat>)
    ensures RunsKept(runs, CancelRuns(runs, ids))
  {}

  lemma CancelStepsKeeps(steps: map<nat, StepRow>, ids: set<nat>)
    ensures StepsKept(steps, CancelSteps(steps, ids))
  {}

  lemma EndRunKeeps(runs: map<nat, WorkflowRun>, run: nat, status: RunStatus, ids: set<nat>)
    requires run in runs && Claimable(runs[run].status)
    ensures RunsKept(runs, CancelRuns(runs[run := runs[run].(status := status)], ids))
  {}

  lemma FinishRunKeeps(w: World, run: nat, task: nat, status: RunStatus, target: TaskStatus, path: Option<seq<TaskStatus>>)
    ensures Kept(w.db, FinishRun(w, run, task, status, target, path).db)
  {
    hide PathAnswer, Attached, AgentsOnlyDie, AgentsKept, RunsKept, StepsKept, CancelRuns, CancelSteps, CancelAgents;
    var after := FinishRun(w, run, task, status, target, path);
    FinishRunOnlyKills(w, run, task, status, target, path);
    DyingIsKept(w.db.agents, after.db.agents);
    SameRowsAreKept(w.db);
    if task in w.db.tasks && MayClaimRun(w.db, run, task) {
      EndRunKeeps(w.db.runs, run, status, Siblings(w.db, run, task));
      CancelStepsKeeps(w.db.steps, Siblings(w.db, run, task));
    }
  }

  lemma SameRowsAreKept(db: Db)
    ensures RunsKept(db.runs, db.runs) && StepsKept(db.steps, db.steps)
  {}

  lemma CancelTaskKeeps(w: World, task: nat, demanded: Option<nat>)
    ensures Kept(w.db, CancelTask(w, task, demanded).db)
  {
    hide CanMove, Attached, OwnedBy, AgentsOnlyDie, AgentsKept, RunsKept, StepsKept, CancelRuns, CancelSteps, CancelAgents;
    CancelTaskOnlyKills(w, task, demanded);
    DyingIsKept(w.db.agents, CancelTask(w, task, demanded).db.agents);
    SameRowsAreKept(w.db);
    if task in w.db.tasks {
      CancelRunsKeeps(w.db.runs, ActiveRuns(w.db.runs, task, w.db.tasks[task].project));
      CancelStepsKeeps(w.db.steps, ActiveRuns(w.db.runs, task, w.db.tasks[task].project));
    }
  }

  lemma CancellingKeeps(w: World, a: nat)
    ensures Kept(w.db, CancelAgent(w, a).db)
  {
    hide AgentsOnlyDie, AgentsKept, RunsKept, StepsKept, CancelAgents;
    CancelAgentsOnlyKills(w.db.agents, {a});
    SameAgentsOnlyDie(w.db.agents);
    DyingIsKept(w.db.agents, CancelAgent(w, a).db.agents);
    SameRowsAreKept(w.db);
  }

  lemma PollingKeeps(w: World, a: nat)
    ensures Kept(w.db, PollWrites(w, a).db)
  {
    PollWritesOnlyKills(w, a);
    hide AgentsOnlyDie, AgentsKept, RunsKept, StepsKept;
    DyingIsKept(w.db.agents, PollWrites(w, a).db.agents);
    SameRowsAreKept(w.db);
  }

  lemma StepKeeps(w: World, action: Action)
    ensures Kept(w.db, Step(w, action).db)
  {
    hide Kept, FinishRun, CancelTask, CreateTask, StartWalk, StepWalk, MoveTask, CreateRun, WriteRun, WriteStep, CreateAgent,
         PollReads, PollWrites, CompleteAgent, RecordUsage, CancelAgent;
    if LeavesRunsAndAgents(action) {
      OnlyTasksMove(w, action);
      KeptIfSame(w.db, Step(w, action).db);
    } else {
      match action
      case ACreateRun(run, task, force, spent) => CreateRunKeeps(w, run, task, force, spent);
      case AWriteRun(run, status) => WriteRunKeeps(w, run, status);
      case AWriteStep(step, run, status) => WriteStepKeeps(w, step, run, status);
      case ACreateAgent(a, task, run, step, overBudget) => CreateAgentKeeps(w, a, task, run, step, overBudget);
      case AFinishRun(run, task, status, target, path) => FinishRunKeeps(w, run, task, status, target, path);
      case ACancelTask(task, demanded) => CancelTaskKeeps(w, task, demanded);
      case APollWrites(a) => PollingKeeps(w, a);
      case ACompleteAgent(a, status, output) => CompletionKeeps(w, a, status, output);
      case ACancelAgent(a) => CancellingKeeps(w, a);
    }
  }

  lemma KeptIfSame(before: Db, after: Db)
    requires after.runs == before.runs && after.steps == before.steps && after.agents == before.agents
    ensures Kept(before, after)
  {}

  lemma NewRunIsWelcome(w: World, run: nat, task: nat, force: bool, spent: bool)
    ensures NewRunsAreWelcome(w.db, CreateRun(w, run, task, force, spent).db)
  {
    hide IsTerminal;
  }

  lemma FinishRunAddsNoRun(w: World, run: nat, task: nat, status: RunStatus, target: TaskStatus, path: Option<seq<TaskStatus>>)
    ensures FinishRun(w, run, task, status, target, path).db.runs.Keys == w.db.runs.Keys
  {
    hide PathAnswer;
  }

  lemma CancelTaskAddsNoRun(w: World, task: nat, demanded: Option<nat>)
    ensures CancelTask(w, task, demanded).db.runs.Keys == w.db.runs.Keys
  {
    hide CanMove;
  }

  lemma StepWelcomesRuns(w: World, action: Action)
    ensures NewRunsAreWelcome(w.db, Step(w, action).db)
  {
    hide FinishRun, CancelTask, CreateTask, StartWalk, StepWalk, MoveTask, CreateRun, PollReads, PollWrites, RecordUsage,
         IsTerminal, ParentCancelled, ProperParents;
    if LeavesRunsAndAgents(action) {
      OnlyTasksMove(w, action);
    } else if action.ACreateRun? {
      NewRunIsWelcome(w, action.run, action.task, action.force, action.spent);
    } else {
      match action
      case AFinishRun(run, task, status, target, path) => FinishRunAddsNoRun(w, run, task, status, target, path);
      case ACancelTask(task, demanded) => CancelTaskAddsNoRun(w, task, demanded);
      case APollWrites(a) => PollLeavesRuns(w, a);
      case _ =>
    }
  }

  lemma PollLeavesRuns(w: World, a: nat)
    ensures PollWrites(w, a).db.runs == w.db.runs
  {}

  lemma NewAgentIsProper(w: World, a: nat, task: nat, run: Option<nat>, step: Option<nat>, overBudget: bool)
    ensures NewAgentsAreProper(w.db, CreateAgent(w, a, task, run, step, overBudget).db)
  {
    hide ProperParents, ParentCancelled;
  }

  lemma CompletionAddsNoAgent(w: World, a: nat, status: AgentRunStatus, output: Option<nat>)
    ensures CompleteAgent(w, a, status, output).db.agents.Keys == w.db.agents.Keys
  {
    hide ParentCancelled;
  }

  lemma StepMakesProperAgents(w: World, action: Action)
    ensures NewAgentsAreProper(w.db, Step(w, action).db)
  {
    hide ProperParents, ParentCancelled, CreateAgent, CompleteAgent;
    match action
    case ACreateAgent(a, task, run, step, overBudget) => NewAgentIsProper(w, a, task, run, step, overBudget);
    case ACompleteAgent(a, status, output) => CompletionAddsNoAgent(w, a, status, output);
    case _ =>
      hide Step;
      StepOnlyKills(w, action);
  }

  lemma KeptTwice(a: Db, b: Db, c: Db)
    requires Kept(a, b) && Kept(b, c)
    ensures Kept(a, c)
  {}

  // -- finished rows are frozen ------------------------------------------------------------------

  lemma {:induction false} RunKeeps(w: World, actions: seq<Action>)
    ensures Kept(w.db, Run(w, actions).db)
  {
    hide Kept, Step;
    if actions == [] {
      KeptByNothing(w.db);
    } else {
      var init, last := actions[..|actions| - 1], actions[|actions| - 1];
      RunKeeps(w, init);
      StepKeeps(Run(w, init), last);
      KeptTwice(w.db, Run(w, init).db, Step(Run(w, init), last).db);
    }
  }

  /** A run outside the claimable statuses is never claimed, cancelled or reopened by anyone. */
  lemma FinishedRunStaysFinished(w: World, later: seq<Action>, r: nat)
    requires r in w.db.runs && !Claimable(w.db.runs[r].status)
    ensures r in Run(w, later).db.runs && Run(w, later).db.runs[r] == w.db.runs[r]
  {
    RunKeeps(w, later);
  }

  /** Once an agent run has left PENDING and RUNNING its row, output included, never changes. */
  lemma FinishedAgentIsFrozen(w: World, later: seq<Action>, a: nat)
    requires a in w.db.agents && !ActiveAgent(w.db.agents[a].status)
    ensures a in Run(w, later).db.agents && Run(w, later).db.agents[a] == w.db.agents[a]
  {
    RunKeeps(w, later);
  }

  // -- cancellation is final -----------------------------------------------------------------------

  /** A cancelled parent stays cancelled. */
  lemma CancelledParentStays(w: World, later: seq<Action>, task: Option<nat>, run: Option<nat>)
    requires SoundTasks(w) && ParentCancelled(w.db, task, run)
    ensures ParentCancelled(Run(w, later).db, task, run)
  {
    hide SoundTasks, Run;
    var after := Run(w, later);
    if TaskCancelled(w.db, task) {
      RunKeepsSoundTasks(w, later);
      TerminalStaysPut(w.db.tasks[task.value], after.db.tasks[task.value]);
    } else {
      RunKeeps(w, later);
    }
  }

  // -- agent executions -------------------------------------------------------------------------------

  predicate Finishing(w: World, a: nat) {
    a in w.executors && (w.executors[a] == Claimed || w.executors[a] == Recorded)
  }

  /** Output is there only after a claim, and whoever has passed the completion is no longer running. */
  predicate AgentOk(w: World, a: nat) {
    && (a in w.executors ==> a in w.db.agents && w.db.agents[a].status != AgentRunStatus.PENDING)
    && (a in w.db.agents && w.db.agents[a].output.Some? ==> Finishing(w, a))
    && (a in w.executors && w.executors[a] != Working ==> !ActiveAgent(w.db.agents[a].status))
  }

  predicate ClaimOk(w: World, c: Claim) {
    && Finishing(w, c.agent) && c.agent in w.db.agents
    && w.db.agents[c.agent].status == c.status && w.db.agents[c.agent].output == c.output && !ActiveAgent(c.status)
    && c.agent in c.seen.agents && c.seen.agents[c.agent].status == AgentRunStatus.RUNNING
    && !ParentCancelled(c.seen, c.seen.agents[c.agent].task, c.seen.agents[c.agent].run)
    && c.seen.agents[c.agent].task == w.db.agents[c.agent].task && c.seen.agents[c.agent].run == w.db.agents[c.agent].run
  }

  predicate UsageOk(w: World, a: nat) {
    a in w.executors && w.executors[a] == Recorded
  }

  predicate OneClaimEach(claims: seq<Claim>) {
    forall i, j :: 0 <= i < j < |claims| ==> claims[i].agent != claims[j].agent
  }

  predicate HasClaim(claims: seq<Claim>, a: nat) {
    exists i :: 0 <= i < |claims| && claims[i].agent == a
  }

  ghost predicate SoundAgents(w: World) {
    && (forall a: nat {:trigger AgentOk(w, a)} :: AgentOk(w, a))
    && (forall a: nat {:trigger Finishing(w, a)} :: Finishing(w, a) ==> HasClaim(w.completions, a))
    && (forall i {:trigger ClaimOk(w, w.completions[i])} :: 0 <= i < |w.completions| ==> ClaimOk(w, w.completions[i]))
    && (forall i {:trigger UsageOk(w, w.usage[i])} :: 0 <= i < |w.usage| ==> UsageOk(w, w.usage[i]))
    && OneClaimEach(w.completions) && Distinct(w.usage)
  }

  predicate MovesExecutors(action: Action) {
    action.ACreateAgent? || action.ACompleteAgent? || action.ARecordUsage?
  }

  lemma OtherActionsLeaveExecutors(w: World, action: Action)
    requires !MovesExecutors(action)
    ensures var after := Step(w, action);
      && after.executors == w.executors && after.completions == w.completions && after.usage == w.usage
  {
    hide PathAnswer, CanMove, CancellationAllowed, ParentCancelled, Finished, Cancelled, Hop, StatusIs, IsTerminal, CreateAgent, CompleteAgent,
         RecordUsage;
  }

  /** Whoever is not acting keeps all that is claimed about agents. */
  lemma OtherActionsKeepAgentsSound(w: World, action: Action)
    requires SoundAgents(w) && !MovesExecutors(action)
    ensures SoundAgents(Step(w, action))
  {
    hide Step, ParentCancelled;
    var after := Step(w, action);
    OtherActionsLeaveExecutors(w, action);
    StepKeeps(w, action);
    StepOnlyKills(w, action);
    forall a: nat ensures AgentOk(after, a) {
      assert AgentOk(w, a);
      assert Finishing(after, a) == Finishing(w, a);
    }
    forall a: nat | Finishing(after, a) ensures HasClaim(after.completions, a) {
      assert Finishing(w, a);
    }
    forall i | 0 <= i < |after.completions| ensures ClaimOk(after, after.completions[i]) {
      assert ClaimOk(w, w.completions[i]);
      assert AgentOk(w, w.completions[i].agent);
    }
    forall i | 0 <= i < |after.usage| ensures UsageOk(after, after.usage[i]) {
      assert UsageOk(w, w.usage[i]);
    }
  }

  /** One agent run is new and running, or new and finished without an executor; the rest is as it was. */
  ghost predicate AgentAdded(w: World, after: World, a: nat) {
    && a !in w.db.agents && a !in w.executors && a in after.db.agents && after.db.agents[a].output == None
    && after.completions == w.completions && after.usage == w.usage
    && (forall b: nat {:trigger AgentOk(after, b)} {:trigger b in after.db.agents} {:trigger b in after.executors} :: b != a ==>
          && (b in after.db.agents <==> b in w.db.agents) && (b in w.db.agents ==> after.db.agents[b] == w.db.agents[b])
          && (b in after.executors <==> b in w.executors) && (b in w.executors ==> after.executors[b] == w.executors[b]))
    && (a in after.executors ==> after.executors[a] == Working && after.db.agents[a].status == AgentRunStatus.RUNNING)
  }

  lemma CreationAdds(w: World, a: nat, task: nat, run: Option<nat>, step: Option<nat>, overBudget: bool)
    ensures var after := CreateAgent(w, a, task, run, step, overBudget); after == w || AgentAdded(w, after, a)
  {
    hide ParentCancelled, ProperParents, AgentOk;
  }

  lemma AdditionKeepsAgentsSound(w: World, after: World, a: nat)
    requires SoundAgents(w) && AgentAdded(w, after, a)
    ensures SoundAgents(after)
  {
    hide ParentCancelled;
    forall b: nat ensures AgentOk(after, b) {
      assert AgentOk(w, b);
    }
    forall b: nat | Finishing(after, b) ensures HasClaim(after.completions, b) {
      assert Finishing(w, b);
    }
    forall i | 0 <= i < |after.completions| ensures ClaimOk(after, after.completions[i]) {
      var c := w.completions[i];
      assert ClaimOk(w, c) && c.agent != a && AgentOk(after, c.agent);
    }
    forall i | 0 <= i < |after.usage| ensures UsageOk(after, after.usage[i]) {
      assert UsageOk(w, w.usage[i]);
    }
  }

  lemma CreationKeepsAgentsSound(w: World, a: nat, task: nat, run: Option<nat>, step: Option<nat>, overBudget: bool)
    requires SoundAgents(w)
    ensures SoundAgents(CreateAgent(w, a, task, run, step, overBudget))
  {
    hide SoundAgents, AgentAdded, CreateAgent;
    var after := CreateAgent(w, a, task, run, step, overBudget);
    CreationAdds(w, a, task, run, step, overBudget);
    if after != w {
      AdditionKeepsAgentsSound(w, after, a);
    }
  }

  lemma RecordingKeepsAgentsSound(w: World, a: nat)
    requires SoundAgents(w)
    ensures SoundAgents(RecordUsage(w, a))
  {
    hide ParentCancelled;
    var after := RecordUsage(w, a);
    forall b: nat ensures AgentOk(after, b) {
      assert AgentOk(w, b);
    }
    forall b: nat | Finishing(after, b) ensures HasClaim(after.completions, b) {
      assert Finishing(w, b);
    }
    forall i | 0 <= i < |after.completions| ensures ClaimOk(after, after.completions[i]) {
      assert ClaimOk(w, w.completions[i]);
    }
    forall i | 0 <= i < |after.usage| ensures UsageOk(after, after.usage[i]) {
      if i < |w.usage| {
        assert UsageOk(w, w.usage[i]);
      }
    }
    forall i, j | 0 <= i < j < |after.usage| ensures after.usage[i] != after.usage[j] {
      assert UsageOk(w, w.usage[i]);
    }
  }

  /** The completion of one agent run is over: claimed with this result, or lost. */
  ghost predicate AgentCompleted(w: World, after: World, a: nat, status: AgentRunStatus, output: Option<nat>, claimed: bool) {
    && a in w.executors && w.executors[a] == Working && a in w.db.agents && a in after.db.agents && after.usage == w.usage
    && after.executors == w.executors[a := if claimed then Claimed else Lost]
    && after.completions == (if claimed then w.completions + [Claim(a, w.db, status, output)] else w.completions)
    && (forall b: nat {:trigger AgentOk(after, b)} {:trigger b in after.db.agents} :: b != a ==>
          (b in after.db.agents <==> b in w.db.agents) && (b in w.db.agents ==> after.db.agents[b] == w.db.agents[b]))
    && !ActiveAgent(after.db.agents[a].status)
    && after.db.agents[a].task == w.db.agents[a].task && after.db.agents[a].run == w.db.agents[a].run
    && after.db.agents[a].output == (if claimed then output else w.db.agents[a].output)
    && (claimed ==> w.db.agents[a].status == AgentRunStatus.RUNNING && after.db.agents[a].status == status
                    && !ParentCancelled(w.db, w.db.agents[a].task, w.db.agents[a].run))
  }

  lemma CompletionCompletes(w: World, a: nat, status: AgentRunStatus, output: Option<nat>) returns (claimed: bool)
    requires AgentOk(w, a)
    ensures var after := CompleteAgent(w, a, status, output); after == w || AgentCompleted(w, after, a, status, output, claimed)
  {
    hide ParentCancelled;
    claimed := Completion(w.db, a, status, output).1;
  }

  lemma LosingKeepsAgentsSound(w: World, after: World, a: nat, status: AgentRunStatus, output: Option<nat>)
    requires SoundAgents(w) && AgentCompleted(w, after, a, status, output, false)
    ensures SoundAgents(after)
  {
    hide ParentCancelled;
    forall b: nat ensures AgentOk(after, b) {
      assert AgentOk(w, b);
      assert Finishing(w, b) == Finishing(after, b);
    }
    forall b: nat | Finishing(after, b) ensures HasClaim(after.completions, b) {
      assert Finishing(w, b);
    }
    forall i | 0 <= i < |after.completions| ensures ClaimOk(after, after.completions[i]) {
      var c := w.completions[i];
      assert ClaimOk(w, c) && c.agent != a && AgentOk(after, c.agent);
    }
    forall i | 0 <= i < |after.usage| ensures UsageOk(after, after.usage[i]) {
      assert UsageOk(w, w.usage[i]);
    }
  }

  lemma ClaimingKeepsAgentsSound(w: World, after: World, a: nat, status: AgentRunStatus, output: Option<nat>)
    requires SoundAgents(w) && AgentCompleted(w, after, a, status, output, true)
    ensures SoundAgents(after)
  {
    hide ParentCancelled;
    forall b: nat ensures AgentOk(after, b) {
      assert AgentOk(w, b);
    }
    forall b: nat | Finishing(after, b) ensures HasClaim(after.completions, b) {
      assert b != a ==> Finishing(w, b);
      ClaimsInclude(w.completions, Claim(a, w.db, status, output), b);
    }
    forall i | 0 <= i < |after.completions| ensures ClaimOk(after, after.completions[i]) {
      if i < |w.completions| {
        var c := w.completions[i];
        assert after.completions[i] == c && ClaimOk(w, c) && c.agent != a && AgentOk(after, c.agent);
      } else {
        assert after.completions[i] == Claim(a, w.db, status, output) && Finishing(after, a);
      }
    }
    forall i | 0 <= i < |after.usage| ensures UsageOk(after, after.usage[i]) {
      assert UsageOk(w, w.usage[i]);
    }
    forall i, j | 0 <= i < j < |after.completions| ensures after.completions[i].agent != after.completions[j].agent {
      assert ClaimOk(w, w.completions[i]) && Finishing(w, w.completions[i].agent);
    }
  }

  lemma ClaimsInclude(claims: seq<Claim>, claim: Claim, b: nat)
    requires b == claim.agent || HasClaim(claims, b)
    ensures HasClaim(claims + [claim], b)
  {
    if b == claim.agent {
      assert (claims + [claim])[|claims|].agent == b;
    } else {
      var i :| 0 <= i < |claims| && claims[i].agent == b;
      assert (claims + [claim])[i].agent == b;
    }
  }

  lemma CompletionKeepsAgentsSound(w: World, a: nat, status: AgentRunStatus, output: Option<nat>)
    requires SoundAgents(w)
    ensures SoundAgents(CompleteAgent(w, a, status, output))
  {
    assert AgentOk(w, a);
    hide SoundAgents, AgentCompleted, CompleteAgent, AgentOk;
    var after := CompleteAgent(w, a, status, output);
    var claimed := CompletionCompletes(w, a, status, output);
    if after != w {
      if claimed {
        ClaimingKeepsAgentsSound(w, after, a, status, output);
      } else {
        LosingKeepsAgentsSound(w, after, a, status, output);
      }
    }
  }

  lemma {:induction false} RunKeepsAgentsSound(w: World, actions: seq<Action>)
    requires SoundAgents(w)
    ensures SoundAgents(Run(w, actions))
  {
    hide SoundAgents, CreateAgent, CompleteAgent, RecordUsage;
    if actions != [] {
      var init, last := actions[..|actions| - 1], actions[|actions| - 1];
      RunKeepsAgentsSound(w, init);
      var middle := Run(w, init);
      match last
      case ACreateAgent(a, task, run, step, overBudget) => CreationKeepsAgentsSound(middle, a, task, run, step, overBudget);
      case ACompleteAgent(a, status, output) => CompletionKeepsAgentsSound(middle, a, status, output);
      case ARecordUsage(a) => RecordingKeepsAgentsSound(middle, a);
      case _ => OtherActionsKeepAgentsSound(middle, last);
    }
  }

  lemma ReachedAgentsAreSound(w: World, actions: seq<Action>)
    requires Reached(w, actions)
    ensures SoundAgents(w)
  {
    hide LegalHistories, Run;
    var tasks, runs, steps :| LegalHistories(tasks) && w == Run(Initial(tasks, runs, steps), actions);
    RunKeepsAgentsSound(Initial(tasks, runs, steps), actions);
  }

  /**
   An agent run has output only because its own completion transaction put it there, and that
   transaction saw it RUNNING under a task and a workflow that were not cancelled. No agent run
   is completed twice, and the row still shows exactly what the claim wrote.
   */
  lemma OutputIsEarned(w: World, actions: seq<Action>, a: nat)
    requires Reached(w, actions) && a in w.db.agents && w.db.agents[a].output.Some?
    ensures OneClaimEach(w.completions)
    ensures exists c :: c in w.completions && c.agent == a && ClaimOk(w, c)
  {
    hide Reached, ParentCancelled;
    ReachedAgentsAreSound(w, actions);
    assert AgentOk(w, a);
    assert HasClaim(w.completions, a);
    var i :| 0 <= i < |w.completions| && w.completions[i].agent == a;
    assert ClaimOk(w, w.completions[i]) && w.completions[i] in w.completions;
  }

  /** Usage is recorded at most once per agent run, and only for one whose completion was claimed. */
  lemma UsageIsRecordedOnce(w: World, actions: seq<Action>)
    requires Reached(w, actions)
    ensures Distinct(w.usage)
    ensures forall i :: 0 <= i < |w.usage| ==> HasClaim(w.completions, w.usage[i])
  {
    hide Reached, ParentCancelled;
    ReachedAgentsAreSound(w, actions);
    forall i | 0 <= i < |w.usage| ensures HasClaim(w.completions, w.usage[i]) {
      assert UsageOk(w, w.usage[i]);
      assert Finishing(w, w.usage[i]);
    }
  }

  // -- after a cancellation --------------------------------------------------------------------------------

  lemma CompletionClaimsNothingCancelled(w: World, b: nat, status: AgentRunStatus, output: Option<nat>, a: nat)
    requires a in w.db.agents && ParentCancelled(w.db, w.db.agents[a].task, w.db.agents[a].run)
    requires !HasClaim(w.completions, a)
    ensures var after := CompleteAgent(w, b, status, output);
      !HasClaim(after.completions, a) && a in after.db.agents && after.db.agents[a].output == w.db.agents[a].output
  {
    hide ParentCancelled;
  }

  lemma OtherActionsClaimNothing(w: World, action: Action, a: nat)
    requires a in w.db.agents && !action.ACompleteAgent?
    ensures var after := Step(w, action);
      after.completions == w.completions && a in after.db.agents && after.db.agents[a].output == w.db.agents[a].output
  {
    hide Step;
    StepKeeps(w, action);
    if !MovesExecutors(action) {
      OtherActionsLeaveExecutors(w, action);
      StepOnlyKills(w, action);
    } else {
      CreationAndRecordingClaimNothing(w, action, a);
    }
  }

  lemma CreationAndRecordingClaimNothing(w: World, action: Action, a: nat)
    requires a in w.db.agents && (action.ACreateAgent? || action.ARecordUsage?)
    ensures var after := Step(w, action);
      after.completions == w.completions && a in after.db.agents && after.db.agents[a] == w.db.agents[a]
  {
    hide ParentCancelled, ProperParents;
  }

  /**
   A provider that returns after its task or workflow was cancelled is too late for ever: its
   agent run never gains a claim, and whatever output it shows never changes again.
   */
  lemma {:induction false} LateResultsAreLost(w: World, before: seq<Action>, later: seq<Action>, a: nat)
    requires Reached(w, before) && a in w.db.agents
    requires ParentCancelled(w.db, w.db.agents[a].task, w.db.agents[a].run) && !HasClaim(w.completions, a)
    ensures !HasClaim(Run(w, later).completions, a)
    ensures a in Run(w, later).db.agents && Run(w, later).db.agents[a].output == w.db.agents[a].output
  {
    hide Reached, ParentCancelled, Step, HasClaim;
    if later != [] {
      var init, last := later[..|later| - 1], later[|later| - 1];
      LateResultsAreLost(w, before, init, a);
      var middle := Run(w, init);
      ReachedIsSound(w, before);
      CancelledParentStays(w, init, w.db.agents[a].task, w.db.agents[a].run);
      RunKeeps(w, init);
      assert AgentKept(w.db.agents[a], middle.db.agents[a]);
      StepLosesLateResults(middle, last, a);
    }
  }

  lemma StepLosesLateResults(w: World, action: Action, a: nat)
    requires a in w.db.agents && ParentCancelled(w.db, w.db.agents[a].task, w.db.agents[a].run)
    requires !HasClaim(w.completions, a)
    ensures var after := Step(w, action);
      !HasClaim(after.completions, a) && a in after.db.agents && after.db.agents[a].output == w.db.agents[a].output
  {
    hide ParentCancelled, HasClaim;
    if action.ACompleteAgent? {
      CompletionClaimsNothingCancelled(w, action.agent, action.agentStatus, action.output, a);
    } else {
      OtherActionsClaimNothing(w, action, a);
    }
  }
}
