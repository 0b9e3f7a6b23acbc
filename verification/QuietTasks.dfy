/** What a cancelled or finished task can still expect: no new runs, no living agents, no second ending. */
module QuietTasks {
  import opened Graphs
  import opened StateMachines
  import opened Statuses
  import opened TaskMachine
  import opened TaskStore
  import opened TaskProtocol
  import opened TaskHistory
  import opened AgentLife
  import opened Wrappers

  /** Every agent run names its task, and a run and step of that task if any. */
  ghost predicate ProperAgents(db: Db) {
    forall a {:trigger a in db.agents} :: a in db.agents ==>
      && db.agents[a].task.Some?
      && ProperParents(db, db.agents[a].task.value, db.agents[a].run, db.agents[a].step)
  }

  lemma ParentsStayProper(before: Db, after: Db, task: nat, run: Option<nat>, step: Option<nat>)
    requires ProperParents(before, task, run, step) && TasksGrew(before.tasks, after.tasks) && Kept(before, after)
    ensures ProperParents(after, task, run, step)
  {
    hide LegalFrom;
    assert Grew(before.tasks[task], after.tasks[task]);
  }

  lemma StepKeepsAgentsProper(w: World, action: Action)
    requires PathsAreLegal(w) && ProperAgents(w.db)
    ensures ProperAgents(Step(w, action).db)
  {
    hide Step, ProperParents, TasksGrew, PathsAreLegal, ParentCancelled;
    var after := Step(w, action).db;
    TasksGrowInAStep(w, action);
    StepKeeps(w, action);
    StepMakesProperAgents(w, action);
    forall a | a in after.agents
      ensures after.agents[a].task.Some? && ProperParents(after, after.agents[a].task.value, after.agents[a].run, after.agents[a].step)
    {
      ParentsStayProper(w.db, after, after.agents[a].task.value, after.agents[a].run, after.agents[a].step);
    }
  }

  // -- a finished task without active runs ----------------------------------------------------

  ghost predicate Settled(db: Db, t: nat) {
    t in db.tasks && IsTerminal(db.tasks[t].status) && ActiveRuns(db.runs, t, db.tasks[t].project) == {}
  }

  lemma GrowthKeepsSettled(before: Db, after: Db, t: nat)
    requires Settled(before, t) && TasksGrew(before.tasks, after.tasks) && Kept(before, after) && NewRunsAreWelcome(before, after)
    ensures Settled(after, t) && after.tasks[t] == before.tasks[t]
  {
    hide Grew, IsTerminal;
    TerminalStaysPut(before.tasks[t], after.tasks[t]);
    forall r ensures r !in ActiveRuns(after.runs, t, after.tasks[t].project) {
      assert r !in ActiveRuns(before.runs, t, before.tasks[t].project);
    }
  }

  lemma StepKeepsSettled(w: World, action: Action, t: nat)
    requires PathsAreLegal(w) && Settled(w.db, t)
    ensures Settled(Step(w, action).db, t) && Step(w, action).db.tasks[t] == w.db.tasks[t]
  {
    hide *;
    TasksGrowInAStep(w, action);
    StepKeeps(w, action);
    StepWelcomesRuns(w, action);
    GrowthKeepsSettled(w.db, Step(w, action).db, t);
  }

  /** No workflow run of a completed or cancelled task becomes active again, whoever asks. */
  lemma {:induction false} SettledTaskStaysSettled(w: World, later: seq<Action>, t: nat)
    requires SoundTasks(w) && Settled(w.db, t)
    ensures Settled(Run(w, later).db, t)
  {
    hide Step, Settled, PathsAreLegal, LegalHistories;
    if later != [] {
      SettledTaskStaysSettled(w, later[..|later| - 1], t);
      RunKeepsSoundTasks(w, later[..|later| - 1]);
      StepKeepsSettled(Run(w, later[..|later| - 1]), later[|later| - 1], t);
    }
  }

  /** A terminal decision that commits with a terminal target settles its task. */
  lemma FinishingSettles(w: World, run: nat, task: nat, status: RunStatus, target: TaskStatus, path: Option<seq<TaskStatus>>)
    requires task in w.db.tasks && MayClaimRun(w.db, run, task) && path.Some? && PathAnswer(w.db.tasks[task].status, target, path)
    requires IsTerminal(target) && !Claimable(status)
    ensures Settled(FinishRun(w, run, task, status, target, path).db, task)
  {
    hide IsTerminal, LegalChain;
    AnswerIsLegal(w.db.tasks[task].status, target, path.value);
  }

  // -- a cancelled task ---------------------------------------------------------------------------

  /** Cancelled, with no active run and no living agent run. */
  ghost predicate Quiet(db: Db, t: nat) {
    && Settled(db, t) && db.tasks[t].status == TaskStatus.CANCELLED
    && forall a {:trigger a in db.agents} :: a in db.agents && db.agents[a].task == Some(t) ==> !ActiveAgent(db.agents[a].status)
  }

  lemma StepKeepsQuiet(w: World, action: Action, t: nat)
    requires PathsAreLegal(w) && Quiet(w.db, t)
    ensures Quiet(Step(w, action).db, t)
  {
    hide Step, PathsAreLegal, Settled, ProperParents;
    var after := Step(w, action).db;
    assert t in w.db.tasks by { TaskOfSettled(w.db, t); }
    StepKeepsSettled(w, action, t);
    StepKeeps(w, action);
    StepMakesProperAgents(w, action);
    TaskOfSettled(after, t);
    forall a | a in after.agents && after.agents[a].task == Some(t) ensures !ActiveAgent(after.agents[a].status) {
      if a in w.db.agents {
        assert AgentKept(w.db.agents[a], after.agents[a]);
      } else {
        assert TaskCancelled(w.db, Some(t));
      }
    }
  }

  lemma TaskOfSettled(db: Db, t: nat)
    requires Settled(db, t)
    ensures t in db.tasks
  {}

  /** The API's cancellation leaves the task quiet. */
  lemma CancellationQuiets(w: World, t: nat, demanded: Option<nat>)
    requires ProperAgents(w.db) && CancellationAllowed(w.db, t, demanded)
    ensures Quiet(CancelTask(w, t, demanded).db, t)
  {
    hide CanMove, LegalFrom;
    var after := CancelTask(w, t, demanded).db;
    var project := w.db.tasks[t].project;
    var runs := ActiveRuns(w.db.runs, t, project);
    assert IsTerminal(TaskStatus.CANCELLED);
    assert ActiveRuns(after.runs, t, project) == {};
    forall a | a in after.agents && after.agents[a].task == Some(t) ensures !ActiveAgent(after.agents[a].status) {
      assert Attached(w.db.steps, w.db.agents[a], t, runs);
      assert ProperParents(w.db, t, w.db.agents[a].run, w.db.agents[a].step);
      assert OwnedBy(w.db, w.db.agents[a], project);
      assert a in OwnedAgents(w.db, t, runs, project);
    }
  }

  lemma {:induction false} RunKeepsAgentsProper(w: World, actions: seq<Action>)
    requires SoundTasks(w) && ProperAgents(w.db)
    ensures ProperAgents(Run(w, actions).db)
  {
    hide Step, ProperAgents, PathsAreLegal, LegalHistories;
    if actions != [] {
      RunKeepsAgentsProper(w, actions[..|actions| - 1]);
      RunKeepsSoundTasks(w, actions[..|actions| - 1]);
      StepKeepsAgentsProper(Run(w, actions[..|actions| - 1]), actions[|actions| - 1]);
    }
  }

  lemma {:induction false} RunKeepsQuiet(w: World, later: seq<Action>, t: nat)
    requires SoundTasks(w) && Quiet(w.db, t)
    ensures Quiet(Run(w, later).db, t)
  {
    hide Step, Quiet, PathsAreLegal, LegalHistories;
    if later != [] {
      RunKeepsQuiet(w, later[..|later| - 1], t);
      RunKeepsSoundTasks(w, later[..|later| - 1]);
      StepKeepsQuiet(Run(w, later[..|later| - 1]), later[|later| - 1], t);
    }
  }

  lemma ReachedAgentsAreProper(w: World, actions: seq<Action>)
    requires Reached(w, actions)
    ensures ProperAgents(w.db)
  {
    hide LegalHistories, Run, ProperParents;
    var tasks, runs, steps :| LegalHistories(tasks) && w == Run(Initial(tasks, runs, steps), actions);
    RunKeepsAgentsProper(Initial(tasks, runs, steps), actions);
  }

  /**
   After the API has cancelled a task, no interleaving ever again shows an active workflow run
   or a pending or running agent run of it: late creations are recorded dead.
   */
  lemma CancelledTaskStaysQuiet(w: World, before: seq<Action>, t: nat, demanded: Option<nat>, later: seq<Action>)
    requires Reached(w, before) && CancellationAllowed(w.db, t, demanded)
    ensures Quiet(Run(CancelTask(w, t, demanded), later).db, t)
  {
    hide Reached, CancellationAllowed, Quiet, SoundTasks, ProperAgents, CancelTask, Run;
    ReachedIsSound(w, before);
    ReachedAgentsAreProper(w, before);
    CancellationQuiets(w, t, demanded);
    CancellationKeepsTasksSound(w, t, demanded);
    RunKeepsQuiet(CancelTask(w, t, demanded), later, t);
  }

  lemma CancellationKeepsTasksSound(w: World, t: nat, demanded: Option<nat>)
    requires SoundTasks(w)
    ensures SoundTasks(CancelTask(w, t, demanded))
  {
    hide SoundTasks, CancelTask;
    var actions := [ACancelTask(t, demanded)];
    RunKeepsSoundTasks(w, actions);
    assert actions[..0] == [];
    assert Run(w, actions) == Step(Run(w, []), actions[0]);
  }

  // -- endings ------------------------------------------------------------------------------------------

  ghost predicate EndedOnce(w: World) {
    && Distinct(w.ended)
    && forall r {:trigger r in w.ended} :: r in w.ended ==> r in w.db.runs && !Claimable(w.db.runs[r].status)
  }

  lemma OnlyFinishingEnds(w: World, action: Action)
    requires !action.AFinishRun?
    ensures Step(w, action).ended == w.ended
  {
    hide PathAnswer, CanMove, CancellationAllowed, ParentCancelled, Cancelled, Hop, StatusIs, ProperParents;
  }

  lemma FinishingEndsOnce(w: World, run: nat, task: nat, status: RunStatus, target: TaskStatus, path: Option<seq<TaskStatus>>)
    requires EndedOnce(w)
    ensures EndedOnce(FinishRun(w, run, task, status, target, path))
  {
    hide PathAnswer;
    var after := FinishRun(w, run, task, status, target, path);
    FinishRunKeeps(w, run, task, status, target, path);
    forall r | r in after.ended ensures r in after.db.runs && !Claimable(after.db.runs[r].status) {
      if r in w.ended {
        assert RunKept(w.db.runs[r], after.db.runs[r]);
      }
    }
    forall i, j | 0 <= i < j < |after.ended| ensures after.ended[i] != after.ended[j] {
      if j == |w.ended| {
        assert w.ended[i] in w.ended;
      }
    }
  }

  lemma StepKeepsEndings(w: World, action: Action)
    requires EndedOnce(w)
    ensures EndedOnce(Step(w, action))
  {
    if action.AFinishRun? {
      hide EndedOnce, FinishRun;
      FinishingEndsOnce(w, action.run, action.task, action.runStatus, action.target, action.path);
    } else {
      hide Step;
      OnlyFinishingEnds(w, action);
      StepKeeps(w, action);
    }
  }

  /** Of all terminal decisions racing for a run, at most one ever ends it. */
  lemma {:induction false} EachRunEndsOnce(tasks: map<nat, Task>, runs: map<nat, WorkflowRun>, steps: map<nat, StepRow>, actions: seq<Action>)
    ensures EndedOnce(Run(Initial(tasks, runs, steps), actions))
  {
    hide Step;
    if actions != [] {
      EachRunEndsOnce(tasks, runs, steps, actions[..|actions| - 1]);
      StepKeepsEndings(Run(Initial(tasks, runs, steps), actions[..|actions| - 1]), actions[|actions| - 1]);
    }
  }
}
