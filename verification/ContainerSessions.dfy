/**
 The container runtime of agent runs. Every stretch of code between two awaits is one step,
 and calls of the same run interleave freely. A run id names one session for good.
 */
module ContainerSessions {
  import opened Wrappers

  datatype Lifecycle = Running | ShuttingDown | Closed

  /** `removal` is the memoised removal promise; `cleared` says the secrets were overwritten. */
  datatype Session = Session(aborted: bool, removed: bool, cleared: bool, executing: bool, removal: Option<nat>)

  datatype Settlement = InFlight | Gone | Failed

  /** One `rm --force` of a run's container. */
  datatype Attempt = Attempt(run: nat, settlement: Settlement)

  /** What a pending preparation awaits. */
  datatype Stage =
    | ReadingInputs
    | RunningGit
    | CreatingContainer
    | StartingContainer
    | PausingContainer
    | Undoing(attempt: nat)
    | Sweeping

  /** What a call of run, cancel, release or one entry of shutdown awaits, or how it ended. */
  datatype Progress =
    | CommandRunning
    | CommandUndoing(attempt: nat)
    | CancelWaiting
    | CancelRemoving(attempt: nat)
    | ReleaseWaiting
    | ReleaseRemoving(attempt: nat)
    | ReleaseSweeping
    | ShutdownRemoving(attempt: nat)
    | ShutdownSweeping
    | Returned
    | Threw

  datatype Call = Call(run: nat, progress: Progress)

  datatype Shutdown = NotAsked | AwaitingPreparations | Removing(todo: set<nat>, entries: set<nat>)

  /**
   `sessions` and the keys of `preparations` are the two maps of the runtime; `table` keeps
   every session ever opened, and `containers` are those the Docker daemon really holds.
   */
  datatype Runtime = Runtime(
    state: Lifecycle,
    sessions: set<nat>,
    preparations: map<nat, Stage>,
    table: map<nat, Session>,
    attempts: seq<Attempt>,
    calls: map<nat, Call>,
    containers: set<nat>,
    shutdown: Shutdown,
    known: set<nat>)

  function Fresh(): Runtime {
    Runtime(Running, {}, map[], map[], [], map[], {}, NotAsked, {})
  }

  // -- single updates ---------------------------------------------------------------------

  function Abort(rt: Runtime, r: nat): Runtime
    requires r in rt.table
  {
    rt.(table := rt.table[r := rt.table[r].(aborted := true)])
  }

  function ClearSecrets(rt: Runtime, r: nat): Runtime
    requires r in rt.table
  {
    rt.(table := rt.table[r := rt.table[r].(cleared := true)])
  }

  function SetExecuting(rt: Runtime, r: nat, executing: bool): Runtime
    requires r in rt.table
  {
    rt.(table := rt.table[r := rt.table[r].(executing := executing)])
  }

  /** A waiter that sees its removal fail forgets the promise, so the next caller tries again. */
  function ForgetRemoval(rt: Runtime, r: nat): Runtime
    requires r in rt.table
  {
    rt.(table := rt.table[r := rt.table[r].(removal := None)])
  }

  function Leave(rt: Runtime, r: nat): Runtime {
    rt.(sessions := rt.sessions - {r})
  }

  function SetStage(rt: Runtime, r: nat, stage: Stage): Runtime {
    rt.(preparations := rt.preparations[r := stage])
  }

  function Settle(rt: Runtime, r: nat): Runtime {
    rt.(preparations := rt.preparations - {r})
  }

  function SetCall(rt: Runtime, c: nat, r: nat, progress: Progress): Runtime {
    rt.(calls := rt.calls[c := Call(r, progress)])
  }

  /** The synchronous part of forceRemove: the attempt to wait for, unless the container is gone. */
  function ForceRemove(rt: Runtime, r: nat): (Runtime, Option<nat>)
    requires r in rt.table
  {
    var s := rt.table[r];
    if s.removed then (rt, None)
    else if s.removal.Some? then (rt, s.removal)
    else
      var k := |rt.attempts|;
      (rt.(attempts := rt.attempts + [Attempt(r, InFlight)], table := rt.table[r := s.(removal := Some(k))]), Some(k))
  }

  // -- prepare ----------------------------------------------------------------------------------

  function StartPreparation(rt: Runtime, r: nat): Runtime {
    if rt.state != Running || r in rt.preparations || r in rt.sessions || r in rt.known then rt
    else SetStage(rt.(known := rt.known + {r}), r, ReadingInputs)
  }

  /** The catch block: abort, clear, remove; leave the map only once the container is gone. */
  function FailPreparation(rt: Runtime, r: nat): Runtime
    requires r in rt.table
  {
    var (removing, wait) := ForceRemove(SetStage(ClearSecrets(Abort(rt, r), r), r, Sweeping), r);
    if wait.None? then Leave(removing, r) else SetStage(removing, r, Undoing(wait.value))
  }

  function OpenSession(rt: Runtime, r: nat): Runtime {
    var listed := SetStage(rt.(sessions := rt.sessions + {r}, table := rt.table[r := Session(false, false, false, false, None)]), r, RunningGit);
    if rt.state == Running then listed else FailPreparation(listed, r)
  }

  predicate Interrupted(rt: Runtime, r: nat)
    requires r in rt.table
  {
    rt.table[r].aborted || rt.state != Running
  }

  /** The awaited Docker or git operation of an opened session ended. */
  function Proceed(rt: Runtime, r: nat, stage: Stage, ok: bool, made: bool): Runtime
    requires r in rt.table
  {
    match stage
    case RunningGit => if !ok || Interrupted(rt, r) then FailPreparation(rt, r) else SetStage(rt, r, CreatingContainer)
    case CreatingContainer =>
      var created := if ok || made then rt.(containers := rt.containers + {r}) else rt;
      if ok then SetStage(created, r, StartingContainer) else FailPreparation(created, r)
    case StartingContainer => if !ok || Interrupted(rt, r) then FailPreparation(rt, r) else SetStage(rt, r, PausingContainer)
    case PausingContainer => if ok then Settle(rt, r) else FailPreparation(rt, r)
    case Undoing(k) =>
      if k >= |rt.attempts| || rt.attempts[k].settlement == InFlight then rt
      else if rt.attempts[k].settlement == Gone then SetStage(Leave(rt, r), r, Sweeping)
      else Settle(ForgetRemoval(rt, r), r)
    case ReadingInputs => rt
    case Sweeping => rt
  }

  /**
   What a pending preparation awaits has ended. `made` says that Docker created the container
   although the command may have reported a failure.
   */
  function ContinuePreparation(rt: Runtime, r: nat, ok: bool, made: bool): Runtime {
    if r !in rt.preparations then rt
    else if rt.preparations[r] == ReadingInputs then (if ok then OpenSession(rt, r) else Settle(rt, r))
    else if rt.preparations[r] == Sweeping then Settle(rt, r)
    else if r in rt.table then Proceed(rt, r, rt.preparations[r], ok, made)
    else rt
  }

  /** Docker answered a removal: the container is gone, or the attempt failed. */
  function SettleRemoval(rt: Runtime, k: nat, gone: bool): Runtime {
    if k >= |rt.attempts| || rt.attempts[k].settlement != InFlight then rt
    else
      var r := rt.attempts[k].run;
      var settled := rt.(attempts := rt.attempts[k := Attempt(r, if gone then Gone else Failed)]);
      if gone && r in rt.table
      then settled.(table := rt.table[r := rt.table[r].(removed := true)], containers := rt.containers - {r})
      else settled
  }

  // -- run ---------------------------------------------------------------------------------------------

  predicate MayExecute(rt: Runtime, r: nat) {
    && rt.state == Running && r in rt.sessions && r in rt.table
    && !rt.table[r].aborted && !rt.table[r].removed && !rt.table[r].executing
  }

  function StartCommand(rt: Runtime, c: nat, r: nat, allowed: bool): Runtime {
    if c in rt.calls then rt
    else if MayExecute(rt, r) && allowed then SetExecuting(SetCall(rt, c, r, CommandRunning), r, true)
    else SetCall(rt, c, r, Threw)
  }

  function FinishCommand(rt: Runtime, c: nat, ok: bool): Runtime {
    if c !in rt.calls || rt.calls[c].progress != CommandRunning || rt.calls[c].run !in rt.table then rt
    else
      var r := rt.calls[c].run;
      if ok then SetExecuting(SetCall(rt, c, r, Returned), r, false)
      else
        var (removing, wait) := ForceRemove(Abort(rt, r), r);
        if wait.None? then SetExecuting(SetCall(removing, c, r, Threw), r, false)
        else SetCall(removing, c, r, CommandUndoing(wait.value))
  }

  // -- cancel, release, shutdown ---------------------------------------------------------------------------

  function CancelNow(rt: Runtime, c: nat, r: nat): Runtime {
    if r !in rt.sessions || r !in rt.table then SetCall(rt, c, r, Returned)
    else
      var (removing, wait) := ForceRemove(Abort(rt, r), r);
      SetCall(removing, c, r, if wait.None? then Returned else CancelRemoving(wait.value))
  }

  function StartCancel(rt: Runtime, c: nat, r: nat): Runtime {
    if c in rt.calls then rt
    else if r in rt.preparations then
      SetCall(if r in rt.sessions && r in rt.table then Abort(rt, r) else rt, c, r, CancelWaiting)
    else CancelNow(rt, c, r)
  }

  function ReleaseNow(rt: Runtime, c: nat, r: nat): Runtime {
    if r !in rt.sessions || r !in rt.table then SetCall(rt, c, r, Returned)
    else
      var (removing, wait) := ForceRemove(ClearSecrets(Abort(rt, r), r), r);
      if wait.None? then SetCall(Leave(removing, r), c, r, ReleaseSweeping)
      else SetCall(removing, c, r, ReleaseRemoving(wait.value))
  }

  function StartRelease(rt: Runtime, c: nat, r: nat): Runtime {
    if c in rt.calls then rt
    else if r in rt.preparations then SetCall(rt, c, r, ReleaseWaiting)
    else ReleaseNow(rt, c, r)
  }

  function AbortAll(table: map<nat, Session>, chosen: set<nat>): map<nat, Session> {
    map r | r in table :: if r in chosen then table[r].(aborted := true) else table[r]
  }

  function StartShutdown(rt: Runtime): Runtime {
    if rt.state != Running then rt
    else rt.(state := ShuttingDown, shutdown := AwaitingPreparations, table := AbortAll(rt.table, rt.sessions))
  }

  /** All pending preparations have settled: the sessions still in the map are to be removed. */
  function CollectSessions(rt: Runtime): Runtime {
    if rt.shutdown != AwaitingPreparations || rt.preparations != map[] then rt
    else rt.(shutdown := Removing(rt.sessions, {}))
  }

  function ShutdownEntry(rt: Runtime, c: nat, r: nat): Runtime {
    if !rt.shutdown.Removing? || r !in rt.shutdown.todo || c in rt.calls || r !in rt.table then rt
    else
      var (removing, wait) := ForceRemove(ClearSecrets(Abort(rt, r), r), r);
      var entered := removing.(shutdown := Removing(rt.shutdown.todo - {r}, rt.shutdown.entries + {c}));
      if wait.None? then SetCall(Leave(entered, r), c, r, ShutdownSweeping)
      else SetCall(entered, c, r, ShutdownRemoving(wait.value))
  }

  /** Every entry has returned: the runtime is closed. */
  function CloseRuntime(rt: Runtime): Runtime {
    if rt.shutdown.Removing? && rt.shutdown.todo == {} && rt.state == ShuttingDown
       && forall c :: c in rt.shutdown.entries ==> c in rt.calls && rt.calls[c].progress == Returned
    then rt.(state := Closed)
    else rt
  }

  /** A call whose removal attempt has settled goes on. */
  function AfterRemoval(rt: Runtime, c: nat, gone: bool): Runtime
    requires c in rt.calls && rt.calls[c].run in rt.table
  {
    var r := rt.calls[c].run;
    match rt.calls[c].progress
    case CommandUndoing(_) =>
      SetExecuting(SetCall(if gone then rt else ForgetRemoval(rt, r), c, r, Threw), r, false)
    case CancelRemoving(_) => if gone then SetCall(rt, c, r, Returned) else SetCall(ForgetRemoval(rt, r), c, r, Threw)
    case ReleaseRemoving(_) =>
      if gone then SetCall(Leave(rt, r), c, r, ReleaseSweeping) else SetCall(ForgetRemoval(rt, r), c, r, Threw)
    case ShutdownRemoving(_) =>
      if gone then SetCall(Leave(rt, r), c, r, ShutdownSweeping) else SetCall(ForgetRemoval(rt, r), c, r, Threw)
    case _ => rt
  }

  function AwaitedAttempt(progress: Progress): Option<nat> {
    match progress
    case CommandUndoing(k) => Some(k)
    case CancelRemoving(k) => Some(k)
    case ReleaseRemoving(k) => Some(k)
    case ShutdownRemoving(k) => Some(k)
    case _ => None
  }

  /** A waiting call wakes up, if what it waits for has happened; `swept` is the outcome of the last clean-up. */
  function ResumeCall(rt: Runtime, c: nat, swept: bool): Runtime {
    if c !in rt.calls then rt
    else
      var r := rt.calls[c].run;
      match rt.calls[c].progress
      case CancelWaiting => if r in rt.preparations then rt else CancelNow(rt, c, r)
      case ReleaseWaiting => if r in rt.preparations then rt else ReleaseNow(rt, c, r)
      case ReleaseSweeping => SetCall(rt, c, r, if swept then Returned else Threw)
      case ShutdownSweeping => SetCall(rt, c, r, if swept then Returned else Threw)
      case progress =>
        var k := AwaitedAttempt(progress);
        if k.None? || k.value >= |rt.attempts| || rt.attempts[k.value].settlement == InFlight || r !in rt.table then rt
        else AfterRemoval(rt, c, rt.attempts[k.value].settlement == Gone)
  }

  // -- runs of the runtime --------------------------------------------------------------------------------

  datatype Action =
    | Prepare(run: nat)
    | Continue(run: nat, ok: bool, made: bool)
    | Removal(attempt: nat, gone: bool)
    | Command(call: nat, run: nat, allowed: bool)
    | CommandEnds(call: nat, ok: bool)
    | Cancel(call: nat, run: nat)
    | Release(call: nat, run: nat)
    | Resume(call: nat, swept: bool)
    | AskShutdown
    | Collect
    | Entry(call: nat, run: nat)
    | Close

  function Step(rt: Runtime, action: Action): Runtime {
    match action
    case Prepare(r) => StartPreparation(rt, r)
    case Continue(r, ok, made) => ContinuePreparation(rt, r, ok, made)
    case Removal(k, gone) => SettleRemoval(rt, k, gone)
    case Command(c, r, allowed) => StartCommand(rt, c, r, allowed)
    case CommandEnds(c, ok) => FinishCommand(rt, c, ok)
    case Cancel(c, r) => StartCancel(rt, c, r)
    case Release(c, r) => StartRelease(rt, c, r)
    case Resume(c, swept) => ResumeCall(rt, c, swept)
    case AskShutdown => StartShutdown(rt)
    case Collect => CollectSessions(rt)
    case Entry(c, r) => ShutdownEntry(rt, c, r)
    case Close => CloseRuntime(rt)
  }

  function Run(rt: Runtime, actions: seq<Action>): Runtime {
    if actions == [] then rt else Step(Run(rt, actions[..|actions| - 1]), actions[|actions| - 1])
  }

  /** The preparation has not got past creating the container. */
  predicate NotYetCreated(rt: Runtime, r: nat) {
    && r in rt.preparations
    && (rt.preparations[r] == ReadingInputs || rt.preparations[r] == RunningGit || rt.preparations[r] == CreatingContainer)
  }

  /** No command is sent to a run whose container is not created yet. */
  predicate Patient(rt: Runtime, action: Action) {
    action.Command? ==> !NotYetCreated(rt, action.run)
  }

  predicate AllPatient(rt: Runtime, actions: seq<Action>) {
    actions == [] || (AllPatient(rt, actions[..|actions| - 1]) && Patient(Run(rt, actions[..|actions| - 1]), actions[|actions| - 1]))
  }
}
