/**
 The runtime object. Each method is the code its namesake runs between two awaits; every one
 keeps the object valid, and any sequence of them is a run of the session protocol.
 */
module ContainerRuntime {
  import S = ContainerSessions
  import opened ContainerSafety
  import opened Wrappers

  // -- the updates a method makes on its way ---------------------------------------------------

  lemma AbortKeepsSafe(rt: S.Runtime, r: nat)
    requires Safe(rt) && r in rt.table
    ensures Safe(S.Abort(rt, r))
  {
    AbortIsSound(rt, r);
    hide Sound;
    forall c, q | Outstanding(rt, c, q) ensures Outstanding(S.Abort(rt, r), c, q) {}
    DebtsStay(rt, S.Abort(rt, r));
  }

  lemma ClearKeepsSafe(rt: S.Runtime, r: nat)
    requires Safe(rt) && r in rt.table && rt.table[r].aborted
    ensures Safe(S.ClearSecrets(rt, r))
  {
    ClearIsSound(rt, r);
    hide Sound;
    forall c, q | Outstanding(rt, c, q) ensures Outstanding(S.ClearSecrets(rt, r), c, q) {}
    DebtsStay(rt, S.ClearSecrets(rt, r));
  }

  lemma StageKeepsSafe(rt: S.Runtime, r: nat, stage: S.Stage)
    requires Safe(rt) && r in rt.table && r in rt.preparations && stage != S.ReadingInputs
    requires stage.Undoing? ==> Awaits(rt, r, stage.attempt) && rt.table[r].cleared
    ensures Safe(S.SetStage(rt, r, stage))
  {
    StageIsSound(rt, r, stage);
    hide Sound;
    forall c, q | Outstanding(rt, c, q) ensures Outstanding(S.SetStage(rt, r, stage), c, q) {}
    DebtsStay(rt, S.SetStage(rt, r, stage));
  }

  lemma RemovalKeepsSafe(rt: S.Runtime, r: nat)
    requires Safe(rt) && r in rt.table && rt.table[r].aborted
    ensures Safe(S.ForceRemove(rt, r).0)
  {
    RemovalIsSound(rt, r);
    hide Sound;
    var after := S.ForceRemove(rt, r).0;
    forall c, q | Outstanding(rt, c, q) ensures Outstanding(after, c, q) {}
    DebtsStay(rt, after);
  }

  lemma LeavingKeepsSafe(rt: S.Runtime, r: nat)
    requires Safe(rt) && r in rt.table && rt.table[r].removed && rt.table[r].cleared
    ensures Safe(S.Leave(rt, r))
  {
    LeavingIsSound(rt, r);
    hide Sound;
    forall c, q | Outstanding(rt, c, q) ensures Outstanding(S.Leave(rt, r), c, q) {}
    DebtsStay(rt, S.Leave(rt, r));
  }

  lemma ListingKeepsSafe(rt: S.Runtime, r: nat)
    requires Safe(rt) && r in rt.preparations && rt.preparations[r] == S.ReadingInputs
    ensures Safe(S.SetStage(rt.(sessions := rt.sessions + {r}, table := rt.table[r := S.Session(false, false, false, false, None)]), r, S.RunningGit))
  {
    SessionIsListed(rt, r);
    hide Sound;
    var listed := S.SetStage(rt.(sessions := rt.sessions + {r}, table := rt.table[r := S.Session(false, false, false, false, None)]), r, S.RunningGit);
    forall c, q | Outstanding(rt, c, q) ensures Outstanding(listed, c, q) {}
    DebtsStay(rt, listed);
  }

  lemma CreationKeepsSafe(rt: S.Runtime, r: nat)
    requires Safe(rt)
    ensures Safe(rt.(containers := rt.containers + {r}))
  {
    ContainerIsCreated(rt, r);
    hide Sound;
    var after := rt.(containers := rt.containers + {r});
    forall c, q | Outstanding(rt, c, q) ensures Outstanding(after, c, q) {}
    DebtsStay(rt, after);
  }

  lemma CancelNowKeepsSafe(rt: S.Runtime, c: nat, r: nat)
    requires Safe(rt) && (c in rt.calls ==> rt.calls[c].progress == S.CancelWaiting)
    ensures Safe(S.CancelNow(rt, c, r))
  {
    hide Sound, CallStep, ShutdownOk;
    CancelsNow(rt, c, r);
    CancelNowIsCallStep(rt, c, r);
    CallStepKeepsShutdown(rt, S.CancelNow(rt, c, r), c);
  }

  lemma ReleaseNowKeepsSafe(rt: S.Runtime, c: nat, r: nat)
    requires Safe(rt) && (c in rt.calls ==> rt.calls[c].progress == S.ReleaseWaiting)
    ensures Safe(S.ReleaseNow(rt, c, r))
  {
    hide Sound, CallStep, ShutdownOk;
    ReleasesNow(rt, c, r);
    ReleaseNowIsCallStep(rt, c, r);
    CallStepKeepsShutdown(rt, S.ReleaseNow(rt, c, r), c);
  }

  /** In a valid runtime whatever is pending or open has been accepted before. */
  lemma PendingAndOpenAreKnown(rt: S.Runtime, r: nat)
    requires Safe(rt)
    ensures r in rt.preparations || r in rt.sessions || r in rt.table ==> r in rt.known
    ensures r in rt.sessions ==> r in rt.table
  {
    assert PreparationOk(rt, r) && SessionOk(rt, r) && ListedOnce(rt);
  }

  lemma AbortNone(table: map<nat, S.Session>, all: set<nat>)
    ensures S.AbortAll(table, all - all) == table
  {}

  lemma AbortOneMore(table: map<nat, S.Session>, all: set<nat>, todo: set<nat>, r: nat)
    requires r in todo && todo <= all && r in table
    ensures r in S.AbortAll(table, all - todo)
    ensures S.AbortAll(table, all - (todo - {r})) ==
      S.AbortAll(table, all - todo)[r := S.AbortAll(table, all - todo)[r].(aborted := true)]
  {}

  lemma AllAborted(table: map<nat, S.Session>, all: set<nat>)
    ensures forall r :: r in all && r in table ==> r in S.AbortAll(table, all) && S.AbortAll(table, all)[r].aborted
  {}

  lemma ExecutesAlone(rt: S.Runtime, c: nat, r: nat)
    requires Safe(rt) && Holds(rt, c, r)
    ensures forall d :: Holds(rt, d, r) ==> d == c
  {}

  class Runtime {
    var state: S.Lifecycle
    var sessions: set<nat>
    var preparations: map<nat, S.Stage>
    var table: map<nat, S.Session>
    var attempts: seq<S.Attempt>
    var calls: map<nat, S.Call>
    var containers: set<nat>
    var progress: S.Shutdown
    var known: set<nat>

    function Contents(): S.Runtime
      reads this
    {
      S.Runtime(state, sessions, preparations, table, attempts, calls, containers, progress, known)
    }

    /** What holds of the object between any two of its methods. */
    ghost predicate Valid()
      reads this
    {
      Safe(Contents())
    }

    constructor ()
      ensures Valid() && Contents() == S.Fresh()
    {
      state, sessions, preparations, table, attempts := S.Running, {}, map[], map[], [];
      calls, containers, progress, known := map[], {}, S.NotAsked, {};
      new;
      FreshIsSafe();
    }

    /**
     The synchronous part of forceRemove. The caller is told to wait for a removal of its own
     container, the one in flight if there is one, or learns that the container is gone already.
     */
    method ForceRemove(r: nat) returns (wait: Option<nat>)
      requires Valid() && r in table && table[r].aborted
      modifies this`attempts, this`table
      ensures Valid() && (Contents(), wait) == old(S.ForceRemove(Contents(), r))
      ensures wait.None? <==> table[r].removed
      ensures wait.Some? ==> Awaits(Contents(), r, wait.value) && table[r].removal == wait
      ensures old(table[r].removal.Some?) ==> attempts == old(attempts)
      ensures old(attempts) <= attempts && |attempts| <= |old(attempts)| + 1
    {
      RemovalKeepsSafe(Contents(), r);
      assert SessionOk(Contents(), r);
      if table[r].removed {
        return None;
      }
      if table[r].removal.None? {
        table := table[r := table[r].(removal := Some(|attempts|))];
        attempts := attempts + [S.Attempt(r, S.InFlight)];
      }
      return table[r].removal;
    }

    /** Accepted exactly when the runtime runs and the id was never accepted before; then it is pending. */
    method Prepare(r: nat) returns (accepted: bool)
      requires Valid()
      modifies this`known, this`preparations
      ensures Valid() && Contents() == old(S.StartPreparation(Contents(), r))
      ensures accepted <==> old(state) == S.Running && r !in old(known)
      ensures accepted ==> r in preparations && r in known && r !in sessions
      ensures !accepted ==> Contents() == old(Contents())
    {
      PendingAndOpenAreKnown(Contents(), r);
      StepIsSafe(Contents(), S.Prepare(r));
      accepted := state == S.Running && r !in preparations && r !in sessions && r !in known;
      if accepted {
        known := known + {r};
        preparations := preparations[r := S.ReadingInputs];
      }
    }

    /**
     The catch block of a preparation, up to the wait for the removal: aborted and without secrets,
     and out of the map only if the container is known to be gone.
     */
    method FailPreparation(r: nat)
      requires Valid() && r in table && r in preparations
      modifies this`sessions, this`preparations, this`table, this`attempts
      ensures Valid() && Contents() == old(S.FailPreparation(Contents(), r))
      ensures r in table && table[r].aborted && table[r].cleared && r in preparations
      ensures r !in sessions ==> table[r].removed
      ensures !table[r].removed ==> preparations[r].Undoing? && Awaits(Contents(), r, preparations[r].attempt)
    {
      AbortKeepsSafe(Contents(), r);
      table := table[r := table[r].(aborted := true)];
      ClearKeepsSafe(Contents(), r);
      table := table[r := table[r].(cleared := true)];
      StageKeepsSafe(Contents(), r, S.Sweeping);
      preparations := preparations[r := S.Sweeping];
      var wait := ForceRemove(r);
      if wait.None? {
        LeavingKeepsSafe(Contents(), r);
        sessions := sessions - {r};
      } else {
        StageKeepsSafe(Contents(), r, S.Undoing(wait.value));
        preparations := preparations[r := S.Undoing(wait.value)];
      }
      assert SessionOk(Contents(), r);
    }

    /** What the preparation awaited has ended; the rest of its code up to the next await. */
    method Continue(r: nat, ok: bool, made: bool)
      requires Valid()
      modifies this`sessions, this`preparations, this`table, this`attempts, this`containers
      ensures Valid() && Contents() == old(S.ContinuePreparation(Contents(), r, ok, made))
    {
      ghost var before := Contents();
      StepIsSafe(before, S.Continue(r, ok, made));
      if r !in preparations {
        return;
      }
      if preparations[r] == S.ReadingInputs {
        if !ok {
          preparations := preparations - {r};
        } else {
          ListingKeepsSafe(Contents(), r);
          sessions := sessions + {r};
          table := table[r := S.Session(false, false, false, false, None)];
          preparations := preparations[r := S.RunningGit];
          if state != S.Running {
            FailPreparation(r);
          }
        }
      } else if preparations[r] == S.Sweeping {
        preparations := preparations - {r};
      } else if r in table {
        match preparations[r]
        case RunningGit =>
          if !ok || S.Interrupted(Contents(), r) {
            FailPreparation(r);
          } else {
            preparations := preparations[r := S.CreatingContainer];
          }
        case CreatingContainer =>
          if ok || made {
            CreationKeepsSafe(Contents(), r);
            containers := containers + {r};
          }
          if ok {
            preparations := preparations[r := S.StartingContainer];
          } else {
            FailPreparation(r);
          }
        case StartingContainer =>
          if !ok || S.Interrupted(Contents(), r) {
            FailPreparation(r);
          } else {
            preparations := preparations[r := S.PausingContainer];
          }
        case PausingContainer =>
          if ok {
            preparations := preparations - {r};
          } else {
            FailPreparation(r);
          }
        case Undoing(k) =>
          if k < |attempts| && attempts[k].settlement != S.InFlight {
            if attempts[k].settlement == S.Gone {
              sessions := sessions - {r};
              preparations := preparations[r := S.Sweeping];
            } else {
              table := table[r := table[r].(removal := None)];
              preparations := preparations - {r};
            }
          }
        case ReadingInputs =>
        case Sweeping =>
      }
    }

    /** Docker's answer to a removal, seen by everybody who waits for it. */
    method SettleRemoval(k: nat, gone: bool)
      requires Valid()
      modifies this`attempts, this`table, this`containers
      ensures Valid() && Contents() == old(S.SettleRemoval(Contents(), k, gone))
      ensures k < |attempts| ==> attempts[k].settlement != S.InFlight
      ensures k < |old(attempts)| && old(attempts)[k].settlement == S.InFlight && gone ==>
        attempts[k].run in table && table[attempts[k].run].removed && attempts[k].run !in containers
    {
      StepIsSafe(Contents(), S.Removal(k, gone));
      assert AttemptOk(Contents(), k);
      if k >= |attempts| || attempts[k].settlement != S.InFlight {
        return;
      }
      var r := attempts[k].run;
      attempts := attempts[k := S.Attempt(r, if gone then S.Gone else S.Failed)];
      if gone && r in table {
        table := table[r := table[r].(removed := true)];
        containers := containers - {r};
      }
    }

    /** A started command has the session for itself, its secrets still there; a refused one changes no session. */
    method StartCommand(c: nat, r: nat, allowed: bool) returns (started: bool)
      requires Valid()
      modifies this`calls, this`table
      ensures Valid() && Contents() == old(S.StartCommand(Contents(), c, r, allowed))
      ensures started <==>
        && allowed && c !in old(calls) && old(state) == S.Running && r in old(sessions) && r in old(table)
        && !old(table)[r].aborted && !old(table)[r].removed && !old(table)[r].executing
      ensures started ==> Holds(Contents(), c, r) && forall d :: Holds(Contents(), d, r) ==> d == c
      ensures started ==> r in sessions && !table[r].aborted && !table[r].cleared && !table[r].removed
      ensures !started ==> table == old(table) && forall d :: Holds(Contents(), d, r) ==> old(Holds(Contents(), d, r))
    {
      ghost var before := Contents();
      StepIsSafe(before, S.Command(c, r, allowed));
      assert SessionOk(before, r);
      if c in calls {
        return false;
      }
      started := S.MayExecute(Contents(), r) && allowed;
      calls := calls[c := S.Call(r, if started then S.CommandRunning else S.Threw)];
      if started {
        table := table[r := table[r].(executing := true)];
        ExecutesAlone(Contents(), c, r);
      } else {
        forall d | Holds(Contents(), d, r) ensures Holds(before, d, r) {}
      }
    }

    method FinishCommand(c: nat, ok: bool)
      requires Valid()
      modifies this`calls, this`table, this`attempts
      ensures Valid() && Contents() == old(S.FinishCommand(Contents(), c, ok))
    {
      StepIsSafe(Contents(), S.CommandEnds(c, ok));
      if c !in calls || calls[c].progress != S.CommandRunning || calls[c].run !in table {
        return;
      }
      var r := calls[c].run;
      if !ok {
        AbortKeepsSafe(Contents(), r);
        table := table[r := table[r].(aborted := true)];
        var wait := ForceRemove(r);
        if wait.Some? {
          calls := calls[c := S.Call(r, S.CommandUndoing(wait.value))];
          return;
        }
      }
      calls := calls[c := S.Call(r, if ok then S.Returned else S.Threw)];
      table := table[r := table[r].(executing := false)];
    }

    /** The part of cancel after its wait for a preparation. */
    method CancelNow(c: nat, r: nat)
      requires Valid() && r !in preparations && (c in calls ==> calls[c] == S.Call(r, S.CancelWaiting))
      modifies this`calls, this`table, this`attempts
      ensures Valid() && Contents() == old(S.CancelNow(Contents(), c, r))
      ensures r in sessions ==> r in table && table[r].aborted
      ensures r in sessions && !table[r].removed ==>
        S.AwaitedAttempt(calls[c].progress).Some? && Awaits(Contents(), r, S.AwaitedAttempt(calls[c].progress).value)
    {
      CancelNowKeepsSafe(Contents(), c, r);
      PendingAndOpenAreKnown(Contents(), r);
      if r !in sessions || r !in table {
        calls := calls[c := S.Call(r, S.Returned)];
      } else {
        AbortKeepsSafe(Contents(), r);
        table := table[r := table[r].(aborted := true)];
        var wait := ForceRemove(r);
        calls := calls[c := S.Call(r, if wait.None? then S.Returned else S.CancelRemoving(wait.value))];
      }
    }

    /** A cancel that finds the session aborts it at once, waiting for a pending preparation or not. */
    method Cancel(c: nat, r: nat)
      requires Valid() && c !in calls
      modifies this`calls, this`table, this`attempts
      ensures Valid() && Contents() == old(S.StartCancel(Contents(), c, r))
      ensures r in sessions ==> r in table && table[r].aborted
    {
      StepIsSafe(Contents(), S.Cancel(c, r));
      PendingAndOpenAreKnown(Contents(), r);
      if r in preparations {
        if r in sessions && r in table {
          table := table[r := table[r].(aborted := true)];
        }
        calls := calls[c := S.Call(r, S.CancelWaiting)];
      } else {
        CancelNow(c, r);
      }
    }

    /** The part of release after its wait for a preparation. */
    method ReleaseNow(c: nat, r: nat)
      requires Valid() && r !in preparations && (c in calls ==> calls[c] == S.Call(r, S.ReleaseWaiting))
      modifies this`sessions, this`calls, this`table, this`attempts
      ensures Valid() && Contents() == old(S.ReleaseNow(Contents(), c, r))
      ensures r in old(sessions) ==> r in table && table[r].aborted && table[r].cleared
      ensures r in old(sessions) && r !in sessions ==> table[r].removed
      ensures r in sessions ==>
        S.AwaitedAttempt(calls[c].progress).Some? && Awaits(Contents(), r, S.AwaitedAttempt(calls[c].progress).value)
    {
      ReleaseNowKeepsSafe(Contents(), c, r);
      PendingAndOpenAreKnown(Contents(), r);
      if r !in sessions || r !in table {
        calls := calls[c := S.Call(r, S.Returned)];
      } else {
        AbortKeepsSafe(Contents(), r);
        table := table[r := table[r].(aborted := true)];
        ClearKeepsSafe(Contents(), r);
        table := table[r := table[r].(cleared := true)];
        var wait := ForceRemove(r);
        if wait.None? {
          sessions := sessions - {r};
          calls := calls[c := S.Call(r, S.ReleaseSweeping)];
        } else {
          calls := calls[c := S.Call(r, S.ReleaseRemoving(wait.value))];
        }
      }
    }

    method Release(c: nat, r: nat)
      requires Valid() && c !in calls
      modifies this`sessions, this`calls, this`table, this`attempts
      ensures Valid() && Contents() == old(S.StartRelease(Contents(), c, r))
    {
      StepIsSafe(Contents(), S.Release(c, r));
      if r in preparations {
        calls := calls[c := S.Call(r, S.ReleaseWaiting)];
      } else {
        ReleaseNow(c, r);
      }
    }

    /** The code after the wait for a removal: leave the map, forget the failed promise, end the call. */
    method AfterRemoval(c: nat, gone: bool)
      requires Valid() && c in calls && calls[c].run in table
      modifies this`sessions, this`calls, this`table
      ensures Contents() == old(S.AfterRemoval(Contents(), c, gone))
    {
      var r, progress := calls[c].run, calls[c].progress;
      if !progress.CommandUndoing? && !progress.CancelRemoving? && !progress.ReleaseRemoving? && !progress.ShutdownRemoving? {
        return;
      }
      if !gone {
        table := table[r := table[r].(removal := None)];
      }
      if progress.CommandUndoing? {
        table := table[r := table[r].(executing := false)];
        calls := calls[c := S.Call(r, S.Threw)];
      } else if !gone {
        calls := calls[c := S.Call(r, S.Threw)];
      } else if progress.CancelRemoving? {
        calls := calls[c := S.Call(r, S.Returned)];
      } else {
        sessions := sessions - {r};
        calls := calls[c := S.Call(r, if progress.ReleaseRemoving? then S.ReleaseSweeping else S.ShutdownSweeping)];
      }
    }

    /** A waiting call goes on, if what it waits for has happened; a session it takes out of the map is removed and cleared. */
    method Resume(c: nat, swept: bool)
      requires Valid()
      modifies this`sessions, this`calls, this`table, this`attempts
      ensures Valid() && Contents() == old(S.ResumeCall(Contents(), c, swept))
      ensures forall r :: r in old(sessions) && r !in sessions ==> r in table && table[r].removed && table[r].cleared
    {
      hide S.AfterRemoval, S.CancelNow, S.ReleaseNow, Sound, ShutdownOk;
      StepIsSafe(Contents(), S.Resume(c, swept));
      ResumeKeepsTable(Contents(), c, swept);
      LeftCleanly(Contents(), S.ResumeCall(Contents(), c, swept));
      if c !in calls {
        return;
      }
      var r, progress := calls[c].run, calls[c].progress;
      if progress == S.CancelWaiting {
        if r !in preparations {
          CancelNow(c, r);
        }
      } else if progress == S.ReleaseWaiting {
        if r !in preparations {
          ReleaseNow(c, r);
        }
      } else if progress == S.ReleaseSweeping || progress == S.ShutdownSweeping {
        calls := calls[c := S.Call(r, if swept then S.Returned else S.Threw)];
      } else {
        var k := S.AwaitedAttempt(progress);
        if k.Some? && k.value < |attempts| && attempts[k.value].settlement != S.InFlight && r in table {
          AfterRemoval(c, attempts[k.value].settlement == S.Gone);
        }
      }
    }

    /** The first call stops new preparations and aborts every open session; later calls share its promise. */
    method Shutdown()
      requires Valid()
      modifies this`state, this`progress, this`table
      ensures Valid() && Contents() == old(S.StartShutdown(Contents()))
      ensures state != S.Running
      ensures old(state) == S.Running ==> forall r :: r in sessions ==> r in table && table[r].aborted
    {
      StepIsSafe(Contents(), S.AskShutdown);
      assert ListedOnce(Contents()) && (state == S.Running <==> progress == S.NotAsked);
      hide Sound, ShutdownOk;
      if state != S.Running {
        return;
      }
      state, progress := S.ShuttingDown, S.AwaitingPreparations;
      var todo := sessions;
      AbortNone(table, sessions);
      hide S.AbortAll;
      while todo != {}
        invariant todo <= sessions && state == S.ShuttingDown && progress == S.AwaitingPreparations
        invariant table == S.AbortAll(old(table), sessions - todo)
        decreases |todo|
      {
        var r :| r in todo;
        AbortOneMore(old(table), sessions, todo, r);
        table := table[r := table[r].(aborted := true)];
        todo := todo - {r};
      }
      assert sessions - todo == sessions;
      AllAborted(old(table), sessions);
    }

    /** All preparations have settled: the sessions still open are noted for removal. */
    method Collect()
      requires Valid()
      modifies this`progress
      ensures Valid() && Contents() == old(S.CollectSessions(Contents()))
    {
      StepIsSafe(Contents(), S.Collect);
      if progress == S.AwaitingPreparations && preparations == map[] {
        progress := S.Removing(sessions, {});
      }
    }

    /** One entry of the final removal, up to its wait. */
    method Entry(c: nat, r: nat)
      requires Valid()
      modifies this`sessions, this`calls, this`table, this`attempts, this`progress
      ensures Valid() && Contents() == old(S.ShutdownEntry(Contents(), c, r))
    {
      hide Sound, ShutdownOk;
      StepIsSafe(Contents(), S.Entry(c, r));
      if !progress.Removing? || r !in progress.todo || c in calls || r !in table {
        return;
      }
      AbortKeepsSafe(Contents(), r);
      table := table[r := table[r].(aborted := true)];
      ClearKeepsSafe(Contents(), r);
      table := table[r := table[r].(cleared := true)];
      var wait := ForceRemove(r);
      progress := S.Removing(progress.todo - {r}, progress.entries + {c});
      if wait.None? {
        sessions := sessions - {r};
        calls := calls[c := S.Call(r, S.ShutdownSweeping)];
      } else {
        calls := calls[c := S.Call(r, S.ShutdownRemoving(wait.value))];
      }
    }

    /** The last step of shutdown: a closed runtime has nothing open and nothing pending. */
    method Close()
      requires Valid()
      modifies this`state
      ensures Valid() && Contents() == old(S.CloseRuntime(Contents()))
      ensures state == S.Closed ==> sessions == {} && preparations == map[]
    {
      StepIsSafe(Contents(), S.Close);
      if progress.Removing? && progress.todo == {} && state == S.ShuttingDown
         && forall c :: c in progress.entries ==> c in calls && calls[c].progress == S.Returned {
        state := S.Closed;
      }
    }

    method Perform(action: S.Action)
      requires Valid()
      modifies this
      ensures Valid() && Contents() == old(S.Step(Contents(), action))
    {
      match action
      case Prepare(r) => var _ := Prepare(r);
      case Continue(r, ok, made) => Continue(r, ok, made);
      case Removal(k, gone) => SettleRemoval(k, gone);
      case Command(c, r, allowed) => var _ := StartCommand(c, r, allowed);
      case CommandEnds(c, ok) => FinishCommand(c, ok);
      case Cancel(c, r) =>
        if c !in calls {
          Cancel(c, r);
        }
      case Release(c, r) =>
        if c !in calls {
          Release(c, r);
        }
      case Resume(c, swept) => Resume(c, swept);
      case AskShutdown => Shutdown();
      case Collect => Collect();
      case Entry(c, r) => Entry(c, r);
      case Close => Close();
    }
  }

  lemma ResumeKeepsTable(rt: S.Runtime, c: nat, swept: bool)
    ensures S.ResumeCall(rt, c, swept).table.Keys == rt.table.Keys
  {
    ResumeIsCallStep(rt, c, swept);
  }

  lemma LeftCleanly(rt: S.Runtime, after: S.Runtime)
    requires Safe(rt) && Safe(after) && rt.table.Keys <= after.table.Keys
    ensures forall r :: r in rt.sessions && r !in after.sessions ==> r in after.table && after.table[r].removed && after.table[r].cleared
  {
    forall r | r in rt.sessions && r !in after.sessions ensures r in after.table && after.table[r].removed && after.table[r].cleared {
      PendingAndOpenAreKnown(rt, r);
      assert SessionOk(after, r);
    }
  }

  lemma RunNone()
    ensures S.Run(S.Fresh(), []) == S.Fresh()
  {}

  /** Any schedule of the object's methods is a run of the protocol, so what holds of the runs holds of the object. */
  method Replay(actions: seq<S.Action>) returns (rt: Runtime)
    ensures fresh(rt) && rt.Valid() && rt.Contents() == S.Run(S.Fresh(), actions)
  {
    hide S.Run, S.Step, S.Fresh, Safe;
    rt := new Runtime();
    assert actions[..0] == [];
    RunNone();
    for i := 0 to |actions|
      invariant fresh(rt) && rt.Valid() && rt.Contents() == S.Run(S.Fresh(), actions[..i])
    {
      assert actions[..i + 1] == actions[..i] + [actions[i]];
      RunOne(S.Fresh(), actions[..i], actions[i]);
      rt.Perform(actions[i]);
    }
    assert actions[..|actions|] == actions;
  }
}
