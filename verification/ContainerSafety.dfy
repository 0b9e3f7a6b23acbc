/** What every interleaving of prepare, run, cancel, release and shutdown keeps. */
module ContainerSafety {
  import opened ContainerSessions
  import opened Wrappers

  predicate Awaits(rt: Runtime, r: nat, k: nat) {
    k < |rt.attempts| && rt.attempts[k].run == r && r in rt.table
  }

  predicate SessionOk(rt: Runtime, r: nat) {
    r in rt.table ==>
      && r in rt.known
      && (rt.table[r].cleared || rt.table[r].removed || rt.table[r].removal.Some? ==> rt.table[r].aborted)
      && (rt.table[r].removal.Some? ==> Awaits(rt, r, rt.table[r].removal.value))
      && (r !in rt.sessions ==> rt.table[r].removed && rt.table[r].cleared)
  }

  predicate PreparationOk(rt: Runtime, r: nat) {
    r in rt.preparations ==>
      && r in rt.known
      && (rt.preparations[r] == ReadingInputs <==> r !in rt.table)
      && (rt.preparations[r].Undoing? ==> Awaits(rt, r, rt.preparations[r].attempt) && rt.table[r].cleared)
  }

  predicate AttemptOk(rt: Runtime, k: nat) {
    k < |rt.attempts| ==>
      && rt.attempts[k].run in rt.table
      && rt.table[rt.attempts[k].run].aborted
      && (rt.attempts[k].settlement == Gone ==> rt.table[rt.attempts[k].run].removed)
  }

  /** The call has a command on the session. */
  predicate Holds(rt: Runtime, c: nat, r: nat) {
    c in rt.calls && rt.calls[c].run == r && (rt.calls[c].progress == CommandRunning || rt.calls[c].progress.CommandUndoing?)
  }

  predicate CallOk(rt: Runtime, c: nat) {
    c in rt.calls ==>
      && (AwaitedAttempt(rt.calls[c].progress).Some? ==> Awaits(rt, rt.calls[c].run, AwaitedAttempt(rt.calls[c].progress).value))
      && (rt.calls[c].progress.ReleaseRemoving? || rt.calls[c].progress.ShutdownRemoving? ==> rt.table[rt.calls[c].run].cleared)
      && (Holds(rt, c, rt.calls[c].run) ==> rt.calls[c].run in rt.table && rt.table[rt.calls[c].run].executing)
  }

  ghost predicate OneCommandEach(rt: Runtime) {
    forall c, d, r {:trigger Holds(rt, c, r), Holds(rt, d, r)} :: Holds(rt, c, r) && Holds(rt, d, r) ==> c == d
  }

  predicate ListedOnce(rt: Runtime) {
    forall r :: r in rt.sessions ==> r in rt.table
  }

  /** An entry of shutdown that has not taken the session out of the map. */
  predicate Outstanding(rt: Runtime, c: nat, r: nat) {
    c in rt.calls && rt.calls[c].run == r && (rt.calls[c].progress.ShutdownRemoving? || rt.calls[c].progress == Threw)
  }

  ghost predicate Owed(rt: Runtime, r: nat) {
    rt.shutdown.Removing? && (r in rt.shutdown.todo || exists c :: c in rt.shutdown.entries && Outstanding(rt, c, r))
  }

  ghost predicate ShutdownOk(rt: Runtime) {
    && (rt.state == Running <==> rt.shutdown == NotAsked)
    && (rt.state == Closed ==> rt.shutdown.Removing?)
    && (rt.shutdown.Removing? ==>
          && rt.preparations == map[]
          && (forall r {:trigger Owed(rt, r)} :: r in rt.sessions ==> Owed(rt, r)))
    && (rt.state == Closed ==> rt.sessions == {})
  }

  ghost predicate Sound(rt: Runtime) {
    && (forall r: nat {:trigger SessionOk(rt, r)} :: SessionOk(rt, r))
    && (forall r: nat {:trigger PreparationOk(rt, r)} :: PreparationOk(rt, r))
    && (forall k: nat {:trigger AttemptOk(rt, k)} :: AttemptOk(rt, k))
    && (forall c: nat {:trigger CallOk(rt, c)} :: CallOk(rt, c))
    && OneCommandEach(rt) && ListedOnce(rt)
  }

  // -- the single updates ---------------------------------------------------------------------

  lemma AbortIsSound(rt: Runtime, r: nat)
    requires Sound(rt) && r in rt.table
    ensures Sound(Abort(rt, r))
  {
    var after := Abort(rt, r);
    forall s: nat ensures SessionOk(after, s) { assert SessionOk(rt, s); }
    forall s: nat ensures PreparationOk(after, s) { assert PreparationOk(rt, s); }
    forall k: nat ensures AttemptOk(after, k) { assert AttemptOk(rt, k); }
    forall d: nat ensures CallOk(after, d) { assert CallOk(rt, d); }
    OnlyCallsHold(rt, after);
  }

  lemma ClearIsSound(rt: Runtime, r: nat)
    requires Sound(rt) && r in rt.table && rt.table[r].aborted
    ensures Sound(ClearSecrets(rt, r))
  {
    var after := ClearSecrets(rt, r);
    forall s: nat ensures SessionOk(after, s) { assert SessionOk(rt, s); }
    forall s: nat ensures PreparationOk(after, s) { assert PreparationOk(rt, s); }
    forall k: nat ensures AttemptOk(after, k) { assert AttemptOk(rt, k); }
    forall d: nat ensures CallOk(after, d) { assert CallOk(rt, d); }
    OnlyCallsHold(rt, after);
  }

  lemma ForgettingIsSound(rt: Runtime, r: nat)
    requires Sound(rt) && r in rt.table
    ensures Sound(ForgetRemoval(rt, r))
  {
    var after := ForgetRemoval(rt, r);
    forall s: nat ensures SessionOk(after, s) { assert SessionOk(rt, s); }
    forall s: nat ensures PreparationOk(after, s) { assert PreparationOk(rt, s); }
    forall k: nat ensures AttemptOk(after, k) { assert AttemptOk(rt, k); }
    forall d: nat ensures CallOk(after, d) { assert CallOk(rt, d); }
    OnlyCallsHold(rt, after);
  }

  lemma LeavingIsSound(rt: Runtime, r: nat)
    requires Sound(rt) && r in rt.table && rt.table[r].removed && rt.table[r].cleared
    ensures Sound(Leave(rt, r))
  {
    var after := Leave(rt, r);
    forall s: nat ensures SessionOk(after, s) { assert SessionOk(rt, s); }
    forall s: nat ensures PreparationOk(after, s) { assert PreparationOk(rt, s); }
    forall k: nat ensures AttemptOk(after, k) { assert AttemptOk(rt, k); }
    forall d: nat ensures CallOk(after, d) { assert CallOk(rt, d); }
    OnlyCallsHold(rt, after);
  }

  /** A removal is entered on an aborted session. */
  lemma RemovalIsSound(rt: Runtime, r: nat)
    requires Sound(rt) && r in rt.table && rt.table[r].aborted
    ensures var (after, wait) := ForceRemove(rt, r);
      && Sound(after)
      && (wait.None? ==> after == rt && rt.table[r].removed)
      && (wait.Some? ==> Awaits(after, r, wait.value))
      && after == rt.(attempts := after.attempts, table := after.table)
      && after.table.Keys == rt.table.Keys && after.table[r] == rt.table[r].(removal := after.table[r].removal)
  {
    var after := ForceRemove(rt, r).0;
    assert SessionOk(rt, r);
    forall s: nat ensures SessionOk(after, s) { assert SessionOk(rt, s); }
    forall s: nat ensures PreparationOk(after, s) { assert PreparationOk(rt, s); }
    forall k: nat ensures AttemptOk(after, k) { assert AttemptOk(rt, k); }
    forall d: nat ensures CallOk(after, d) { assert CallOk(rt, d); }
    OnlyCallsHold(rt, after);
  }

  lemma StageIsSound(rt: Runtime, r: nat, stage: Stage)
    requires Sound(rt) && r in rt.table && r in rt.preparations && stage != ReadingInputs
    requires stage.Undoing? ==> Awaits(rt, r, stage.attempt) && rt.table[r].cleared
    ensures Sound(SetStage(rt, r, stage))
  {
    var after := SetStage(rt, r, stage);
    assert PreparationOk(rt, r);
    forall s: nat ensures SessionOk(after, s) { assert SessionOk(rt, s); }
    forall s: nat ensures PreparationOk(after, s) { assert PreparationOk(rt, s); }
    forall k: nat ensures AttemptOk(after, k) { assert AttemptOk(rt, k); }
    forall d: nat ensures CallOk(after, d) { assert CallOk(rt, d); }
    OnlyCallsHold(rt, after);
  }

  lemma SettlingIsSound(rt: Runtime, r: nat)
    requires Sound(rt)
    ensures Sound(Settle(rt, r))
  {
    var after := Settle(rt, r);
    forall s: nat ensures SessionOk(after, s) { assert SessionOk(rt, s); }
    forall s: nat ensures PreparationOk(after, s) { assert PreparationOk(rt, s); }
    forall k: nat ensures AttemptOk(after, k) { assert AttemptOk(rt, k); }
    forall d: nat ensures CallOk(after, d) { assert CallOk(rt, d); }
    OnlyCallsHold(rt, after);
  }

  /** A call may note any progress that claims no command, if what it waits for is there. */
  lemma CallIsSound(rt: Runtime, c: nat, r: nat, progress: Progress)
    requires Sound(rt)
    requires AwaitedAttempt(progress).Some? ==> Awaits(rt, r, AwaitedAttempt(progress).value)
    requires progress.ReleaseRemoving? || progress.ShutdownRemoving? ==> rt.table[r].cleared
    requires progress == CommandRunning || progress.CommandUndoing? ==> Holds(rt, c, r)
    ensures Sound(SetCall(rt, c, r, progress))
  {
    var after := SetCall(rt, c, r, progress);
    assert CallOk(rt, c);
    forall s: nat ensures SessionOk(after, s) { assert SessionOk(rt, s); }
    forall s: nat ensures PreparationOk(after, s) { assert PreparationOk(rt, s); }
    forall k: nat ensures AttemptOk(after, k) { assert AttemptOk(rt, k); }
    forall d: nat ensures CallOk(after, d) { assert CallOk(rt, d); }
    forall d, e, q | Holds(after, d, q) && Holds(after, e, q) ensures d == e {
      assert Holds(rt, d, q) && Holds(rt, e, q);
    }
  }

  lemma FreeingIsSound(rt: Runtime, r: nat)
    requires Sound(rt) && r in rt.table && forall c :: !Holds(rt, c, r)
    ensures Sound(SetExecuting(rt, r, false))
  {
    var after := SetExecuting(rt, r, false);
    forall s: nat ensures SessionOk(after, s) { assert SessionOk(rt, s); }
    forall s: nat ensures PreparationOk(after, s) { assert PreparationOk(rt, s); }
    forall k: nat ensures AttemptOk(after, k) { assert AttemptOk(rt, k); }
    forall d: nat ensures CallOk(after, d) { assert CallOk(rt, d); assert d in rt.calls ==> !Holds(rt, d, r); }
    OnlyCallsHold(rt, after);
  }

  lemma OnlyCallsHold(rt: Runtime, after: Runtime)
    requires OneCommandEach(rt) && after.calls == rt.calls
    ensures OneCommandEach(after)
  {
    forall d, e, q | Holds(after, d, q) && Holds(after, e, q) ensures d == e {
      assert Holds(rt, d, q) && Holds(rt, e, q);
    }
  }

  // -- steps of a preparation ------------------------------------------------------------------

  lemma PreparationStarts(rt: Runtime, r: nat)
    requires Sound(rt)
    ensures Sound(StartPreparation(rt, r))
  {
    var after := StartPreparation(rt, r);
    forall s: nat ensures SessionOk(after, s) { assert SessionOk(rt, s); }
    forall s: nat ensures PreparationOk(after, s) { assert PreparationOk(rt, s) && SessionOk(rt, s); }
    forall k: nat ensures AttemptOk(after, k) { assert AttemptOk(rt, k); assert SessionOk(rt, r); }
    forall d: nat ensures CallOk(after, d) { assert CallOk(rt, d); }
    OnlyCallsHold(rt, after);
  }

  lemma PreparationFails(rt: Runtime, r: nat)
    requires Sound(rt) && r in rt.table && r in rt.preparations
    ensures Sound(FailPreparation(rt, r))
  {
    hide Sound, Awaits;
    AbortIsSound(rt, r);
    var aborted := Abort(rt, r);
    ClearIsSound(aborted, r);
    var cleared := ClearSecrets(aborted, r);
    StageIsSound(cleared, r, Sweeping);
    var sweeping := SetStage(cleared, r, Sweeping);
    RemovalIsSound(sweeping, r);
    var (removing, wait) := ForceRemove(sweeping, r);
    if wait.None? {
      LeavingIsSound(removing, r);
    } else {
      StageIsSound(removing, r, Undoing(wait.value));
    }
  }

  lemma SessionOpens(rt: Runtime, r: nat)
    requires Sound(rt) && r in rt.preparations && rt.preparations[r] == ReadingInputs
    ensures Sound(OpenSession(rt, r))
  {
    var after := SetStage(rt.(sessions := rt.sessions + {r}, table := rt.table[r := Session(false, false, false, false, None)]), r, RunningGit);
    assert PreparationOk(rt, r);
    forall s: nat ensures SessionOk(after, s) { assert SessionOk(rt, s); }
    forall s: nat ensures PreparationOk(after, s) { assert PreparationOk(rt, s); }
    forall k: nat ensures AttemptOk(after, k) { assert AttemptOk(rt, k); }
    forall d: nat ensures CallOk(after, d) { assert CallOk(rt, d); assert d in rt.calls && rt.calls[d].run == r ==> !Holds(rt, d, r); }
    OnlyCallsHold(rt, after);
    if rt.state != Running {
      PreparationFails(after, r);
    }
  }

  lemma ContainerIsCreated(rt: Runtime, r: nat)
    requires Sound(rt)
    ensures Sound(rt.(containers := rt.containers + {r}))
  {
    var after := rt.(containers := rt.containers + {r});
    forall s: nat ensures SessionOk(after, s) { assert SessionOk(rt, s); }
    forall s: nat ensures PreparationOk(after, s) { assert PreparationOk(rt, s); }
    forall k: nat ensures AttemptOk(after, k) { assert AttemptOk(rt, k); }
    forall d: nat ensures CallOk(after, d) { assert CallOk(rt, d); }
    OnlyCallsHold(rt, after);
  }

  lemma PreparationProceeds(rt: Runtime, r: nat, ok: bool, made: bool)
    requires Sound(rt) && r in rt.preparations && r in rt.table && rt.preparations[r] != Sweeping
    ensures Sound(Proceed(rt, r, rt.preparations[r], ok, made))
  {
    assert PreparationOk(rt, r);
    hide Sound, FailPreparation, Awaits;
    match rt.preparations[r]
    case RunningGit =>
      PreparationFails(rt, r);
      StageIsSound(rt, r, CreatingContainer);
    case CreatingContainer =>
      ContainerIsCreated(rt, r);
      var created := if ok || made then rt.(containers := rt.containers + {r}) else rt;
      PreparationFails(created, r);
      StageIsSound(created, r, StartingContainer);
    case StartingContainer =>
      PreparationFails(rt, r);
      StageIsSound(rt, r, PausingContainer);
    case PausingContainer =>
      PreparationFails(rt, r);
      SettlingIsSound(rt, r);
    case Undoing(k) =>
      AttemptSound(rt, k);
      if k < |rt.attempts| && rt.attempts[k].settlement == Gone {
        assert rt.attempts[k].run == r by { AwaitedRun(rt, r, k); }
        LeavingIsSound(rt, r);
        StageIsSound(Leave(rt, r), r, Sweeping);
      } else {
        ForgettingIsSound(rt, r);
        SettlingIsSound(ForgetRemoval(rt, r), r);
      }
  }

  lemma AwaitedRun(rt: Runtime, r: nat, k: nat)
    requires Awaits(rt, r, k)
    ensures k < |rt.attempts| && rt.attempts[k].run == r
  {}

  lemma AttemptSound(rt: Runtime, k: nat)
    requires Sound(rt)
    ensures AttemptOk(rt, k)
  {}

  lemma PreparationContinues(rt: Runtime, r: nat, ok: bool, made: bool)
    requires Sound(rt)
    ensures Sound(ContinuePreparation(rt, r, ok, made))
  {
    hide Sound, OpenSession, Proceed;
    if r in rt.preparations {
      if rt.preparations[r] == ReadingInputs {
        SessionOpens(rt, r);
        SettlingIsSound(rt, r);
      } else if rt.preparations[r] == Sweeping {
        SettlingIsSound(rt, r);
      } else if r in rt.table {
        PreparationProceeds(rt, r, ok, made);
      }
    }
  }

  lemma RemovalSettles(rt: Runtime, k: nat, gone: bool)
    requires Sound(rt)
    ensures Sound(SettleRemoval(rt, k, gone))
  {
    var after := SettleRemoval(rt, k, gone);
    assert AttemptOk(rt, k);
    forall s: nat ensures SessionOk(after, s) { assert SessionOk(rt, s); }
    forall s: nat ensures PreparationOk(after, s) { assert PreparationOk(rt, s); }
    forall k: nat ensures AttemptOk(after, k) { assert AttemptOk(rt, k); assert AttemptOk(rt, k); }
    forall d: nat ensures CallOk(after, d) { assert CallOk(rt, d); }
    OnlyCallsHold(rt, after);
  }

  // -- steps of calls -------------------------------------------------------------------------------

  lemma CommandStarts(rt: Runtime, c: nat, r: nat, allowed: bool)
    requires Sound(rt)
    ensures Sound(StartCommand(rt, c, r, allowed))
  {
    if c !in rt.calls {
      CallIsSound(rt, c, r, Threw);
      if MayExecute(rt, r) && allowed {
        var after := StartCommand(rt, c, r, allowed);
        NobodyHoldsIdle(rt, r);
        forall s: nat ensures SessionOk(after, s) { assert SessionOk(rt, s); }
        forall s: nat ensures PreparationOk(after, s) { assert PreparationOk(rt, s); }
        forall k: nat ensures AttemptOk(after, k) { assert AttemptOk(rt, k); }
        forall d: nat ensures CallOk(after, d) { assert CallOk(rt, d); }
        forall d, e, q | Holds(after, d, q) && Holds(after, e, q) ensures d == e {
          assert d != c ==> Holds(rt, d, q);
          assert e != c ==> Holds(rt, e, q);
        }
      }
    }
  }

  lemma NobodyHoldsIdle(rt: Runtime, r: nat)
    requires Sound(rt) && r in rt.table && !rt.table[r].executing
    ensures forall c :: !Holds(rt, c, r)
  {
    forall c ensures !Holds(rt, c, r) {
      assert CallOk(rt, c);
    }
  }

  /** The only holder of a session gives it up. */
  lemma CommandIsOver(rt: Runtime, c: nat, r: nat, progress: Progress)
    requires Sound(rt) && Holds(rt, c, r) && (progress == Returned || progress == Threw)
    ensures r in rt.table && Sound(SetExecuting(SetCall(rt, c, r, progress), r, false))
  {
    assert CallOk(rt, c);
    CallIsSound(rt, c, r, progress);
    var over := SetCall(rt, c, r, progress);
    forall d ensures !Holds(over, d, r) {
      assert d != c && Holds(over, d, r) ==> Holds(rt, d, r);
    }
    FreeingIsSound(over, r);
  }

  lemma CommandFinishes(rt: Runtime, c: nat, ok: bool)
    requires Sound(rt)
    ensures Sound(FinishCommand(rt, c, ok))
  {
    hide Sound, Awaits;
    if c in rt.calls && rt.calls[c].progress == CommandRunning && rt.calls[c].run in rt.table {
      var r := rt.calls[c].run;
      CommandIsOver(rt, c, r, Returned);
      AbortIsSound(rt, r);
      RemovalIsSound(Abort(rt, r), r);
      var (removing, wait) := ForceRemove(Abort(rt, r), r);
      assert removing.calls == rt.calls;
      if wait.None? {
        CommandIsOver(removing, c, r, Threw);
      } else {
        CallIsSound(removing, c, r, CommandUndoing(wait.value));
      }
    }
  }

  lemma CancelsNow(rt: Runtime, c: nat, r: nat)
    requires Sound(rt)
    ensures Sound(CancelNow(rt, c, r))
  {
    hide Sound, Awaits;
    CallIsSound(rt, c, r, Returned);
    if r in rt.table {
      AbortIsSound(rt, r);
      RemovalIsSound(Abort(rt, r), r);
      var (removing, wait) := ForceRemove(Abort(rt, r), r);
      CallIsSound(removing, c, r, if wait.None? then Returned else CancelRemoving(wait.value));
    }
  }

  lemma CancelStarts(rt: Runtime, c: nat, r: nat)
    requires Sound(rt)
    ensures Sound(StartCancel(rt, c, r))
  {
    hide Sound, CancelNow;
    if r in rt.preparations {
      CallIsSound(rt, c, r, CancelWaiting);
      if r in rt.table {
        AbortIsSound(rt, r);
        CallIsSound(Abort(rt, r), c, r, CancelWaiting);
      }
    } else {
      CancelsNow(rt, c, r);
    }
  }

  lemma ReleasesNow(rt: Runtime, c: nat, r: nat)
    requires Sound(rt)
    ensures Sound(ReleaseNow(rt, c, r))
  {
    hide Sound, Awaits;
    CallIsSound(rt, c, r, Returned);
    if r in rt.table {
      AbortIsSound(rt, r);
      ClearIsSound(Abort(rt, r), r);
      var cleared := ClearSecrets(Abort(rt, r), r);
      RemovalIsSound(cleared, r);
      var (removing, wait) := ForceRemove(cleared, r);
      if wait.None? {
        LeavingIsSound(removing, r);
        CallIsSound(Leave(removing, r), c, r, ReleaseSweeping);
      } else {
        CallIsSound(removing, c, r, ReleaseRemoving(wait.value));
      }
    }
  }

  lemma ReleaseStarts(rt: Runtime, c: nat, r: nat)
    requires Sound(rt)
    ensures Sound(StartRelease(rt, c, r))
  {
    hide Sound, ReleaseNow;
    if r in rt.preparations {
      CallIsSound(rt, c, r, ReleaseWaiting);
    } else {
      ReleasesNow(rt, c, r);
    }
  }

  lemma ShutdownStarts(rt: Runtime)
    requires Sound(rt)
    ensures Sound(StartShutdown(rt))
  {
    var after := StartShutdown(rt);
    forall s: nat ensures SessionOk(after, s) { assert SessionOk(rt, s); }
    forall s: nat ensures PreparationOk(after, s) { assert PreparationOk(rt, s); }
    forall k: nat ensures AttemptOk(after, k) { assert AttemptOk(rt, k); }
    forall d: nat ensures CallOk(after, d) { assert CallOk(rt, d); }
    OnlyCallsHold(rt, after);
  }

  /** Soundness does not look at the progress of the shutdown. */
  lemma ShutdownProgressIsSound(rt: Runtime, shutdown: Shutdown, state: Lifecycle)
    requires Sound(rt)
    ensures Sound(rt.(shutdown := shutdown, state := state))
  {
    var after := rt.(shutdown := shutdown, state := state);
    forall s: nat ensures SessionOk(after, s) { assert SessionOk(rt, s); }
    forall s: nat ensures PreparationOk(after, s) { assert PreparationOk(rt, s); }
    forall k: nat ensures AttemptOk(after, k) { assert AttemptOk(rt, k); }
    forall d: nat ensures CallOk(after, d) { assert CallOk(rt, d); }
    OnlyCallsHold(rt, after);
  }

  lemma EntryStarts(rt: Runtime, c: nat, r: nat)
    requires Sound(rt)
    ensures Sound(ShutdownEntry(rt, c, r))
  {
    hide Sound, Awaits;
    if rt.shutdown.Removing? && r in rt.shutdown.todo && c !in rt.calls && r in rt.table {
      AbortIsSound(rt, r);
      ClearIsSound(Abort(rt, r), r);
      var cleared := ClearSecrets(Abort(rt, r), r);
      RemovalIsSound(cleared, r);
      var (removing, wait) := ForceRemove(cleared, r);
      var entered := removing.(shutdown := Removing(rt.shutdown.todo - {r}, rt.shutdown.entries + {c}));
      ShutdownProgressIsSound(removing, entered.shutdown, removing.state);
      if wait.None? {
        LeavingIsSound(entered, r);
        CallIsSound(Leave(entered, r), c, r, ShutdownSweeping);
      } else {
        assert Awaits(entered, r, wait.value) by { SameAwaits(removing, entered, r, wait.value); }
        CallIsSound(entered, c, r, ShutdownRemoving(wait.value));
      }
    }
  }

  lemma SameAwaits(rt: Runtime, after: Runtime, r: nat, k: nat)
    requires Awaits(rt, r, k) && after.attempts == rt.attempts && after.table == rt.table
    ensures Awaits(after, r, k)
  {}

  lemma RemovalIsAwaited(rt: Runtime, c: nat, gone: bool)
    requires Sound(rt) && c in rt.calls && rt.calls[c].run in rt.table
    requires AwaitedAttempt(rt.calls[c].progress).Some?
    requires var k := AwaitedAttempt(rt.calls[c].progress).value;
      k < |rt.attempts| && rt.attempts[k].settlement == if gone then Gone else Failed
    ensures Sound(AfterRemoval(rt, c, gone))
  {
    var r, k := rt.calls[c].run, AwaitedAttempt(rt.calls[c].progress).value;
    assert CallOk(rt, c) && AttemptOk(rt, k);
    hide Sound;
    ForgettingIsSound(rt, r);
    match rt.calls[c].progress
    case CommandUndoing(_) =>
      CommandIsOver(rt, c, r, Threw);
      CommandIsOver(ForgetRemoval(rt, r), c, r, Threw);
    case CancelRemoving(_) =>
      CallIsSound(rt, c, r, Returned);
      CallIsSound(ForgetRemoval(rt, r), c, r, Threw);
    case ReleaseRemoving(_) =>
      if gone {
        LeavingIsSound(rt, r);
        CallIsSound(Leave(rt, r), c, r, ReleaseSweeping);
      } else {
        CallIsSound(ForgetRemoval(rt, r), c, r, Threw);
      }
    case ShutdownRemoving(_) =>
      if gone {
        LeavingIsSound(rt, r);
        CallIsSound(Leave(rt, r), c, r, ShutdownSweeping);
      } else {
        CallIsSound(ForgetRemoval(rt, r), c, r, Threw);
      }
  }

  lemma CallResumes(rt: Runtime, c: nat, swept: bool)
    requires Sound(rt)
    ensures Sound(ResumeCall(rt, c, swept))
  {
    hide Sound, AfterRemoval, CancelNow, ReleaseNow;
    if c in rt.calls {
      var r, progress := rt.calls[c].run, rt.calls[c].progress;
      if progress == CancelWaiting {
        if r !in rt.preparations {
          CancelsNow(rt, c, r);
        }
      } else if progress == ReleaseWaiting {
        if r !in rt.preparations {
          ReleasesNow(rt, c, r);
        }
      } else if progress == ReleaseSweeping || progress == ShutdownSweeping {
        CallIsSound(rt, c, r, if swept then Returned else Threw);
      } else {
        var k := AwaitedAttempt(progress);
        if k.Some? && k.value < |rt.attempts| && rt.attempts[k.value].settlement != InFlight && r in rt.table {
          RemovalIsAwaited(rt, c, rt.attempts[k.value].settlement == Gone);
        }
      }
    }
  }

  // -- shutdown --------------------------------------------------------------------------------------

  /** A step that leaves the shutdown alone keeps its promises, if no debt is dropped. */
  lemma DebtsStay(rt: Runtime, after: Runtime)
    requires ShutdownOk(rt) && after.shutdown == rt.shutdown && after.state == rt.state
    requires rt.shutdown.Removing? ==> after.preparations == map[] && after.sessions <= rt.sessions
    requires forall c, r :: Outstanding(rt, c, r) && r in after.sessions ==> Outstanding(after, c, r)
    ensures ShutdownOk(after)
  {
    forall r | rt.shutdown.Removing? && r in after.sessions ensures Owed(after, r) {
      assert Owed(rt, r);
    }
  }

  lemma StartingKeepsShutdown(rt: Runtime, r: nat)
    requires ShutdownOk(rt)
    ensures ShutdownOk(StartPreparation(rt, r))
  {
    var after := StartPreparation(rt, r);
    forall c, q | Outstanding(rt, c, q) ensures Outstanding(after, c, q) {}
    DebtsStay(rt, after);
  }

  lemma RemovalKeepsShutdown(rt: Runtime, k: nat, gone: bool)
    requires ShutdownOk(rt)
    ensures ShutdownOk(SettleRemoval(rt, k, gone))
  {
    var after := SettleRemoval(rt, k, gone);
    forall c, q | Outstanding(rt, c, q) ensures Outstanding(after, c, q) {}
    DebtsStay(rt, after);
  }

  /** With a removing shutdown there is no preparation left that could continue. */
  lemma ContinuingKeepsShutdown(rt: Runtime, r: nat, ok: bool, made: bool)
    requires ShutdownOk(rt) && PreparationOk(rt, r)
    ensures ShutdownOk(ContinuePreparation(rt, r, ok, made))
  {
    var after := ContinuePreparation(rt, r, ok, made);
    ContinuingIsPreparationStep(rt, r, ok, made);
    if rt.shutdown.Removing? {
      assert r !in rt.preparations;
      assert after == rt;
    } else {
      hide ContinuePreparation;
      forall c, q | Outstanding(rt, c, q) ensures Outstanding(after, c, q) {}
      DebtsStay(rt, after);
    }
  }

  /**
   What a step of call c may do: it writes no call but its own, opens no session, keeps every
   abort, drops no debt of the shutdown, and takes up a command only by a fresh `Command`.
   */
  ghost predicate CallStep(rt: Runtime, after: Runtime, c: nat) {
    && after.shutdown == rt.shutdown && after.state == rt.state && after.preparations == rt.preparations && after.known == rt.known
    && after.containers == rt.containers && after.sessions <= rt.sessions && after.table.Keys == rt.table.Keys
    && (forall r {:trigger r in after.table} :: r in after.table && rt.table[r].aborted ==> after.table[r].aborted)
    && (forall d {:trigger d in after.calls} {:trigger d in rt.calls} :: d != c ==>
          (d in after.calls <==> d in rt.calls) && (d in rt.calls ==> after.calls[d] == rt.calls[d]))
    && (forall r {:trigger Outstanding(after, c, r)} :: Outstanding(rt, c, r) && r in after.sessions ==> Outstanding(after, c, r))
  }

  /** The step takes up no command it did not have. */
  ghost predicate TakesNoCommand(rt: Runtime, after: Runtime, c: nat) {
    forall r {:trigger Holds(after, c, r)} :: Holds(after, c, r) ==> Holds(rt, c, r)
  }

  lemma NoStep(rt: Runtime, c: nat)
    ensures CallStep(rt, rt, c) && TakesNoCommand(rt, rt, c)
  {}

  lemma StartCommandIsCallStep(rt: Runtime, c: nat, r: nat, allowed: bool)
    ensures CallStep(rt, StartCommand(rt, c, r, allowed), c)
    ensures forall q :: Holds(StartCommand(rt, c, r, allowed), c, q) ==> Holds(rt, c, q) || (q == r && r in rt.table)
  {}

  lemma FinishCommandIsCallStep(rt: Runtime, c: nat, ok: bool)
    ensures CallStep(rt, FinishCommand(rt, c, ok), c) && TakesNoCommand(rt, FinishCommand(rt, c, ok), c)
  {}

  lemma CancelNowIsCallStep(rt: Runtime, c: nat, r: nat)
    requires c in rt.calls ==> rt.calls[c].progress == CancelWaiting
    ensures CallStep(rt, CancelNow(rt, c, r), c) && TakesNoCommand(rt, CancelNow(rt, c, r), c)
  {}

  lemma ReleaseNowIsCallStep(rt: Runtime, c: nat, r: nat)
    requires c in rt.calls ==> rt.calls[c].progress == ReleaseWaiting
    ensures CallStep(rt, ReleaseNow(rt, c, r), c) && TakesNoCommand(rt, ReleaseNow(rt, c, r), c)
  {}

  lemma StartCancelIsCallStep(rt: Runtime, c: nat, r: nat)
    ensures CallStep(rt, StartCancel(rt, c, r), c) && TakesNoCommand(rt, StartCancel(rt, c, r), c)
  {
    hide CancelNow;
    if c !in rt.calls && r !in rt.preparations {
      CancelNowIsCallStep(rt, c, r);
    }
  }

  lemma StartReleaseIsCallStep(rt: Runtime, c: nat, r: nat)
    ensures CallStep(rt, StartRelease(rt, c, r), c) && TakesNoCommand(rt, StartRelease(rt, c, r), c)
  {
    hide ReleaseNow;
    if c !in rt.calls && r !in rt.preparations {
      ReleaseNowIsCallStep(rt, c, r);
    }
  }

  lemma AfterRemovalIsCallStep(rt: Runtime, c: nat)
    requires c in rt.calls && rt.calls[c].run in rt.table
    ensures CallStep(rt, AfterRemoval(rt, c, true), c) && TakesNoCommand(rt, AfterRemoval(rt, c, true), c)
  {}

  lemma AfterFailureIsCallStep(rt: Runtime, c: nat)
    requires c in rt.calls && rt.calls[c].run in rt.table
    ensures CallStep(rt, AfterRemoval(rt, c, false), c) && TakesNoCommand(rt, AfterRemoval(rt, c, false), c)
  {}

  lemma SweepIsCallStep(rt: Runtime, c: nat, swept: bool)
    requires c in rt.calls && (rt.calls[c].progress == ReleaseSweeping || rt.calls[c].progress == ShutdownSweeping)
    ensures var after := SetCall(rt, c, rt.calls[c].run, if swept then Returned else Threw);
      CallStep(rt, after, c) && TakesNoCommand(rt, after, c)
  {}

  lemma ResumeIsCallStep(rt: Runtime, c: nat, swept: bool)
    ensures CallStep(rt, ResumeCall(rt, c, swept), c) && TakesNoCommand(rt, ResumeCall(rt, c, swept), c)
  {
    hide CallStep, TakesNoCommand, CancelNow, ReleaseNow, AfterRemoval, SetCall;
    NoStep(rt, c);
    if c in rt.calls {
      var r, progress := rt.calls[c].run, rt.calls[c].progress;
      if progress == CancelWaiting {
        CancelNowIsCallStep(rt, c, r);
      } else if progress == ReleaseWaiting {
        ReleaseNowIsCallStep(rt, c, r);
      } else if progress == ReleaseSweeping || progress == ShutdownSweeping {
        SweepIsCallStep(rt, c, swept);
      } else if r in rt.table {
        AfterRemovalIsCallStep(rt, c);
        AfterFailureIsCallStep(rt, c);
      }
    }
  }

  predicate ActsForCall(action: Action) {
    action.Command? || action.CommandEnds? || action.Cancel? || action.Release? || action.Resume?
  }

  lemma CallActionsAreCallSteps(rt: Runtime, action: Action)
    requires ActsForCall(action)
    ensures CallStep(rt, Step(rt, action), action.call)
    ensures !action.Command? ==> TakesNoCommand(rt, Step(rt, action), action.call)
  {
    hide CallStep, TakesNoCommand, StartCommand, FinishCommand, StartCancel, StartRelease, ResumeCall;
    match action
    case Command(c, r, allowed) => StartCommandIsCallStep(rt, c, r, allowed);
    case CommandEnds(c, ok) => FinishCommandIsCallStep(rt, c, ok);
    case Cancel(c, r) => StartCancelIsCallStep(rt, c, r);
    case Release(c, r) => StartReleaseIsCallStep(rt, c, r);
    case Resume(c, swept) => ResumeIsCallStep(rt, c, swept);
  }

  lemma CallStepKeepsShutdown(rt: Runtime, after: Runtime, c: nat)
    requires ShutdownOk(rt) && CallStep(rt, after, c)
    ensures ShutdownOk(after)
  {
    forall d, r | Outstanding(rt, d, r) && r in after.sessions ensures Outstanding(after, d, r) {
      assert d != c ==> d in after.calls;
    }
    DebtsStay(rt, after);
  }

  lemma EntryKeepsShutdown(rt: Runtime, c: nat, r: nat)
    requires ShutdownOk(rt)
    ensures ShutdownOk(ShutdownEntry(rt, c, r))
  {
    var after := ShutdownEntry(rt, c, r);
    if after != rt {
      forall q | q in after.sessions ensures Owed(after, q) {
        assert Owed(rt, q);
        if q == r {
          assert Outstanding(after, c, q);
        } else if q !in rt.shutdown.todo {
          var d :| d in rt.shutdown.entries && Outstanding(rt, d, q);
          assert Outstanding(after, d, q);
        }
      }
    }
  }

  lemma ClosingKeepsShutdown(rt: Runtime)
    requires ShutdownOk(rt)
    ensures ShutdownOk(StartShutdown(rt)) && ShutdownOk(CollectSessions(rt)) && ShutdownOk(CloseRuntime(rt))
  {
    var collected, closed := CollectSessions(rt), CloseRuntime(rt);
    if collected != rt {
      forall r | r in collected.sessions ensures Owed(collected, r) {}
    }
    if closed != rt {
      forall r ensures r !in rt.sessions {
        assert r in rt.sessions ==> Owed(rt, r);
      }
      assert closed.sessions == {};
    }
  }

  /** A step of a preparation moves no call, starts no other preparation and keeps every abort. */
  ghost predicate PreparationStep(rt: Runtime, after: Runtime) {
    && after.calls == rt.calls && after.known == rt.known && after.shutdown == rt.shutdown && after.state == rt.state
    && after.preparations.Keys <= rt.preparations.Keys && (forall q {:trigger NotYetCreated(after, q)} :: NotYetCreated(after, q) ==> NotYetCreated(rt, q))
    && (forall q {:trigger q in after.table} {:trigger q in rt.table} :: q in rt.table && rt.table[q].aborted ==>
          q in after.table && after.table[q].aborted)
  }

  lemma FailureIsPreparationStep(rt: Runtime, r: nat)
    requires r in rt.table && r in rt.preparations
    ensures PreparationStep(rt, FailPreparation(rt, r))
  {}

  lemma OpeningIsPreparationStep(rt: Runtime, r: nat)
    requires r !in rt.table && r in rt.preparations && rt.preparations[r] == ReadingInputs
    ensures PreparationStep(rt, OpenSession(rt, r))
  {
    hide FailPreparation;
    var listed := SetStage(rt.(sessions := rt.sessions + {r}, table := rt.table[r := Session(false, false, false, false, None)]), r, RunningGit);
    FailureIsPreparationStep(listed, r);
  }

  lemma ProceedingIsPreparationStep(rt: Runtime, r: nat, ok: bool, made: bool)
    requires r in rt.table && r in rt.preparations
    ensures PreparationStep(rt, Proceed(rt, r, rt.preparations[r], ok, made))
  {
    hide FailPreparation;
    FailureIsPreparationStep(rt, r);
    FailureIsPreparationStep(rt.(containers := rt.containers + {r}), r);
  }

  lemma ContinuingIsPreparationStep(rt: Runtime, r: nat, ok: bool, made: bool)
    requires PreparationOk(rt, r)
    ensures PreparationStep(rt, ContinuePreparation(rt, r, ok, made))
  {
    hide OpenSession, Proceed;
    if r in rt.preparations {
      if r in rt.table {
        ProceedingIsPreparationStep(rt, r, ok, made);
      } else {
        OpeningIsPreparationStep(rt, r);
      }
    }
  }

  // -- whole runs --------------------------------------------------------------------------------------

  /** What holds in every run, whatever its callers do. */
  ghost predicate Safe(rt: Runtime) {
    Sound(rt) && ShutdownOk(rt)
  }

  lemma StepIsSound(rt: Runtime, action: Action)
    requires Sound(rt)
    ensures Sound(Step(rt, action))
  {
    hide Sound;
    match action
    case Prepare(r) => PreparationStarts(rt, r);
    case Continue(r, ok, made) => PreparationContinues(rt, r, ok, made);
    case Removal(k, gone) => RemovalSettles(rt, k, gone);
    case Command(c, r, allowed) => CommandStarts(rt, c, r, allowed);
    case CommandEnds(c, ok) => CommandFinishes(rt, c, ok);
    case Cancel(c, r) => CancelStarts(rt, c, r);
    case Release(c, r) => ReleaseStarts(rt, c, r);
    case Resume(c, swept) => CallResumes(rt, c, swept);
    case AskShutdown => ShutdownStarts(rt);
    case Collect => ShutdownProgressIsSound(rt, CollectSessions(rt).shutdown, rt.state);
    case Entry(c, r) => EntryStarts(rt, c, r);
    case Close => ShutdownProgressIsSound(rt, rt.shutdown, CloseRuntime(rt).state);
  }

  lemma PreparationSound(rt: Runtime, r: nat)
    requires Sound(rt)
    ensures PreparationOk(rt, r)
  {}

  lemma StepIsSafe(rt: Runtime, action: Action)
    requires Safe(rt)
    ensures Safe(Step(rt, action))
  {
    hide Sound, ShutdownOk, CallStep, StartPreparation, ContinuePreparation, SettleRemoval, StartCommand, FinishCommand,
         StartCancel, StartRelease, ResumeCall, StartShutdown, CollectSessions, ShutdownEntry, CloseRuntime;
    StepIsSound(rt, action);
    match action
    case Prepare(r) => StartingKeepsShutdown(rt, r);
    case Continue(r, ok, made) =>
      PreparationSound(rt, r);
      ContinuingKeepsShutdown(rt, r, ok, made);
    case Removal(k, gone) => RemovalKeepsShutdown(rt, k, gone);
    case Entry(c, r) => EntryKeepsShutdown(rt, c, r);
    case AskShutdown => ClosingKeepsShutdown(rt);
    case Collect => ClosingKeepsShutdown(rt);
    case Close => ClosingKeepsShutdown(rt);
    case _ =>
      CallActionsAreCallSteps(rt, action);
      CallStepKeepsShutdown(rt, Step(rt, action), action.call);
  }

  lemma {:induction false} RunStaysSafe(rt: Runtime, actions: seq<Action>)
    requires Safe(rt)
    ensures Safe(Run(rt, actions))
  {
    hide Step, Safe;
    if actions != [] {
      RunStaysSafe(rt, actions[..|actions| - 1]);
      StepIsSafe(Run(rt, actions[..|actions| - 1]), actions[|actions| - 1]);
    }
  }

  lemma FreshIsSafe()
    ensures Safe(Fresh())
  {}

  lemma RunIsSafe(actions: seq<Action>)
    ensures Safe(Run(Fresh(), actions))
  {
    hide Run, Safe, Fresh;
    FreshIsSafe();
    RunStaysSafe(Fresh(), actions);
  }

  // -- the promises ----------------------------------------------------------------------------------------

  /** A session leaves the map only after a removal of its container was confirmed and its secrets were overwritten. */
  lemma SessionsLeaveRemovedAndCleared(actions: seq<Action>, r: nat)
    ensures var rt := Run(Fresh(), actions);
      r in rt.table && r !in rt.sessions ==> rt.table[r].removed && rt.table[r].cleared
  {
    hide Run;
    RunIsSafe(actions);
    assert SessionOk(Run(Fresh(), actions), r);
  }

  /** No session ever executes two commands at once. */
  lemma OneCommandAtATime(actions: seq<Action>, c: nat, d: nat, r: nat)
    requires Holds(Run(Fresh(), actions), c, r) && Holds(Run(Fresh(), actions), d, r)
    ensures c == d
  {
    hide Run;
    RunIsSafe(actions);
  }

  lemma StepStaysClosed(rt: Runtime, action: Action)
    requires rt.state == Closed && rt.sessions == {} && rt.preparations == map[]
    ensures var after := Step(rt, action); after.state == Closed && after.sessions == {} && after.preparations == map[]
  {}

  lemma {:induction false} ClosedForGood(rt: Runtime, later: seq<Action>)
    requires rt.state == Closed && rt.sessions == {} && rt.preparations == map[]
    ensures var after := Run(rt, later); after.state == Closed && after.sessions == {} && after.preparations == map[]
  {
    hide Step;
    if later != [] {
      ClosedForGood(rt, later[..|later| - 1]);
      StepStaysClosed(Run(rt, later[..|later| - 1]), later[|later| - 1]);
    }
  }

  /** Once shutdown has resolved, no session and no preparation remains, and none is ever added. */
  lemma ShutdownIsComplete(actions: seq<Action>, later: seq<Action>)
    requires Run(Fresh(), actions).state == Closed
    ensures var after := Run(Run(Fresh(), actions), later);
      after.state == Closed && after.sessions == {} && after.preparations == map[]
  {
    hide Run, Sound;
    RunIsSafe(actions);
    ClosedForGood(Run(Fresh(), actions), later);
  }

  // -- cancelled sessions ----------------------------------------------------------------------------------

  predicate IsAborted(rt: Runtime, r: nat) {
    r in rt.table && rt.table[r].aborted
  }

  lemma StepKeepsAborted(rt: Runtime, action: Action, r: nat)
    requires IsAborted(rt, r) && Sound(rt)
    ensures IsAborted(Step(rt, action), r)
  {
    if action.Continue? {
      assert PreparationOk(rt, action.run);
      ContinuingIsPreparationStep(rt, action.run, action.ok, action.made);
    }
    hide Sound, ContinuePreparation, StartCommand, FinishCommand, StartCancel, StartRelease, ResumeCall;
    if ActsForCall(action) {
      CallActionsAreCallSteps(rt, action);
    }
  }

  lemma {:induction false} AbortedForGood(rt: Runtime, later: seq<Action>, r: nat)
    requires Sound(rt) && IsAborted(rt, r)
    ensures Sound(Run(rt, later)) && IsAborted(Run(rt, later), r)
  {
    hide Step, Sound, IsAborted;
    if later != [] {
      var init, last := later[..|later| - 1], later[|later| - 1];
      AbortedForGood(rt, init, r);
      StepIsSound(Run(rt, init), last);
      StepKeepsAborted(Run(rt, init), last, r);
    }
  }

  /** The call that reaches the session: a cancel at any time, a release once no preparation is pending. */
  predicate Reaches(rt: Runtime, action: Action, r: nat) {
    && r in rt.sessions
    && match action
       case Cancel(c, q) => q == r && c !in rt.calls
       case Release(c, q) => q == r && c !in rt.calls && r !in rt.preparations
       case _ => false
  }

  /**
   After cancel or release has reached an open session, no later command is ever started on it,
   whatever else happens.
   */
  lemma CancelledSessionStartsNothing(actions: seq<Action>, action: Action, r: nat, later: seq<Action>, d: nat, allowed: bool)
    requires Reaches(Run(Fresh(), actions), action, r)
    requires d !in Run(Step(Run(Fresh(), actions), action), later).calls
    ensures Step(Run(Step(Run(Fresh(), actions), action), later), Command(d, r, allowed)).calls[d] == Call(r, Threw)
  {
    hide Run, Sound, ShutdownOk, Reaches;
    RunIsSafe(actions);
    var rt := Run(Fresh(), actions);
    StepIsSound(rt, action);
    CancellationAborts(rt, action, r);
    AbortedForGood(Step(rt, action), later, r);
  }

  lemma CancellationAborts(rt: Runtime, action: Action, r: nat)
    requires Sound(rt) && Reaches(rt, action, r)
    ensures IsAborted(Step(rt, action), r)
  {
    assert ListedOnce(rt);
  }

  // -- patient callers: what Docker really holds -----------------------------------------------------------

  /** Nobody has a command on a run whose container is not created yet. */
  ghost predicate PatientCalls(rt: Runtime) {
    forall c, r {:trigger Holds(rt, c, r)} :: Holds(rt, c, r) ==> r in rt.known && !NotYetCreated(rt, r)
  }

  lemma CommandsStayPatient(rt: Runtime, c: nat, r: nat, allowed: bool)
    requires Sound(rt) && PatientCalls(rt) && !NotYetCreated(rt, r)
    ensures PatientCalls(StartCommand(rt, c, r, allowed))
  {
    hide Sound, StartCommand;
    StartCommandIsCallStep(rt, c, r, allowed);
    TabledIsKnown(rt, r);
    var after := StartCommand(rt, c, r, allowed);
    forall d, q | Holds(after, d, q) ensures q in after.known && !NotYetCreated(after, q) {
      assert d != c ==> Holds(rt, d, q);
    }
  }

  lemma TabledIsKnown(rt: Runtime, r: nat)
    requires Sound(rt)
    ensures r in rt.table ==> r in rt.known
  {
    assert SessionOk(rt, r);
  }

  lemma OtherCallsStayPatient(rt: Runtime, after: Runtime, c: nat)
    requires PatientCalls(rt) && CallStep(rt, after, c) && TakesNoCommand(rt, after, c)
    ensures PatientCalls(after)
  {
    forall d, q | Holds(after, d, q) ensures q in after.known && !NotYetCreated(after, q) {
      assert Holds(rt, d, q);
    }
  }

  lemma EntryTakesNoCommand(rt: Runtime, c: nat, r: nat)
    requires PatientCalls(rt)
    ensures PatientCalls(ShutdownEntry(rt, c, r))
  {
    var after := ShutdownEntry(rt, c, r);
    forall d, q | Holds(after, d, q) ensures q in after.known && !NotYetCreated(after, q) {
      assert Holds(rt, d, q);
    }
  }

  /** Outside the calls: no call moves, nothing known is prepared again. */
  lemma RestStaysPatient(rt: Runtime, action: Action)
    requires PatientCalls(rt) && Sound(rt) && !ActsForCall(action)
    ensures PatientCalls(Step(rt, action))
  {
    hide ContinuePreparation, ShutdownEntry;
    var after := Step(rt, action);
    if action.Entry? {
      EntryTakesNoCommand(rt, action.call, action.run);
    } else {
      if action.Continue? {
        assert PreparationOk(rt, action.run);
        ContinuingIsPreparationStep(rt, action.run, action.ok, action.made);
      }
      hide Sound;
      assert after.calls == rt.calls;
      forall d, q | Holds(after, d, q) ensures q in after.known && !NotYetCreated(after, q) {
        assert Holds(rt, d, q);
      }
    }
  }

  lemma CallsStayPatient(rt: Runtime, action: Action)
    requires Sound(rt) && PatientCalls(rt) && Patient(rt, action)
    ensures PatientCalls(Step(rt, action))
  {
    hide PatientCalls, StartCommand, SessionOk, AttemptOk, CallOk, PreparationOk;
    if action.Command? {
      CommandsStayPatient(rt, action.call, action.run, action.allowed);
    } else if ActsForCall(action) {
      hide Step;
      CallActionsAreCallSteps(rt, action);
      OtherCallsStayPatient(rt, Step(rt, action), action.call);
    } else {
      RestStaysPatient(rt, action);
    }
  }

  /** A removed session has no container, and nothing is removed before its container is created. */
  predicate ContainerOk(rt: Runtime, r: nat) {
    r in rt.table ==>
      && (rt.table[r].removed ==> r !in rt.containers)
      && (NotYetCreated(rt, r) ==> !rt.table[r].removed && rt.table[r].removal == None)
  }

  predicate TriedInTime(rt: Runtime, k: nat) {
    k < |rt.attempts| ==> !NotYetCreated(rt, rt.attempts[k].run)
  }

  ghost predicate DockerOk(rt: Runtime) {
    && (forall r: nat {:trigger ContainerOk(rt, r)} :: ContainerOk(rt, r))
    && (forall k: nat {:trigger TriedInTime(rt, k)} :: TriedInTime(rt, k))
  }

  /** The step concerns the session of r and its container, and no other. */
  ghost predicate OnlyAbout(rt: Runtime, after: Runtime, r: nat) {
    && (forall q {:trigger q in after.containers} :: q != r ==> (q in after.containers <==> q in rt.containers))
    && (forall q {:trigger q in after.table} :: q != r ==> (q in after.table <==> q in rt.table) && (q in rt.table ==> after.table[q] == rt.table[q]))
    && (forall q {:trigger q in after.preparations} :: q != r ==>
          (q in after.preparations <==> q in rt.preparations) && (q in rt.preparations ==> after.preparations[q] == rt.preparations[q]))
    && |rt.attempts| <= |after.attempts|
    && (forall k {:trigger after.attempts[k]} :: 0 <= k < |after.attempts| ==>
          after.attempts[k].run == if k < |rt.attempts| then rt.attempts[k].run else r)
    && (NotYetCreated(after, r) ==> |after.attempts| == |rt.attempts| && (NotYetCreated(rt, r) || r !in rt.known))
  }

  lemma AboutOneKeepsDocker(rt: Runtime, after: Runtime, r: nat)
    requires Sound(rt) && DockerOk(rt) && OnlyAbout(rt, after, r) && ContainerOk(after, r)
    ensures DockerOk(after)
  {
    forall q: nat ensures ContainerOk(after, q) {
      assert ContainerOk(rt, q);
    }
    forall k: nat ensures TriedInTime(after, k) {
      assert TriedInTime(rt, k) && AttemptOk(rt, k);
      assert k < |rt.attempts| ==> SessionOk(rt, rt.attempts[k].run);
    }
  }

  lemma StartingKeepsDocker(rt: Runtime, r: nat)
    requires Sound(rt) && DockerOk(rt)
    ensures DockerOk(StartPreparation(rt, r))
  {
    assert ContainerOk(rt, r) && SessionOk(rt, r);
    var after := StartPreparation(rt, r);
    if after != rt {
      AboutOneKeepsDocker(rt, after, r);
    }
  }

  lemma FailureKeepsDocker(rt: Runtime, r: nat)
    requires Sound(rt) && DockerOk(rt) && r in rt.table && r in rt.preparations
    ensures DockerOk(FailPreparation(rt, r))
  {
    assert ContainerOk(rt, r);
    AboutOneKeepsDocker(rt, FailPreparation(rt, r), r);
  }

  lemma OpeningKeepsDocker(rt: Runtime, r: nat)
    requires Sound(rt) && DockerOk(rt) && r in rt.preparations && rt.preparations[r] == ReadingInputs
    ensures DockerOk(OpenSession(rt, r))
  {
    var listed := SetStage(rt.(sessions := rt.sessions + {r}, table := rt.table[r := Session(false, false, false, false, None)]), r, RunningGit);
    assert PreparationOk(rt, r);
    AboutOneKeepsDocker(rt, listed, r);
    if rt.state != Running {
      SessionIsListed(rt, r);
      FailureKeepsDocker(listed, r);
    }
  }

  lemma SessionIsListed(rt: Runtime, r: nat)
    requires Sound(rt) && r in rt.preparations && rt.preparations[r] == ReadingInputs
    ensures Sound(SetStage(rt.(sessions := rt.sessions + {r}, table := rt.table[r := Session(false, false, false, false, None)]), r, RunningGit))
  {
    var running := rt.(state := Running);
    ShutdownProgressIsSound(rt, rt.shutdown, Running);
    SessionOpens(running, r);
    ShutdownProgressIsSound(OpenSession(running, r), rt.shutdown, rt.state);
  }

  lemma ContainerMayAppear(rt: Runtime, r: nat)
    requires Sound(rt) && DockerOk(rt) && r in rt.table && r in rt.preparations && rt.preparations[r] == CreatingContainer
    ensures var created := rt.(containers := rt.containers + {r});
      DockerOk(created) && DockerOk(SetStage(created, r, StartingContainer)) && DockerOk(SetStage(rt, r, StartingContainer))
  {
    assert ContainerOk(rt, r);
    var created := rt.(containers := rt.containers + {r});
    AboutOneKeepsDocker(rt, created, r);
    AboutOneKeepsDocker(rt, SetStage(created, r, StartingContainer), r);
    AboutOneKeepsDocker(rt, SetStage(rt, r, StartingContainer), r);
  }

  lemma ProceedingKeepsDocker(rt: Runtime, r: nat, ok: bool, made: bool)
    requires Sound(rt) && DockerOk(rt) && r in rt.preparations && r in rt.table
    ensures DockerOk(Proceed(rt, r, rt.preparations[r], ok, made))
  {
    var stage := rt.preparations[r];
    if stage == CreatingContainer {
      ContainerMayAppear(rt, r);
      ContainerIsCreated(rt, r);
      FailureKeepsDocker(rt, r);
      FailureKeepsDocker(rt.(containers := rt.containers + {r}), r);
    } else {
      hide FailPreparation;
      FailureKeepsDocker(rt, r);
      NextStageKeepsDocker(rt, r);
      LastStageKeepsDocker(rt, r);
      SettlingKeepsDocker(rt, r);
    }
  }

  lemma NextStageKeepsDocker(rt: Runtime, r: nat)
    requires Sound(rt) && DockerOk(rt) && r in rt.preparations && r in rt.table
    ensures rt.preparations[r] == RunningGit ==> DockerOk(SetStage(rt, r, CreatingContainer))
    ensures DockerOk(SetStage(rt, r, PausingContainer))
  {
    assert ContainerOk(rt, r);
    if rt.preparations[r] == RunningGit {
      AboutOneKeepsDocker(rt, SetStage(rt, r, CreatingContainer), r);
    }
    AboutOneKeepsDocker(rt, SetStage(rt, r, PausingContainer), r);
  }

  lemma LastStageKeepsDocker(rt: Runtime, r: nat)
    requires Sound(rt) && DockerOk(rt) && r in rt.preparations && r in rt.table
    ensures DockerOk(SetStage(Leave(rt, r), r, Sweeping)) && DockerOk(Settle(ForgetRemoval(rt, r), r))
  {
    assert ContainerOk(rt, r);
    AboutOneKeepsDocker(rt, SetStage(Leave(rt, r), r, Sweeping), r);
    AboutOneKeepsDocker(rt, Settle(ForgetRemoval(rt, r), r), r);
  }

  lemma SettlingKeepsDocker(rt: Runtime, r: nat)
    requires Sound(rt) && DockerOk(rt)
    ensures DockerOk(Settle(rt, r))
  {
    assert ContainerOk(rt, r);
    AboutOneKeepsDocker(rt, Settle(rt, r), r);
  }

  lemma ContinuingKeepsDocker(rt: Runtime, r: nat, ok: bool, made: bool)
    requires Sound(rt) && DockerOk(rt)
    ensures DockerOk(ContinuePreparation(rt, r, ok, made))
  {
    hide Sound, DockerOk, OpenSession, Proceed;
    if r in rt.preparations {
      SettlingKeepsDocker(rt, r);
      if rt.preparations[r] == ReadingInputs {
        OpeningKeepsDocker(rt, r);
      } else if r in rt.table {
        ProceedingKeepsDocker(rt, r, ok, made);
      }
    }
  }

  lemma RemovalKeepsDocker(rt: Runtime, k: nat, gone: bool)
    requires Sound(rt) && DockerOk(rt)
    ensures DockerOk(SettleRemoval(rt, k, gone))
  {
    if k < |rt.attempts| {
      var r := rt.attempts[k].run;
      assert ContainerOk(rt, r) && TriedInTime(rt, k);
      AboutOneKeepsDocker(rt, SettleRemoval(rt, k, gone), r);
    }
  }

  /** A call may remove the container of a session that is past the creation. */
  lemma CallsKeepDocker(rt: Runtime, action: Action)
    requires Sound(rt) && DockerOk(rt) && PatientCalls(rt) && ActsForCall(action)
    ensures DockerOk(Step(rt, action))
  {
    match action
    case Command(c, r, allowed) => StartCommandKeepsDocker(rt, c, r, allowed);
    case CommandEnds(c, ok) => FinishCommandKeepsDocker(rt, c, ok);
    case Cancel(c, r) => CancelKeepsDocker(rt, c, r);
    case Release(c, r) => ReleaseKeepsDocker(rt, c, r);
    case Resume(c, swept) => ResumeKeepsDocker(rt, c, swept);
  }

  lemma StartCommandKeepsDocker(rt: Runtime, c: nat, r: nat, allowed: bool)
    requires Sound(rt) && DockerOk(rt)
    ensures DockerOk(StartCommand(rt, c, r, allowed))
  {
    assert ContainerOk(rt, r);
    SameDocker(rt, SetCall(rt, c, r, Threw));
    if r in rt.table {
      FlagsKeepDocker(rt, SetExecuting(SetCall(rt, c, r, CommandRunning), r, true));
    }
  }

  /** Calls and flags other than removal do not matter to Docker. */
  lemma FlagsKeepDocker(rt: Runtime, after: Runtime)
    requires DockerOk(rt) && after.containers == rt.containers && after.preparations == rt.preparations && after.attempts == rt.attempts
    requires after.table.Keys == rt.table.Keys
    requires forall q :: q in rt.table ==> after.table[q].removed == rt.table[q].removed && (after.table[q].removal == rt.table[q].removal || after.table[q].removal == None)
    ensures DockerOk(after)
  {
    forall q: nat ensures ContainerOk(after, q) {
      assert ContainerOk(rt, q);
    }
    forall k: nat ensures TriedInTime(after, k) {
      assert TriedInTime(rt, k);
    }
  }

  lemma SameDocker(rt: Runtime, after: Runtime)
    requires DockerOk(rt) && after.containers == rt.containers && after.preparations == rt.preparations && after.attempts == rt.attempts
    requires after.table == rt.table
    ensures DockerOk(after)
  {
    FlagsKeepDocker(rt, after);
  }

  /** Removing a container, with any aborts, clearing and bookkeeping around it. */
  lemma RemovingKeepsDocker(rt: Runtime, r: nat)
    requires DockerOk(rt) && r in rt.table && !NotYetCreated(rt, r)
    ensures DockerOk(ForceRemove(Abort(rt, r), r).0) && DockerOk(ForceRemove(ClearSecrets(Abort(rt, r), r), r).0)
  {
    var a, b := ForceRemove(Abort(rt, r), r).0, ForceRemove(ClearSecrets(Abort(rt, r), r), r).0;
    forall q: nat ensures ContainerOk(a, q) && ContainerOk(b, q) {
      assert ContainerOk(rt, q);
    }
    forall k: nat ensures TriedInTime(a, k) && TriedInTime(b, k) {
      assert TriedInTime(rt, k);
    }
  }

  lemma FinishCommandKeepsDocker(rt: Runtime, c: nat, ok: bool)
    requires DockerOk(rt) && PatientCalls(rt)
    ensures DockerOk(FinishCommand(rt, c, ok))
  {
    if c in rt.calls && rt.calls[c].progress == CommandRunning && rt.calls[c].run in rt.table {
      var r := rt.calls[c].run;
      assert Holds(rt, c, r);
      RemovingKeepsDocker(rt, r);
      hide DockerOk, PatientCalls;
      var (removing, wait) := ForceRemove(Abort(rt, r), r);
      if ok {
        FlagsKeepDocker(rt, FinishCommand(rt, c, ok));
      } else {
        FlagsKeepDocker(removing, FinishCommand(rt, c, ok));
      }
    }
  }

  lemma CancelNowKeepsDocker(rt: Runtime, c: nat, r: nat)
    requires DockerOk(rt) && r !in rt.preparations
    ensures DockerOk(CancelNow(rt, c, r))
  {
    SameDocker(rt, SetCall(rt, c, r, Returned));
    if r in rt.table {
      RemovingKeepsDocker(rt, r);
      hide DockerOk;
      var (removing, wait) := ForceRemove(Abort(rt, r), r);
      SameDocker(removing, SetCall(removing, c, r, if wait.None? then Returned else CancelRemoving(wait.value)));
    }
  }

  lemma CancelKeepsDocker(rt: Runtime, c: nat, r: nat)
    requires DockerOk(rt)
    ensures DockerOk(StartCancel(rt, c, r))
  {
    hide DockerOk, CancelNow;
    if r in rt.preparations {
      FlagsKeepDocker(rt, StartCancel(rt, c, r));
    } else {
      CancelNowKeepsDocker(rt, c, r);
    }
  }

  lemma ReleaseNowKeepsDocker(rt: Runtime, c: nat, r: nat)
    requires DockerOk(rt) && r !in rt.preparations
    ensures DockerOk(ReleaseNow(rt, c, r))
  {
    SameDocker(rt, SetCall(rt, c, r, Returned));
    if r in rt.table {
      RemovingKeepsDocker(rt, r);
      hide DockerOk;
      var (removing, wait) := ForceRemove(ClearSecrets(Abort(rt, r), r), r);
      SameDocker(removing, SetCall(Leave(removing, r), c, r, ReleaseSweeping));
      if wait.Some? {
        SameDocker(removing, SetCall(removing, c, r, ReleaseRemoving(wait.value)));
      }
    }
  }

  lemma ReleaseKeepsDocker(rt: Runtime, c: nat, r: nat)
    requires DockerOk(rt)
    ensures DockerOk(StartRelease(rt, c, r))
  {
    hide DockerOk, ReleaseNow;
    if r in rt.preparations {
      SameDocker(rt, SetCall(rt, c, r, ReleaseWaiting));
    } else {
      ReleaseNowKeepsDocker(rt, c, r);
    }
  }

  lemma AfterRemovalKeepsDocker(rt: Runtime, c: nat)
    requires DockerOk(rt) && c in rt.calls && rt.calls[c].run in rt.table
    ensures DockerOk(AfterRemoval(rt, c, true))
  {
    hide DockerOk;
    FlagsKeepDocker(rt, AfterRemoval(rt, c, true));
  }

  lemma AfterFailureKeepsDocker(rt: Runtime, c: nat)
    requires DockerOk(rt) && c in rt.calls && rt.calls[c].run in rt.table
    ensures DockerOk(AfterRemoval(rt, c, false))
  {
    hide DockerOk;
    FlagsKeepDocker(rt, AfterRemoval(rt, c, false));
  }

  lemma ResumeKeepsDocker(rt: Runtime, c: nat, swept: bool)
    requires DockerOk(rt)
    ensures DockerOk(ResumeCall(rt, c, swept))
  {
    hide DockerOk, CancelNow, ReleaseNow, AfterRemoval;
    if c in rt.calls {
      var r, progress := rt.calls[c].run, rt.calls[c].progress;
      SameDocker(rt, SetCall(rt, c, r, if swept then Returned else Threw));
      if r !in rt.preparations {
        CancelNowKeepsDocker(rt, c, r);
        ReleaseNowKeepsDocker(rt, c, r);
      }
      if r in rt.table {
        AfterRemovalKeepsDocker(rt, c);
        AfterFailureKeepsDocker(rt, c);
      }
    }
  }

  lemma EntryKeepsDocker(rt: Runtime, c: nat, r: nat)
    requires DockerOk(rt) && ShutdownOk(rt)
    ensures DockerOk(ShutdownEntry(rt, c, r))
  {
    if rt.shutdown.Removing? && r in rt.table {
      assert r !in rt.preparations;
      RemovingKeepsDocker(rt, r);
      hide DockerOk, ShutdownOk;
      var removing := ForceRemove(ClearSecrets(Abort(rt, r), r), r).0;
      if ShutdownEntry(rt, c, r) != rt {
        SameDocker(removing, ShutdownEntry(rt, c, r));
      }
    }
  }

  lemma StepKeepsDocker(rt: Runtime, action: Action)
    requires Safe(rt) && DockerOk(rt) && PatientCalls(rt)
    ensures DockerOk(Step(rt, action))
  {
    hide Sound, DockerOk, PatientCalls, ShutdownOk, StartPreparation, ContinuePreparation, SettleRemoval, StartCommand, FinishCommand,
         StartCancel, StartRelease, ResumeCall, ShutdownEntry;
    if ActsForCall(action) {
      CallsKeepDocker(rt, action);
    } else {
      match action
      case Prepare(r) => StartingKeepsDocker(rt, r);
      case Continue(r, ok, made) => ContinuingKeepsDocker(rt, r, ok, made);
      case Removal(k, gone) => RemovalKeepsDocker(rt, k, gone);
      case Entry(c, r) => EntryKeepsDocker(rt, c, r);
      case AskShutdown => FlagsKeepDocker(rt, StartShutdown(rt));
      case Collect => SameDocker(rt, CollectSessions(rt));
      case Close => SameDocker(rt, CloseRuntime(rt));
    }
  }

  lemma {:induction false} PatientRunsKeepDocker(actions: seq<Action>)
    requires AllPatient(Fresh(), actions)
    ensures DockerOk(Run(Fresh(), actions)) && PatientCalls(Run(Fresh(), actions))
  {
    hide Step, Safe, DockerOk, PatientCalls;
    if actions == [] {
      NothingInDocker();
    } else {
      var init, last := actions[..|actions| - 1], actions[|actions| - 1];
      PatientRunsKeepDocker(init);
      RunIsSafe(init);
      StepKeepsDocker(Run(Fresh(), init), last);
      SafeIsSound(Run(Fresh(), init));
      CallsStayPatient(Run(Fresh(), init), last);
    }
  }

  lemma SafeIsSound(rt: Runtime)
    requires Safe(rt)
    ensures Sound(rt) && ShutdownOk(rt)
  {}

  lemma NothingInDocker()
    ensures DockerOk(Fresh()) && PatientCalls(Fresh())
  {}

  /**
   If no command is sent before the container it needs is created, a container reported removed
   never comes back: a session that has left the map has left nothing behind in Docker.
   */
  lemma SessionsLeaveClean(actions: seq<Action>, r: nat)
    requires AllPatient(Fresh(), actions)
    ensures var rt := Run(Fresh(), actions);
      && (r in rt.table && rt.table[r].removed ==> r !in rt.containers)
      && (r in rt.table && r !in rt.sessions ==> rt.table[r].removed && rt.table[r].cleared && r !in rt.containers)
  {
    hide Run, AllPatient;
    PatientRunsKeepDocker(actions);
    SessionsLeaveRemovedAndCleared(actions, r);
    assert ContainerOk(Run(Fresh(), actions), r);
  }

  // -- an impatient caller -----------------------------------------------------------------------------------

  lemma RunOne(rt: Runtime, actions: seq<Action>, action: Action)
    ensures Run(rt, actions + [action]) == Step(Run(rt, actions), action)
  {
    assert (actions + [action])[..|actions|] == actions;
  }

  /** A command has failed while Docker was still creating the container, and found nothing to remove. */
  predicate Doomed(rt: Runtime, r: nat) {
    && r in rt.preparations && rt.preparations[r] == CreatingContainer
    && r in rt.table && rt.table[r].removed && rt.table[r].aborted && r !in rt.containers
  }

  lemma DoomedLeaks(rt: Runtime, r: nat)
    requires Doomed(rt, r)
    ensures var after := Step(Step(Step(rt, Continue(r, true, true)), Continue(r, true, true)), Continue(r, true, true));
      r in after.containers && r !in after.sessions && r !in after.preparations && r in after.table && after.table[r].removed
  {
    var created := Step(rt, Continue(r, true, true));
    assert created == SetStage(rt.(containers := rt.containers + {r}), r, StartingContainer);
    var failed := Step(created, Continue(r, true, true));
    assert failed.preparations[r] == Sweeping && r !in failed.sessions && failed.table[r].removed && r in failed.containers;
  }

  /** The container is being created, and a command would be accepted. */
  predicate Exposed(rt: Runtime, c: nat, r: nat) {
    && r in rt.preparations && rt.preparations[r] == CreatingContainer && MayExecute(rt, r) && c !in rt.calls
    && rt.table[r].removal == None
  }

  lemma EarlyCommandDooms(rt: Runtime, c: nat, r: nat)
    requires Exposed(rt, c, r)
    ensures Doomed(Step(Step(Step(rt, Command(c, r, true)), CommandEnds(c, false)), Removal(|rt.attempts|, true)), r)
  {
    var started := Step(rt, Command(c, r, true));
    assert started == SetExecuting(SetCall(rt, c, r, CommandRunning), r, true);
    var ended := Step(started, CommandEnds(c, false));
    var k := |rt.attempts|;
    assert ended.attempts == rt.attempts + [Attempt(r, InFlight)] && ended.preparations == rt.preparations;
    assert ended.table[r].aborted && ended.attempts[k].settlement == InFlight;
  }

  lemma RunThree(rt: Runtime, actions: seq<Action>, a: Action, b: Action, c: Action)
    ensures Run(rt, actions + [a] + [b] + [c]) == Step(Step(Step(Run(rt, actions), a), b), c)
  {
    hide Step;
    RunOne(rt, actions, a);
    RunOne(rt, actions + [a], b);
    RunOne(rt, actions + [a] + [b], c);
  }

  /**
   The patience is needed: whenever the runtime would accept a command for a run whose container
   is not created yet, some continuation leaves that container behind for good, its session gone
   from the map and marked removed.
   */
  lemma ImpatienceCanLeak(actions: seq<Action>, c: nat, r: nat) returns (more: seq<Action>)
    requires c !in Run(Fresh(), actions).calls
    requires MayExecute(Run(Fresh(), actions), r) && NotYetCreated(Run(Fresh(), actions), r)
    ensures var rt := Run(Run(Fresh(), actions), more);
      r in rt.containers && r !in rt.sessions && r !in rt.preparations && r in rt.table && rt.table[r].removed
  {
    var rt := Run(Fresh(), actions);
    RunIsSafe(actions);
    assert SessionOk(rt, r) && PreparationOk(rt, r);
    more := [];
    if rt.preparations[r] == RunningGit {
      RunOne(rt, [], Continue(r, true, false));
      more := [] + [Continue(r, true, false)];
    }
    var ready := Run(rt, more);
    assert Exposed(ready, c, r);
    hide Step, Run, Sound, ShutdownOk;
    EarlyCommandDooms(ready, c, r);
    RunThree(rt, more, Command(c, r, true), CommandEnds(c, false), Removal(|ready.attempts|, true));
    more := more + [Command(c, r, true)] + [CommandEnds(c, false)] + [Removal(|ready.attempts|, true)];
    DoomedLeaks(Run(rt, more), r);
    RunThree(rt, more, Continue(r, true, true), Continue(r, true, true), Continue(r, true, true));
    more := more + [Continue(r, true, true)] + [Continue(r, true, true)] + [Continue(r, true, true)];
  }
}
