/** That things get done: sessions open, commands return, releases and shutdowns complete when Docker answers. */
module ContainerLife {
  import opened ContainerSessions
  import opened Wrappers

  /** The session is open and idle, its container paused and waiting. */
  predicate Ready(rt: Runtime, r: nat) {
    && rt.state == Running && r in rt.sessions && r !in rt.preparations && r in rt.containers
    && r in rt.table && rt.table[r] == Session(false, false, false, false, None)
  }

  /** The session is over: out of the map, its container gone, its secrets overwritten. */
  predicate Over(rt: Runtime, r: nat) {
    && r !in rt.sessions && r !in rt.containers
    && r in rt.table && rt.table[r].aborted && rt.table[r].removed && rt.table[r].cleared
  }

  /** Four awaits after the inputs are read, a new session is ready. */
  lemma PreparationSucceeds(rt: Runtime, r: nat)
    requires rt.state == Running && r !in rt.preparations && r !in rt.sessions && r !in rt.known
    ensures var next := (s: Runtime) => Step(s, Continue(r, true, true));
      var after := next(next(next(next(next(Step(rt, Prepare(r)))))));
      Ready(after, r) && after.calls == rt.calls && after.sessions == rt.sessions + {r}
  {
    var asked := Step(rt, Prepare(r));
    assert asked.preparations[r] == ReadingInputs && asked.state == Running;
    var listed := Step(asked, Continue(r, true, true));
    assert listed.preparations[r] == RunningGit && listed.table[r] == Session(false, false, false, false, None) && listed.state == Running;
    var creating := Step(listed, Continue(r, true, true));
    assert creating == SetStage(listed, r, CreatingContainer);
    var starting := Step(creating, Continue(r, true, true));
    assert starting == SetStage(creating.(containers := creating.containers + {r}), r, StartingContainer);
    var pausing := Step(starting, Continue(r, true, true));
    assert pausing == SetStage(starting, r, PausingContainer);
    var ready := Step(pausing, Continue(r, true, true));
    assert ready == Settle(pausing, r);
  }

  /**
   A preparation whose operation fails, or that is cancelled or overtaken by a shutdown before its
   container is up, is undone: aborted, without secrets, and its container removed or being removed.
   */
  lemma InterruptedPreparationIsUndone(rt: Runtime, r: nat, ok: bool, made: bool)
    requires r in rt.preparations && r in rt.table
    requires
      || (rt.preparations[r] in {RunningGit, StartingContainer} && (!ok || rt.table[r].aborted || rt.state != Running))
      || (rt.preparations[r] in {CreatingContainer, PausingContainer} && !ok)
    ensures var after := Step(rt, Continue(r, ok, made));
      && r in after.table && after.table[r].aborted && after.table[r].cleared
      && (r !in after.sessions || (r in after.preparations && after.preparations[r].Undoing?))
  {
    hide FailPreparation;
    UndoingBegins(rt, r);
    UndoingBegins(rt.(containers := rt.containers + {r}), r);
  }

  lemma UndoingBegins(rt: Runtime, r: nat)
    requires r in rt.table
    ensures var after := FailPreparation(rt, r);
      && r in after.table && after.table[r].aborted && after.table[r].cleared
      && (r !in after.sessions || (r in after.preparations && after.preparations[r].Undoing?))
  {}

  /** A session that a shutdown finds still reading its inputs is undone as soon as it opens. */
  lemma LateSessionIsUndone(rt: Runtime, r: nat)
    requires r in rt.preparations && rt.preparations[r] == ReadingInputs && rt.state != Running
    ensures var after := Step(rt, Continue(r, true, false));
      r in after.table && after.table[r].aborted && after.table[r].cleared && r in after.preparations && after.preparations[r].Undoing?
  {}

  /** A command runs exactly on an open, idle session of a running runtime that was neither cancelled nor removed. */
  lemma CommandStartsExactlyWhen(rt: Runtime, c: nat, r: nat, allowed: bool)
    requires c !in rt.calls
    ensures var after := Step(rt, Command(c, r, allowed));
      && c in after.calls && after.calls[c].run == r
      && (after.calls[c].progress == CommandRunning <==>
            && allowed && rt.state == Running && r in rt.sessions && r in rt.table
            && !rt.table[r].aborted && !rt.table[r].removed && !rt.table[r].executing)
      && (after.calls[c].progress != CommandRunning ==> after.calls[c].progress == Threw && after.table == rt.table)
  {}

  /** A command that ends well leaves the session ready for the next. */
  lemma CommandReturns(rt: Runtime, c: nat, r: nat)
    requires Ready(rt, r) && c !in rt.calls
    ensures var after := Step(Step(rt, Command(c, r, true)), CommandEnds(c, true));
      Ready(after, r) && after.calls == rt.calls[c := Call(r, Returned)]
  {
    var started := Step(rt, Command(c, r, true));
    assert started == SetExecuting(SetCall(rt, c, r, CommandRunning), r, true);
  }

  /** One that fails takes the container with it and lets its caller know. */
  lemma FailedCommandRemoves(rt: Runtime, c: nat, r: nat)
    requires Ready(rt, r) && c !in rt.calls
    ensures var failed := Step(Step(rt, Command(c, r, true)), CommandEnds(c, false));
      var after := Step(Step(failed, Removal(|rt.attempts|, true)), Resume(c, true));
      && r in after.table && after.table[r].aborted && after.table[r].removed && !after.table[r].executing
      && r !in after.containers && after.calls[c] == Call(r, Threw)
  {
    var started := Step(rt, Command(c, r, true));
    assert started == SetExecuting(SetCall(rt, c, r, CommandRunning), r, true);
    var failed := Step(started, CommandEnds(c, false));
    assert failed.attempts == rt.attempts + [Attempt(r, InFlight)] && failed.calls[c] == Call(r, CommandUndoing(|rt.attempts|));
    var gone := Step(failed, Removal(|rt.attempts|, true));
    assert gone.attempts[|rt.attempts|] == Attempt(r, Gone) && gone.calls[c] == Call(r, CommandUndoing(|rt.attempts|));
  }

  /** A cancellation stops the session and, once Docker has answered, returns with the container gone. */
  lemma CancelEnds(rt: Runtime, c: nat, r: nat)
    requires Ready(rt, r) && c !in rt.calls
    ensures var after := Step(Step(Step(rt, Cancel(c, r)), Removal(|rt.attempts|, true)), Resume(c, true));
      && r in after.table && after.table[r].aborted && after.table[r].removed && r !in after.containers
      && after.calls[c] == Call(r, Returned)
  {
    var asked := Step(rt, Cancel(c, r));
    assert asked.attempts == rt.attempts + [Attempt(r, InFlight)] && asked.calls[c] == Call(r, CancelRemoving(|rt.attempts|));
    var gone := Step(asked, Removal(|rt.attempts|, true));
    assert gone.attempts[|rt.attempts|] == Attempt(r, Gone) && gone.calls[c] == Call(r, CancelRemoving(|rt.attempts|));
  }

  /** A release ends the session and returns. */
  lemma ReleaseEnds(rt: Runtime, c: nat, r: nat)
    requires Ready(rt, r) && c !in rt.calls
    ensures var after := Step(Step(Step(Step(rt, Release(c, r)), Removal(|rt.attempts|, true)), Resume(c, true)), Resume(c, true));
      Over(after, r) && after.calls[c] == Call(r, Returned)
  {
    var asked := Step(rt, Release(c, r));
    assert asked.attempts == rt.attempts + [Attempt(r, InFlight)] && asked.calls[c] == Call(r, ReleaseRemoving(|rt.attempts|));
    var gone := Step(asked, Removal(|rt.attempts|, true));
    assert gone.attempts[|rt.attempts|] == Attempt(r, Gone) && gone.calls[c] == Call(r, ReleaseRemoving(|rt.attempts|));
    var left := Step(gone, Resume(c, true));
    assert left.calls[c] == Call(r, ReleaseSweeping) && left.sessions == gone.sessions - {r};
  }

  // -- calls that wait or fail ----------------------------------------------------------------

  /** A cancellation or release that waited for a preparation goes on as if it were made after it. */
  lemma WaitingCallGoesOn(rt: Runtime, c: nat, swept: bool)
    requires c in rt.calls && rt.calls[c].progress in {CancelWaiting, ReleaseWaiting}
    ensures var r, later := rt.calls[c].run, rt.(calls := rt.calls - {c});
      Step(rt, Resume(c, swept)) ==
        if r in rt.preparations then rt else Step(later, if rt.calls[c].progress == CancelWaiting then Cancel(c, r) else Release(c, r))
  {
    hide CancelNow, ReleaseNow;
    CancelledAnew(rt, c, rt.calls[c].run);
    ReleasedAnew(rt, c, rt.calls[c].run);
  }

  lemma CancelledAnew(rt: Runtime, c: nat, r: nat)
    ensures CancelNow(rt.(calls := rt.calls - {c}), c, r) == CancelNow(rt, c, r)
  {
    forall p: Progress ensures (rt.calls - {c})[c := Call(r, p)] == rt.calls[c := Call(r, p)] {}
  }

  lemma ReleasedAnew(rt: Runtime, c: nat, r: nat)
    ensures ReleaseNow(rt.(calls := rt.calls - {c}), c, r) == ReleaseNow(rt, c, r)
  {
    forall p: Progress ensures (rt.calls - {c})[c := Call(r, p)] == rt.calls[c := Call(r, p)] {}
  }

  /** Without a session there is nothing to cancel or release. */
  lemma NothingToEnd(rt: Runtime, c: nat, r: nat)
    requires r !in rt.sessions && r !in rt.preparations && c !in rt.calls
    ensures Step(rt, Cancel(c, r)) == rt.(calls := rt.calls[c := Call(r, Returned)])
    ensures Step(rt, Release(c, r)) == rt.(calls := rt.calls[c := Call(r, Returned)])
  {}

  /** Whoever waits for a removal that fails is told so, the session stays, and the next cancellation asks Docker again. */
  lemma FailedRemovalIsRetried(rt: Runtime, c: nat, d: nat, swept: bool)
    requires c in rt.calls && d !in rt.calls && rt.calls[c].run in rt.table
    requires rt.calls[c].run in rt.sessions && rt.calls[c].run !in rt.preparations
    requires AwaitedAttempt(rt.calls[c].progress).Some? && AwaitedAttempt(rt.calls[c].progress).value < |rt.attempts|
    requires rt.attempts[AwaitedAttempt(rt.calls[c].progress).value].settlement == Failed && !rt.table[rt.calls[c].run].removed
    ensures var told := Step(rt, Resume(c, swept));
      && c in told.calls && told.calls[c] == Call(rt.calls[c].run, Threw) && told.sessions == rt.sessions
      && Step(told, Cancel(d, rt.calls[c].run)).attempts == rt.attempts + [Attempt(rt.calls[c].run, InFlight)]
  {
    FailedRemovalIsTold(rt, c, swept);
    RemovalIsAsked(Step(rt, Resume(c, swept)), d, rt.calls[c].run);
    hide Step;
  }

  lemma FailedRemovalIsTold(rt: Runtime, c: nat, swept: bool)
    requires c in rt.calls && rt.calls[c].run in rt.table && AwaitedAttempt(rt.calls[c].progress).Some?
    requires AwaitedAttempt(rt.calls[c].progress).value < |rt.attempts|
    requires rt.attempts[AwaitedAttempt(rt.calls[c].progress).value].settlement == Failed
    ensures var r, told := rt.calls[c].run, Step(rt, Resume(c, swept));
      && told.calls == rt.calls[c := Call(r, Threw)]
      && told.sessions == rt.sessions && told.preparations == rt.preparations && told.attempts == rt.attempts
      && r in told.table && told.table[r].removal == None && told.table[r].removed == rt.table[r].removed
  {
    hide AfterRemoval, CancelNow, ReleaseNow;
    FailureIsTold(rt, c);
  }

  lemma FailureIsTold(rt: Runtime, c: nat)
    requires c in rt.calls && rt.calls[c].run in rt.table && AwaitedAttempt(rt.calls[c].progress).Some?
    ensures var r, told := rt.calls[c].run, AfterRemoval(rt, c, false);
      && told.calls == rt.calls[c := Call(r, Threw)]
      && told.sessions == rt.sessions && told.preparations == rt.preparations && told.attempts == rt.attempts
      && r in told.table && told.table[r].removal == None && told.table[r].removed == rt.table[r].removed
  {}

  lemma RemovalIsAsked(rt: Runtime, d: nat, r: nat)
    requires r in rt.sessions && r !in rt.preparations && d !in rt.calls
    requires r in rt.table && rt.table[r].removal == None && !rt.table[r].removed
    ensures Step(rt, Cancel(d, r)).attempts == rt.attempts + [Attempt(r, InFlight)]
  {}

  /** A preparation whose removal fails ends with its session still in the map, to be removed by a later call. */
  lemma FailedUndoingKeepsSession(rt: Runtime, r: nat, ok: bool, made: bool)
    requires r in rt.preparations && rt.preparations[r].Undoing? && r in rt.table && rt.preparations[r].attempt < |rt.attempts|
    requires rt.attempts[rt.preparations[r].attempt].settlement == Failed
    ensures var after := Step(rt, Continue(r, ok, made));
      && r !in after.preparations && after.sessions == rt.sessions && r in after.table && after.table[r].removal == None
  {}

  /** A release or shutdown entry whose final clean-up fails is told so. */
  lemma FailedCleanUpIsReported(rt: Runtime, c: nat, swept: bool)
    requires c in rt.calls && rt.calls[c].progress in {ReleaseSweeping, ShutdownSweeping}
    ensures Step(rt, Resume(c, swept)) == rt.(calls := rt.calls[c := Call(rt.calls[c].run, if swept then Returned else Threw)])
  {}

  /** An entry of the final removal has failed. */
  predicate FailedEntry(rt: Runtime, c: nat) {
    && rt.state == ShuttingDown && rt.shutdown.Removing? && c in rt.shutdown.entries
    && c in rt.calls && rt.calls[c].progress == Threw
  }

  /** A shutdown with a failed entry never closes the runtime. */
  lemma {:induction false} FailedEntryBlocksClosing(rt: Runtime, c: nat, more: seq<Action>)
    requires FailedEntry(rt, c)
    ensures FailedEntry(Run(rt, more), c) && Run(rt, more).state != Closed
  {
    hide Step, FailedEntry;
    if more != [] {
      FailedEntryBlocksClosing(rt, c, more[..|more| - 1]);
      FailedEntryStays(Run(rt, more[..|more| - 1]), c, more[|more| - 1]);
    }
    assert FailedEntry(Run(rt, more), c);
    FailedEntryIsOpen(Run(rt, more), c);
  }

  lemma FailedEntryIsOpen(rt: Runtime, c: nat)
    requires FailedEntry(rt, c)
    ensures rt.state != Closed
  {}

  lemma FailedEntryStays(rt: Runtime, c: nat, a: Action)
    requires FailedEntry(rt, c)
    ensures FailedEntry(Step(rt, a), c)
  {
    hide ContinuePreparation, StartCommand, FinishCommand, StartCancel, StartRelease, ShutdownEntry, ResumeCall;
    match a
    case Continue(r, ok, made) => PreparationsMakeNoCalls(rt, r, ok, made);
    case Command(d, r, allowed) => NewCallsLeaveOld(rt, c, d, r, allowed);
    case Cancel(d, r) => NewCallsLeaveOld(rt, c, d, r, true);
    case Release(d, r) => NewCallsLeaveOld(rt, c, d, r, true);
    case CommandEnds(d, ok) => EndedCommandsStay(rt, c, d, ok);
    case Resume(d, swept) => EndedCallsStay(rt, c, d, swept);
    case Entry(d, r) => EntriesGrow(rt, c, d, r);
    case _ =>
  }

  /** The calls and the shutdown are as they were. */
  predicate CallsKept(before: Runtime, after: Runtime) {
    after.calls == before.calls && after.state == before.state && after.shutdown == before.shutdown
  }

  lemma UndoingMakesNoCalls(rt: Runtime, r: nat)
    requires r in rt.table
    ensures CallsKept(rt, FailPreparation(rt, r))
  {}

  lemma ProceedingMakesNoCalls(rt: Runtime, r: nat, stage: Stage, ok: bool, made: bool)
    requires r in rt.table
    ensures CallsKept(rt, Proceed(rt, r, stage, ok, made))
  {
    hide FailPreparation;
    UndoingMakesNoCalls(rt, r);
    UndoingMakesNoCalls(rt.(containers := rt.containers + {r}), r);
  }

  lemma OpeningMakesNoCalls(rt: Runtime, r: nat)
    ensures CallsKept(rt, OpenSession(rt, r))
  {
    hide FailPreparation;
    var listed := rt.(sessions := rt.sessions + {r}, table := rt.table[r := Session(false, false, false, false, None)]);
    UndoingMakesNoCalls(SetStage(listed, r, RunningGit), r);
  }

  lemma PreparationsMakeNoCalls(rt: Runtime, r: nat, ok: bool, made: bool)
    ensures CallsKept(rt, ContinuePreparation(rt, r, ok, made))
  {
    hide Proceed, OpenSession;
    OpeningMakesNoCalls(rt, r);
    if r in rt.preparations && r in rt.table {
      ProceedingMakesNoCalls(rt, r, rt.preparations[r], ok, made);
    }
  }

  lemma NewCallsLeaveOld(rt: Runtime, c: nat, d: nat, r: nat, allowed: bool)
    requires c in rt.calls
    ensures var after := StartCommand(rt, d, r, allowed);
      c in after.calls && after.calls[c] == rt.calls[c] && after.state == rt.state && after.shutdown == rt.shutdown
    ensures var after := StartCancel(rt, d, r);
      c in after.calls && after.calls[c] == rt.calls[c] && after.state == rt.state && after.shutdown == rt.shutdown
    ensures var after := StartRelease(rt, d, r);
      c in after.calls && after.calls[c] == rt.calls[c] && after.state == rt.state && after.shutdown == rt.shutdown
  {}

  /** Of the calls, at most this one has changed. */
  predicate OthersKept(before: Runtime, after: Runtime, d: nat) {
    && after.state == before.state && after.shutdown == before.shutdown
    && forall c :: c in before.calls && c != d ==> c in after.calls && after.calls[c] == before.calls[c]
  }

  lemma RemovalGoesOn(rt: Runtime, d: nat, gone: bool)
    requires d in rt.calls && rt.calls[d].run in rt.table
    ensures OthersKept(rt, AfterRemoval(rt, d, gone), d)
  {}

  lemma EndsGoOn(rt: Runtime, d: nat, r: nat)
    ensures OthersKept(rt, CancelNow(rt, d, r), d)
    ensures OthersKept(rt, ReleaseNow(rt, d, r), d)
  {}

  lemma EndedCallsStay(rt: Runtime, c: nat, d: nat, ok: bool)
    requires c in rt.calls && rt.calls[c].progress == Threw
    ensures var after := ResumeCall(rt, d, ok);
      c in after.calls && after.calls[c] == rt.calls[c] && after.state == rt.state && after.shutdown == rt.shutdown
  {
    hide CancelNow, ReleaseNow, AfterRemoval;
    if d in rt.calls {
      EndsGoOn(rt, d, rt.calls[d].run);
      if rt.calls[d].run in rt.table {
        RemovalGoesOn(rt, d, true);
        RemovalGoesOn(rt, d, false);
      }
    }
  }

  lemma EndedCommandsStay(rt: Runtime, c: nat, d: nat, ok: bool)
    requires c in rt.calls && rt.calls[c].progress == Threw
    ensures var after := FinishCommand(rt, d, ok);
      c in after.calls && after.calls[c] == rt.calls[c] && after.state == rt.state && after.shutdown == rt.shutdown
  {}

  lemma EntriesGrow(rt: Runtime, c: nat, d: nat, r: nat)
    requires FailedEntry(rt, c)
    ensures FailedEntry(ShutdownEntry(rt, d, r), c)
  {}

  // -- shutdown ---------------------------------------------------------------------------------

  /** No preparation is pending, and no removal has been asked for yet. */
  predicate Calm(rt: Runtime) {
    && rt.preparations == map[]
    && forall r :: r in rt.sessions ==> r in rt.table && !rt.table[r].removed && rt.table[r].removal == None
  }

  /** The final removal, with the entries made so far all returned. */
  predicate Emptying(rt: Runtime) {
    && Calm(rt) && rt.state == ShuttingDown && rt.shutdown.Removing? && rt.shutdown.todo == rt.sessions
    && forall c :: c in rt.shutdown.entries ==> c in rt.calls && rt.calls[c].progress == Returned
  }

  lemma {:induction false} UnusedId(used: set<nat>) returns (c: nat)
    ensures c !in used && forall d :: d in used ==> d < c
  {
    if used == {} {
      c := 0;
    } else {
      var d :| d in used;
      var e := UnusedId(used - {d});
      c := if d >= e then d + 1 else e;
      forall u | u in used ensures u < c {
        assert u == d || u in used - {d};
      }
    }
  }

  lemma RunOnce(rt: Runtime, a: Action)
    ensures Run(rt, [a]) == Step(rt, a)
  {
    assert [a][..0] == [];
  }

  lemma {:induction false} RunBoth(rt: Runtime, first: seq<Action>, second: seq<Action>)
    ensures Run(rt, first + second) == Run(Run(rt, first), second)
  {
    hide Step;
    if second == [] {
      assert first + second == first;
    } else {
      assert (first + second)[..|first + second| - 1] == first + second[..|second| - 1];
      RunBoth(rt, first, second[..|second| - 1]);
    }
  }

  /** An entry of the final removal whose container is gone. */
  lemma EntryRemoves(rt: Runtime, c: nat, r: nat)
    requires Emptying(rt) && r in rt.sessions && c !in rt.calls
    ensures var k, gone := |rt.attempts|, Step(Step(rt, Entry(c, r)), Removal(|rt.attempts|, true));
      gone == rt.(attempts := rt.attempts + [Attempt(r, Gone)], containers := rt.containers - {r},
                  table := rt.table[r := Session(true, true, true, rt.table[r].executing, Some(k))],
                  calls := rt.calls[c := Call(r, ShutdownRemoving(k))],
                  shutdown := Removing(rt.shutdown.todo - {r}, rt.shutdown.entries + {c}))
  {
    var k := |rt.attempts|;
    var entered := Step(rt, Entry(c, r));
    assert entered.attempts == rt.attempts + [Attempt(r, InFlight)];
    assert entered.table == rt.table[r := Session(true, false, true, rt.table[r].executing, Some(k))];
    assert entered.attempts[k := Attempt(r, Gone)] == rt.attempts + [Attempt(r, Gone)];
  }

  /** One entry of the final removal, from start to end. */
  lemma EntryEnds(rt: Runtime, c: nat, r: nat)
    requires Emptying(rt) && r in rt.sessions && c !in rt.calls
    ensures var after := Step(Step(Step(Step(rt, Entry(c, r)), Removal(|rt.attempts|, true)), Resume(c, true)), Resume(c, true));
      Emptying(after) && after.sessions == rt.sessions - {r}
  {
    var gone := Step(Step(rt, Entry(c, r)), Removal(|rt.attempts|, true));
    EntryRemoves(rt, c, r);
    EntryLeaves(gone, c, r);
    hide Step;
  }

  lemma EntryLeaves(rt: Runtime, c: nat, r: nat)
    requires c in rt.calls && rt.calls[c].run == r && rt.calls[c].progress.ShutdownRemoving? && r in rt.table
    requires rt.calls[c].progress.attempt < |rt.attempts| && rt.attempts[rt.calls[c].progress.attempt].settlement == Gone
    ensures Step(Step(rt, Resume(c, true)), Resume(c, true)) ==
      rt.(sessions := rt.sessions - {r}, calls := rt.calls[c := Call(r, Returned)])
  {
    var left := Step(rt, Resume(c, true));
    assert left == rt.(sessions := rt.sessions - {r}, calls := rt.calls[c := Call(r, ShutdownSweeping)]);
  }

  lemma {:induction false} EmptyingCloses(rt: Runtime) returns (more: seq<Action>)
    requires Emptying(rt)
    ensures Run(rt, more).state == Closed && Run(rt, more).sessions == {} && Run(rt, more).preparations == map[]
    decreases |rt.sessions|
  {
    if rt.sessions == {} {
      more := [Close];
      RunOnce(rt, Close);
    } else {
      var r :| r in rt.sessions;
      var c := UnusedId(rt.calls.Keys);
      EntryEnds(rt, c, r);
      hide Emptying, Step;
      var steps := [Entry(c, r)] + [Removal(|rt.attempts|, true)] + [Resume(c, true)] + [Resume(c, true)];
      var after := Step(Step(Step(Step(rt, Entry(c, r)), Removal(|rt.attempts|, true)), Resume(c, true)), Resume(c, true));
      RunFour(rt, Entry(c, r), Removal(|rt.attempts|, true), Resume(c, true), Resume(c, true));
      var rest := EmptyingCloses(after);
      more := steps + rest;
      RunBoth(rt, steps, rest);
    }
  }

  lemma RunFour(rt: Runtime, a: Action, b: Action, c: Action, d: Action)
    ensures Run(rt, [a] + [b] + [c] + [d]) == Step(Step(Step(Step(rt, a), b), c), d)
  {
    hide Step;
    RunOnce(rt, a);
    RunBoth(rt, [a], [b]);
    RunOnce(Run(rt, [a]), b);
    RunBoth(rt, [a] + [b], [c]);
    RunOnce(Run(rt, [a] + [b]), c);
    RunBoth(rt, [a] + [b] + [c], [d]);
    RunOnce(Run(rt, [a] + [b] + [c]), d);
  }

  /** However many sessions are open, a shutdown of a calm runtime can run to its end. */
  lemma ShutdownCanComplete(rt: Runtime) returns (more: seq<Action>)
    requires Calm(rt) && rt.state == Running
    ensures Run(rt, [AskShutdown] + more).state == Closed && Run(rt, [AskShutdown] + more).sessions == {}
  {
    var asked := Step(rt, AskShutdown);
    var collected := Step(asked, Collect);
    assert asked.sessions == rt.sessions && forall r :: r in rt.sessions ==> r in asked.table && asked.table[r] == rt.table[r].(aborted := true);
    assert Emptying(collected);
    hide Step, Emptying;
    var rest := EmptyingCloses(collected);
    more := [Collect] + rest;
    RunOnce(rt, AskShutdown);
    RunBoth(rt, [AskShutdown], more);
    RunOnce(asked, Collect);
    RunBoth(asked, [Collect], rest);
  }
}
