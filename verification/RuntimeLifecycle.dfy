/** The paired start and stop of the Dispatcher and the capability-resume coordinator in
    backend/main.py. A call that raises may leave its own component in either state. */
module RuntimeLifecycle {

  datatype Component = Running | Stopped

  /** How a transition ends. All but `Completed` and `Cancelled` raise. */
  datatype Ending =
    | Completed
    | Cancelled            // the caller was cancelled; the transition itself completed
    | DispatcherRefused    // dispatcher.start raised; nothing else was called
    | RolledBack           // the coordinator did not start and both were stopped again
    | RollbackUnconfirmed  // ... and its own shutdown raised; the Dispatcher is stopped
    | Restored             // a stop failed and the resume producer was started again
    | Unrestorable         // a stop failed and so did starting the resume producer

  datatype Operation = DispatcherStart | DispatcherStop | ResumeStart | ResumeShutdown

  /** A call to one of the components, and whether it raised. */
  datatype Call = Call(operation: Operation, raised: bool)

  /** The calls a start makes, by the way it ends: nothing is skipped and nothing comes in another order. */
  predicate StartCalls(e: Ending, made: seq<Call>) {
    match e
    case Completed => made == [Call(DispatcherStart, false), Call(ResumeStart, false)]
    case DispatcherRefused => made == [Call(DispatcherStart, true)]
    case RolledBack => made == Rollback(false) + [Call(DispatcherStop, false)]
    case RollbackUnconfirmed => made == Rollback(true) + [Call(DispatcherStop, false)]
    case Restored => RollbackFailure(made, false)
    case Unrestorable => RollbackFailure(made, true)
    case Cancelled => false
  }

  predicate RollbackFailure(made: seq<Call>, startRaised: bool) {
    || made == Rollback(false) + [Call(DispatcherStop, true), Call(ResumeStart, startRaised)]
    || made == Rollback(true) + [Call(DispatcherStop, true), Call(ResumeStart, startRaised)]
  }

  function Rollback(shutdownRaised: bool): seq<Call> {
    [Call(DispatcherStart, false), Call(ResumeStart, true), Call(ResumeShutdown, shutdownRaised)]
  }

  /** The calls a stop makes, by the way it ends. */
  predicate StopCalls(e: Ending, made: seq<Call>) {
    match e
    case Completed => made == [Call(ResumeShutdown, false), Call(DispatcherStop, false)]
    case Restored => StopFailure(made, false)
    case Unrestorable => StopFailure(made, true)
    case _ => false
  }

  predicate StopFailure(made: seq<Call>, startRaised: bool) {
    || made == [Call(ResumeShutdown, true), Call(ResumeStart, startRaised)]
    || made == [Call(ResumeShutdown, false), Call(DispatcherStop, true), Call(ResumeStart, startRaised)]
  }

  /** The transition inside: cancelling the caller does not touch it. */
  function Inner(e: Ending): Ending { if e == Cancelled then Completed else e }

  class Runtime {
    var dispatcher: Component
    var resume: Component
    ghost var calls: seq<Call>

    method StartDispatcher() returns (raised: bool)
      modifies this`dispatcher, this`calls
      ensures !raised ==> dispatcher == Running
      ensures calls == old(calls) + [Call(DispatcherStart, raised)]
    {
      raised := *;
      calls := calls + [Call(DispatcherStart, raised)];
      if raised { dispatcher := *; } else { dispatcher := Running; }
    }

    method StopDispatcher() returns (raised: bool)
      modifies this`dispatcher, this`calls
      ensures !raised ==> dispatcher == Stopped
      ensures calls == old(calls) + [Call(DispatcherStop, raised)]
    {
      raised := *;
      calls := calls + [Call(DispatcherStop, raised)];
      if raised { dispatcher := *; } else { dispatcher := Stopped; }
    }

    method StartResume() returns (raised: bool)
      modifies this`resume, this`calls
      ensures !raised ==> resume == Running
      ensures calls == old(calls) + [Call(ResumeStart, raised)]
    {
      raised := *;
      calls := calls + [Call(ResumeStart, raised)];
      if raised { resume := *; } else { resume := Running; }
    }

    method ShutdownResume() returns (raised: bool)
      modifies this`resume, this`calls
      ensures !raised ==> resume == Stopped
      ensures calls == old(calls) + [Call(ResumeShutdown, raised)]
    {
      raised := *;
      calls := calls + [Call(ResumeShutdown, raised)];
      if raised { resume := *; } else { resume := Stopped; }
    }

    /** `_restore_capability_resume_after_stop_failure`: it always raises. */
    method RestoreAfterStopFailure() returns (e: Ending)
      modifies this`resume, this`calls
      ensures e in {Restored, Unrestorable}
      ensures e == Restored ==> resume == Running
      ensures calls == old(calls) + [Call(ResumeStart, e == Unrestorable)]
    {
      var raised := StartResume();
      e := if raised then Unrestorable else Restored;
    }

    /** `_start_dispatcher_runtime_locked`. */
    method StartLocked() returns (e: Ending)
      modifies this
      ensures e !in {Cancelled}
      ensures e == Completed ==> dispatcher == Running && resume == Running
      ensures e == DispatcherRefused ==> resume == old(resume)
      ensures e == RolledBack ==> dispatcher == Stopped && resume == Stopped
      ensures e == RollbackUnconfirmed ==> dispatcher == Stopped
      ensures e == Restored ==> resume == Running
      ensures exists made | calls == old(calls) + made :: StartCalls(e, made)
    {
      ghost var before := calls;
      var raised := StartDispatcher();
      if raised {
        assert calls == before + [Call(DispatcherStart, true)];
        return DispatcherRefused;
      }
      raised := StartResume();
      if !raised {
        assert calls == before + [Call(DispatcherStart, false), Call(ResumeStart, false)];
        return Completed;
      }
      var shutdownRaised := ShutdownResume();
      var stopRaised := StopDispatcher();
      assert calls == before + (Rollback(shutdownRaised) + [Call(DispatcherStop, stopRaised)]);
      if stopRaised {
        e := RestoreAfterStopFailure();
        assert calls == before + (Rollback(shutdownRaised) + [Call(DispatcherStop, true), Call(ResumeStart, e == Unrestorable)]);
        return;
      }
      e := if shutdownRaised then RollbackUnconfirmed else RolledBack;
    }

    /** `_stop_dispatcher_runtime_locked`: the resume producer goes down first and is brought up again
        when anything fails. */
    method StopLocked() returns (e: Ending)
      modifies this
      ensures e in {Completed, Restored, Unrestorable}
      ensures e == Completed ==> dispatcher == Stopped && resume == Stopped
      ensures e == Restored ==> resume == Running
      ensures exists made | calls == old(calls) + made :: StopCalls(e, made)
    {
      ghost var before := calls;
      var raised := ShutdownResume();
      if raised {
        raised := StartResume();
        assert calls == before + [Call(ResumeShutdown, true), Call(ResumeStart, raised)];
        return if raised then Unrestorable else Restored;
      }
      raised := StopDispatcher();
      assert calls == before + [Call(ResumeShutdown, false), Call(DispatcherStop, raised)];
      if raised {
        e := RestoreAfterStopFailure();
        assert calls == before + [Call(ResumeShutdown, false), Call(DispatcherStop, true), Call(ResumeStart, e == Unrestorable)];
        return;
      }
      e := Completed;
    }

    /** `start_dispatcher_runtime`: a cancelled caller still waits for the transition to settle, and a
        failure of the transition takes precedence over the cancellation. */
    method Start(cancelled: bool) returns (e: Ending)
      modifies this
      ensures e in {Completed, Cancelled} ==> dispatcher == Running && resume == Running
      ensures e == Completed ==> !cancelled
      ensures e == Cancelled ==> cancelled
      ensures e == DispatcherRefused ==> resume == old(resume)
      ensures exists made | calls == old(calls) + made :: StartCalls(Inner(e), made)
      ensures e == RolledBack ==> dispatcher == Stopped && resume == Stopped
      ensures e == RollbackUnconfirmed ==> dispatcher == Stopped
      ensures e == Restored ==> resume == Running
    {
      e := StartLocked();
      if e == Completed && cancelled { e := Cancelled; }
    }

    /** `stop_dispatcher_runtime`. */
    method Stop(cancelled: bool) returns (e: Ending)
      modifies this
      ensures e in {Completed, Cancelled, Restored, Unrestorable}
      ensures e in {Completed, Cancelled} ==> dispatcher == Stopped && resume == Stopped
      ensures e == Completed ==> !cancelled
      ensures e == Cancelled ==> cancelled
      ensures exists made | calls == old(calls) + made :: StopCalls(Inner(e), made)
      ensures e !in {Completed, Cancelled, Unrestorable} ==> resume == Running
    {
      e := StopLocked();
      if e == Completed && cancelled { e := Cancelled; }
    }
  }

  // ---- Sequences of transitions ----

  datatype Command = StartCommand | StopCommand

  datatype Settled = Settled(dispatcher: Component, resume: Component)

  datatype Transition = Transition(command: Command, ending: Ending, calls: seq<Call>, after: Settled)

  /** What the two contracts promise of one transition. */
  predicate Promised(t: Transition) {
    match t.command
    case StartCommand =>
      && StartCalls(Inner(t.ending), t.calls)
      && (t.ending in {Completed, Cancelled} ==> t.after == Settled(Running, Running))
      && (t.ending == RolledBack ==> t.after == Settled(Stopped, Stopped))
      && (t.ending == RollbackUnconfirmed ==> t.after.dispatcher == Stopped)
      && (t.ending == Restored ==> t.after.resume == Running)
    case StopCommand =>
      && t.ending in {Completed, Cancelled, Restored, Unrestorable}
      && StopCalls(Inner(t.ending), t.calls)
      && (t.ending in {Completed, Cancelled} ==> t.after == Settled(Stopped, Stopped))
      && (t.ending == Restored ==> t.after.resume == Running)
  }

  /** The calls of the transitions one after the other: none of them overlap. */
  function Made(history: seq<Transition>): seq<Call> {
    if history == [] then [] else Made(history[..|history| - 1]) + history[|history| - 1].calls
  }

  /** One command, under the lock. */
  method Transit(runtime: Runtime, command: Command, cancelled: bool) returns (ghost t: Transition)
    modifies runtime
    ensures t.command == command && Promised(t) && t.after == Settled(runtime.dispatcher, runtime.resume)
    ensures runtime.calls == old(runtime.calls) + t.calls
    ensures (t.ending == Cancelled ==> cancelled) && (t.ending == Completed ==> !cancelled)
  {
    hide StartCalls, StopCalls;
    ghost var before := runtime.calls;
    var e;
    ghost var made;
    if command == StartCommand {
      e := runtime.Start(cancelled);
      made :| runtime.calls == before + made && StartCalls(Inner(e), made);
    } else {
      e := runtime.Stop(cancelled);
      made :| runtime.calls == before + made && StopCalls(Inner(e), made);
    }
    t := Transition(command, e, made, Settled(runtime.dispatcher, runtime.resume));
  }

  /** The lifecycle lock serialises the callers: any sequence of commands leaves a sequence of
      transitions each of which keeps its promise, whatever state the one before it left. */
  method Serve(runtime: Runtime, commands: seq<Command>, cancelled: seq<bool>) returns (ghost history: seq<Transition>)
    requires |cancelled| == |commands|
    modifies runtime
    ensures |history| == |commands|
    ensures forall k | 0 <= k < |commands| :: history[k].command == commands[k] && Promised(history[k])
    ensures forall k | 0 <= k < |commands| && history[k].ending == Cancelled :: cancelled[k]
    ensures forall k | 0 <= k < |commands| && history[k].ending == Completed :: !cancelled[k]
    ensures commands != [] ==> history[|history| - 1].after == Settled(runtime.dispatcher, runtime.resume)
    ensures runtime.calls == old(runtime.calls) + Made(history)
  {
    hide Promised;
    history := [];
    for k := 0 to |commands|
      invariant |history| == k
      invariant forall j | 0 <= j < k :: history[j].command == commands[j] && Promised(history[j])
      invariant forall j | 0 <= j < k && history[j].ending == Cancelled :: cancelled[j]
      invariant forall j | 0 <= j < k && history[j].ending == Completed :: !cancelled[j]
      invariant runtime.calls == old(runtime.calls) + Made(history)
      invariant k > 0 ==> history[k - 1].after == Settled(runtime.dispatcher, runtime.resume)
    {
      ghost var t := Transit(runtime, commands[k], cancelled[k]);
      assert (history + [t])[..k] == history;
      history := history + [t];
    }
  }
}
