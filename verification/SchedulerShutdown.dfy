/** A shutdown that has begun never deadlocks: whatever has happened, it can still be completed. */
module SchedulerShutdown {
  import opened Basics
  import opened SchedulerModel
  import opened SchedulerInvariant
  import opened SchedulerSteps
  import opened SchedulerTheorems
  import opened SchedulerStranding

  ghost predicate Begun(s: State) {
    !s.shutdown.NotStarted?
  }

  // ---------------------------------------------------------------- one step at a time

  lemma CompleteLeaves(s: State, v: Worker)
    requires Inv(s) && Begun(s) && v in s.active && s.active[v].verdict.Decided?
    ensures var after := Step(s, WorkerComplete(v));
      Inv(after) && Begun(after) && |after.active| == |s.active| - 1 && after.options == s.options
  {
    hide Inv, Step, WorkerCompleteStep;
    WorkerSteps(s, v, 0, Threw);
    ActiveIsJob(s, v);
    StepInv(s, WorkerComplete(v));
    WorkerCompleteFields(s, v);
    FewerActive(s.active, v);
  }

  /** Every running job can return and be completed. */
  lemma OneReturns(s: State, v: Worker) returns (more: seq<Event>)
    requires Inv(s) && Begun(s) && v in s.active
    ensures var after := Continue(s, more);
      Inv(after) && Begun(after) && |after.active| == |s.active| - 1 && after.options == s.options
  {
    hide Inv, Step, WorkerReturnStep, Begun;
    if s.active[v].verdict.Decided? {
      CompleteLeaves(s, v);
      more := [WorkerComplete(v)];
      OneEvent(s, WorkerComplete(v));
    } else {
      var first := Step(s, WorkerReturn(v, Returned(Completed)));
      WorkerSteps(s, v, 0, Returned(Completed));
      ReturnFields(s, v);
      StepInv(s, WorkerReturn(v, Returned(Completed)));
      assert Begun(first) by { SamePhase(s, first); }
      assert |first.active| == |first.active.Keys| == |s.active.Keys| == |s.active|;
      CompleteLeaves(first, v);
      more := [WorkerReturn(v, Returned(Completed))] + [WorkerComplete(v)];
      OneEvent(first, WorkerComplete(v));
      FirstStep(s, WorkerReturn(v, Returned(Completed)), [WorkerComplete(v)]);
    }
  }

  lemma SamePhase(s: State, after: State)
    requires Begun(s) && after.shutdown == s.shutdown
    ensures Begun(after)
  {
  }

  lemma OneEvent(s: State, e: Event)
    ensures Continue(s, [e]) == Step(s, e)
  {
    hide Step;
    assert [e][1..] == [];
  }

  lemma {:induction false} AllReturn(s: State) returns (more: seq<Event>)
    requires Inv(s) && Begun(s)
    ensures var after := Continue(s, more);
      Inv(after) && Begun(after) && after.active == map[] && after.options == s.options
    decreases |s.active|
  {
    hide Inv, Step, Begun, Continue;
    if v :| v in s.active {
      var first := OneReturns(s, v);
      var rest := AllReturn(Continue(s, first));
      more := first + rest;
      ContinueFurther(s, first, rest);
    } else {
      more := [];
      NoEvent(s);
      assert s.active.Keys == {};
    }
  }

  lemma NoEvent(s: State)
    ensures Continue(s, []) == s
  {
  }

  lemma {:induction false} ContinueFurther(s: State, a: seq<Event>, b: seq<Event>)
    ensures Continue(s, a + b) == Continue(Continue(s, a), b)
    decreases |a|
  {
    hide Step;
    if a == [] {
      assert a + b == b;
    } else {
      assert (a + b)[1..] == a[1..] + b;
      ContinueFurther(Step(s, a[0]), a[1..], b);
    }
  }

  // ---------------------------------------------------------------- when nothing runs any more

  /** A shutdown is under way and nothing runs. */
  ghost predicate Calm(s: State) {
    Inv(s) && Begun(s) && s.active == map[]
  }

  lemma SettleOne(s: State, w: Worker)
    requires Calm(s) && w in s.settling
    ensures var after := Step(s, WorkerSettle(w));
      && Calm(after) && |after.settling| == |s.settling| - 1
      && after.stops == s.stops && after.shutdown == s.shutdown && after.options == s.options
  {
    hide Inv, Step;
    WorkerSteps(s, w, 0, Threw);
    StepInv(s, WorkerSettle(w));
    FewerSettling(s.settling, w);
  }

  lemma FewerSettling(settling: map<Worker, Ticket>, w: Worker)
    requires w in settling
    ensures |settling - {w}| == |settling| - 1
  {
    assert (settling - {w}).Keys == settling.Keys - {w};
    assert |settling - {w}| == |(settling - {w}).Keys|;
  }

  /** The events of a shutdown and of a stop are their sections. */
  lemma ClosingSteps(s: State, caller: Caller, w: Worker)
    ensures Step(s, StopFinish(caller)) == StopFinishStep(s, caller)
    ensures Step(s, WorkerExit(w)) == WorkerExitStep(s, w)
    ensures Step(s, ShutdownBegin(false)) == ShutdownBeginStep(s, false)
  {
    hide SubmitStep, PauseStep, ResumeStep, StopBeginStep, StopFinishStep, RequestCancellationStep, ShutdownBeginStep,
      ShutdownResolveStep, ShutdownCancelStep, ShutdownRequestStopStep, ShutdownJoinStep, WorkerTakeStep,
      WorkerReturnStep, WorkerCompleteStep, WorkerSettleStep, WorkerExitStep;
  }

  lemma StopFinishes(s: State, caller: Caller)
    requires caller in s.stops
    ensures var after := StopFinishStep(s, caller);
      && after.stops == s.stops - {caller}
      && after.settling == s.settling && after.shutdown == s.shutdown && after.active == s.active
  {
    hide SetPromise;
  }

  lemma StopOne(s: State, caller: Caller)
    requires Calm(s) && caller in s.stops
    ensures var after := Step(s, StopFinish(caller));
      && Calm(after) && |after.stops| == |s.stops| - 1
      && after.settling == s.settling && after.shutdown == s.shutdown && after.options == s.options
  {
    hide Inv, Step, StopFinishStep;
    ClosingSteps(s, caller, 0);
    StopFinishes(s, caller);
    StepInv(s, StopFinish(caller));
    FewerStops(s.stops, caller);
  }

  lemma FewerStops(stops: map<Caller, StopCall>, caller: Caller)
    requires caller in stops
    ensures |stops - {caller}| == |stops| - 1
  {
    assert (stops - {caller}).Keys == stops.Keys - {caller};
    assert |stops - {caller}| == |(stops - {caller}).Keys|;
  }

  /** Nothing is left to settle, by a worker or by a caller of Stop. */
  ghost predicate Settled(s: State) {
    Calm(s) && s.settling == map[] && s.stops == map[]
  }

  lemma {:induction false} AllSettled(s: State) returns (more: seq<Event>)
    requires Calm(s)
    ensures var after := Continue(s, more);
      Settled(after) && after.shutdown == s.shutdown && after.options == s.options
    decreases |s.settling| + |s.stops|
  {
    hide Inv, Step, Continue, Calm;
    if w :| w in s.settling {
      SettleOne(s, w);
      var rest := AllSettled(Step(s, WorkerSettle(w)));
      more := [WorkerSettle(w)] + rest;
      FirstStep(s, WorkerSettle(w), rest);
    } else if caller :| caller in s.stops {
      StopOne(s, caller);
      var rest := AllSettled(Step(s, StopFinish(caller)));
      more := [StopFinish(caller)] + rest;
      FirstStep(s, StopFinish(caller), rest);
    } else {
      more := [];
      NoEvent(s);
      assert s.settling.Keys == {} && s.stops.Keys == {};
    }
  }

  lemma ResolveOne(s: State)
    requires Settled(s) && s.shutdown.Resolving? && s.shutdown.queued != []
    ensures var after := Step(s, ShutdownResolve);
      && Settled(after) && after.options == s.options
      && after.shutdown == Resolving(s.shutdown.queued[1..], s.shutdown.running)
  {
    hide Inv, SetPromise;
    StepInv(s, ShutdownResolve);
  }

  lemma CancelOne(s: State, t: Ticket)
    requires Settled(s) && s.shutdown.Resolving? && s.shutdown.queued == [] && t in s.shutdown.running
    ensures var after := Step(s, ShutdownCancel(t));
      && Settled(after) && after.options == s.options
      && after.shutdown == Resolving([], s.shutdown.running - {t})
  {
    hide Inv;
    StepInv(s, ShutdownCancel(t));
  }

  lemma {:induction false} AllResolved(s: State) returns (more: seq<Event>)
    requires Settled(s) && s.shutdown.Resolving?
    ensures var after := Continue(s, more);
      Settled(after) && after.shutdown == Joining && after.options == s.options
    decreases |s.shutdown.queued| + |s.shutdown.running|
  {
    hide Inv, Step, Continue, Settled;
    if s.shutdown.queued != [] {
      ResolveOne(s);
      var rest := AllResolved(Step(s, ShutdownResolve));
      more := [ShutdownResolve] + rest;
      FirstStep(s, ShutdownResolve, rest);
    } else if t :| t in s.shutdown.running {
      CancelOne(s, t);
      var rest := AllResolved(Step(s, ShutdownCancel(t)));
      more := [ShutdownCancel(t)] + rest;
      FirstStep(s, ShutdownCancel(t), rest);
    } else {
      AskToLeave(s);
      more := [ShutdownRequestStop];
      OneEvent(s, ShutdownRequestStop);
    }
  }

  lemma AskToLeave(s: State)
    requires Settled(s) && s.shutdown == Resolving([], {})
    ensures var after := Step(s, ShutdownRequestStop);
      Settled(after) && after.options == s.options && after.shutdown == Joining
  {
    hide Inv;
    StepInv(s, ShutdownRequestStop);
  }

  lemma ClosedQueue(s: State)
    requires Inv(s) && s.shutdown == Joining
    ensures s.queue == []
  {
    hide Core;
  }

  lemma ExitOne(s: State, w: Worker)
    requires Settled(s) && s.shutdown == Joining && w < s.options.workerCount
    ensures var after := Step(s, WorkerExit(w));
      && Settled(after) && after.options == s.options && after.shutdown == Joining
      && after.exited == s.exited + {w}
  {
    hide Inv, Step;
    ClosingSteps(s, 0, w);
    ClosedQueue(s);
    StepInv(s, WorkerExit(w));
    assert w in s.exited ==> s.exited == s.exited + {w};
  }

  /** The workers from `next` on leave, and then the shutdown returns. */
  lemma {:induction false} AllLeave(s: State, next: Worker) returns (more: seq<Event>)
    requires Settled(s) && s.shutdown == Joining && next <= s.options.workerCount
    requires forall w :: 0 <= w < next ==> w in s.exited
    ensures var after := Continue(s, more); Settled(after) && after.shutdown == Complete
    decreases s.options.workerCount - next
  {
    hide Inv, Step, Continue, Settled;
    if next == s.options.workerCount {
      JoinOne(s);
      more := [ShutdownJoin];
      OneEvent(s, ShutdownJoin);
    } else {
      ExitOne(s, next);
      var rest := AllLeave(Step(s, WorkerExit(next)), next + 1);
      more := [WorkerExit(next)] + rest;
      FirstStep(s, WorkerExit(next), rest);
    }
  }

  lemma JoinOne(s: State)
    requires Settled(s) && s.shutdown == Joining && AllExited(s)
    ensures var after := Step(s, ShutdownJoin); Settled(after) && after.shutdown == Complete
  {
    hide Inv;
    StepInv(s, ShutdownJoin);
  }

  // ---------------------------------------------------------------- the whole shutdown

  lemma Begin(s: State)
    requires Inv(s)
    ensures var after := Step(s, ShutdownBegin(false)); Inv(after) && Begun(after) && after.options == s.options
  {
    hide Inv, Step, CancelAllQueued, MarkRunning;
    ClosingSteps(s, 0, 0);
    StepInv(s, ShutdownBegin(false));
    if s.shutdown.NotStarted? {
      hide Closing;
      ClosingCore(s);
      CancelAllCore(Closing(s));
      MarkBegun(CancelAllQueued(Closing(s)));
    }
  }

  lemma MarkBegun(s: State)
    requires s.shutdown.Resolving?
    ensures MarkRunning(s).shutdown.Resolving?
  {
    hide Marked, TicketsOf;
  }

  lemma {:induction false} FromBegun(s: State) returns (more: seq<Event>)
    requires Inv(s) && Begun(s)
    ensures var after := Continue(s, more);
      Inv(after) && after.shutdown == Complete && after.stops == map[] && after.settling == map[]
  {
    hide Inv, Step, Continue, Begun;
    var a := AllReturn(s);
    var calm := Continue(s, a);
    var b := AllSettled(calm);
    var settled := Continue(calm, b);
    ContinueFurther(s, a, b);
    more := a + b;
    assert Begun(settled);
    if settled.shutdown.Resolving? || settled.shutdown == Joining {
      var c := [];
      if settled.shutdown.Resolving? {
        c := AllResolved(settled);
      }
      var joining := Continue(settled, c);
      NoEvent(settled);
      var d := AllLeave(joining, 0);
      ContinueFurther(s, a + b, c);
      ContinueFurther(s, a + b + c, d);
      more := a + b + c + d;
    } else {
      BegunPhases(settled);
    }
  }

  lemma BegunPhases(s: State)
    requires Begun(s)
    ensures s.shutdown.Resolving? || s.shutdown == Joining || s.shutdown == Complete
  {
  }

  /** Whatever has happened, a shutdown can be completed: some continuation has it return with every
      stop call finished, and then nothing is queued or running and every accepted job's promise is set. */
  lemma ShutdownCanComplete(options: Options, events: seq<Event>) returns (more: seq<Event>)
    requires options.Valid()
    ensures
      var s := Run(options, events + more);
      && s.shutdown == Complete && s.stops == map[]
      && s.queue == [] && s.outstanding == map[] && s.active == map[]
      && forall t :: t in s.jobs ==> s.resolved[t] == 1
  {
    hide Inv, Step, Continue, Run;
    RunInv(options, events);
    var s := Run(options, events);
    Begin(s);
    var rest := FromBegun(Step(s, ShutdownBegin(false)));
    more := [ShutdownBegin(false)] + rest;
    FirstStep(s, ShutdownBegin(false), rest);
    RunContinues(options, events, more);
    ShutdownResolvesEveryJob(options, events + more);
    NobodyHolds(Run(options, events + more));
  }
}
