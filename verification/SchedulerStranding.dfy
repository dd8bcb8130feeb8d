/** Which queued jobs can still run, and a run that strands one. */
module SchedulerStranding {
  import opened Basics
  import opened SchedulerModel
  import opened SchedulerInvariant
  import opened SchedulerSteps
  import opened SchedulerTheorems

  // ---------------------------------------------------------------- continuations

  function Continue(s: State, events: seq<Event>): State
    decreases |events|
  {
    if events == [] then s else Continue(Step(s, events[0]), events[1..])
  }

  lemma {:induction false} RunContinues(options: Options, events: seq<Event>, more: seq<Event>)
    ensures Run(options, events + more) == Continue(Run(options, events), more)
    decreases |more|
  {
    hide Step;
    if more == [] {
      assert events + more == events;
    } else {
      var longer := events + [more[0]];
      assert longer[..|longer| - 1] == events && longer + more[1..] == events + more;
      RunContinues(options, longer, more[1..]);
    }
  }

  lemma FirstStep(s: State, e: Event, more: seq<Event>)
    ensures Continue(s, [e] + more) == Continue(Step(s, e), more)
  {
    hide Step;
    assert ([e] + more)[1..] == more;
  }

  /** A worker runs the job with this ticket. */
  predicate Runs(s: State, w: Worker, t: Ticket) {
    w in s.active && s.active[w].ticket == t
  }

  // ---------------------------------------------------------------- when every worker has left

  lemma StepKeepsExited(s: State, e: Event)
    ensures s.exited <= Step(s, e).exited && Step(s, e).options == s.options
  {
    hide SubmitStep, PauseStep, ResumeStep, StopBeginStep, StopFinishStep, RequestCancellationStep,
      ShutdownResolveStep, ShutdownCancelStep, ShutdownRequestStopStep, ShutdownJoinStep, WorkerTakeStep,
      WorkerReturnStep, WorkerCompleteStep, WorkerSettleStep, ShutdownBeginStep, WorkerExitStep;
  }

  lemma NobodyRuns(s: State, w: Worker)
    requires Inv(s) && AllExited(s)
    ensures w !in s.active
  {
    hide TablesOk, HoldersOk, QueueOk, RunningOk, CountsOk;
  }

  lemma {:induction false} ExitedForGood(s: State, events: seq<Event>)
    requires Inv(s) && AllExited(s)
    ensures Inv(Continue(s, events)) && AllExited(Continue(s, events))
    decreases |events|
  {
    hide Inv, Step;
    if events != [] {
      StepInv(s, events[0]);
      StepKeepsExited(s, events[0]);
      ExitedForGood(Step(s, events[0]), events[1..]);
    }
  }

  // ---------------------------------------------------------------- while a worker is left

  /** A job that waits in the queue, unpaused, while a worker has not left. */
  predicate CanWait(s: State, t: Ticket, w: Worker) {
    t in s.queue && t !in s.paused && w < s.options.workerCount && w !in s.exited
  }

  /** The events of a worker are its sections. */
  lemma WorkerSteps(s: State, w: Worker, index: nat, outcome: CallbackOutcome)
    ensures Step(s, WorkerTake(w, index)) == WorkerTakeStep(s, w, index)
    ensures Step(s, WorkerReturn(w, outcome)) == WorkerReturnStep(s, w, outcome)
    ensures Step(s, WorkerComplete(w)) == WorkerCompleteStep(s, w)
    ensures Step(s, WorkerSettle(w)) == WorkerSettleStep(s, w)
  {
    hide SubmitStep, PauseStep, ResumeStep, StopBeginStep, StopFinishStep, RequestCancellationStep, ShutdownBeginStep,
      ShutdownResolveStep, ShutdownCancelStep, ShutdownRequestStopStep, ShutdownJoinStep, WorkerTakeStep,
      WorkerReturnStep, WorkerCompleteStep, WorkerSettleStep, WorkerExitStep;
  }

  lemma ReturnFields(s: State, v: Worker)
    requires v in s.active
    ensures var after := WorkerReturnStep(s, v, Returned(Completed));
      && after == s.(active := after.active) && after.active.Keys == s.active.Keys
      && after.active[v].verdict.Decided? && after.active[v].ticket == s.active[v].ticket
  {
    hide Normalize;
    assert s.active.Keys + {v} == s.active.Keys;
  }

  lemma ActiveIsJob(s: State, v: Worker)
    requires Inv(s) && v in s.active
    ensures s.active[v].ticket in s.jobs
  {
    hide TablesOk, HoldersOk, QueueOk, WorkersOk, CountsOk;
  }

  /** A running job returns and is completed; its worker still has to settle it. */
  lemma Retire(s: State, t: Ticket, w: Worker, v: Worker)
    requires Inv(s) && CanWait(s, t, w) && v in s.active
    ensures var first := Step(s, WorkerReturn(v, Returned(Completed)));
      var after := Step(first, WorkerComplete(v));
      && Inv(after) && CanWait(after, t, w)
      && |after.queue| == |s.queue| && |after.active| == |s.active| - 1
  {
    hide Inv, Step, WorkerReturnStep, WorkerCompleteStep;
    var first := Step(s, WorkerReturn(v, Returned(Completed)));
    WorkerSteps(s, v, 0, Returned(Completed));
    WorkerSteps(first, v, 0, Returned(Completed));
    ActiveIsJob(s, v);
    ReturnFields(s, v);
    StepInv(s, WorkerReturn(v, Returned(Completed)));
    WorkerCompleteFields(first, v);
    StepInv(first, WorkerComplete(v));
    FewerActive(first.active, v);
    assert |first.active| == |first.active.Keys| == |s.active.Keys| == |s.active|;
  }

  lemma FewerActive(active: map<Worker, Task>, v: Worker)
    requires v in active
    ensures |active - {v}| == |active| - 1
  {
    assert (active - {v}).Keys == active.Keys - {v};
    assert |active - {v}| == |(active - {v}).Keys|;
  }

  lemma Settle(s: State, t: Ticket, w: Worker)
    requires Inv(s) && CanWait(s, t, w) && w in s.settling
    ensures var after := Step(s, WorkerSettle(w));
      && Inv(after) && CanWait(after, t, w) && w !in after.settling
      && after.queue == s.queue && after.active == s.active
  {
    hide Inv, Step;
    WorkerSteps(s, w, 0, Threw);
    StepInv(s, WorkerSettle(w));
  }

  lemma TakeFields(s: State, w: Worker, index: nat)
    requires Idle(s, w) && index < |s.queue| && IsBest(s, index)
    ensures var after := WorkerTakeStep(s, w, index);
      && after.queue == RemoveAt(s.queue, index) && after.paused == s.paused
      && Runs(after, w, s.queue[index])
  {
    hide IsBest, SetRecordState;
  }

  /** An idle worker takes the waiting job, or one that goes before it. */
  lemma Take(s: State, t: Ticket, w: Worker) returns (index: nat)
    requires Inv(s) && CanWait(s, t, w) && s.active == map[] && w !in s.settling
    ensures var after := Step(s, WorkerTake(w, index));
      Inv(after) && (Runs(after, w, t) || (CanWait(after, t, w) && |after.queue| < |s.queue|))
  {
    hide Inv, Step, WorkerTakeStep, IsBest;
    var waiting :| 0 <= waiting < |s.queue| && s.queue[waiting] == t;
    NothingRuns(s);
    QueuedJobExists(s, waiting);
    index := BestAmong(s, |s.queue|, waiting);
    assert IsBest(s, index) by { BestIs(s, index); }
    WorkerSteps(s, w, index, Threw);
    TakeFields(s, w, index);
    RemoveAtIs(s.queue, index);
    StepInv(s, WorkerTake(w, index));
  }

  lemma BestIs(s: State, index: nat)
    requires index < |s.queue| && Startable(s, index)
    requires forall j :: 0 <= j < |s.queue| && Startable(s, j) ==> Beats(s, s.queue[index], s.queue[j])
    ensures IsBest(s, index)
  {
  }

  lemma NothingRuns(s: State)
    requires Inv(s) && s.active == map[]
    ensures s.runningCount == 0
  {
    hide TablesOk, HoldersOk, QueueOk, WorkersOk, CountsOk;
  }

  /** The jobs that run return one after the other, and the worker takes what is queued until the
      waiting job's turn has come. */
  lemma {:induction false} TurnComes(s: State, t: Ticket, w: Worker) returns (more: seq<Event>)
    requires Inv(s) && CanWait(s, t, w)
    ensures Runs(Continue(s, more), w, t)
    decreases |s.queue|, |s.active|, if w in s.settling then 1 else 0
  {
    hide Inv, Step, CanWait, Runs;
    if s.active != map[] {
      var v :| v in s.active;
      var first := Step(s, WorkerReturn(v, Returned(Completed)));
      Retire(s, t, w, v);
      var rest := TurnComes(Step(first, WorkerComplete(v)), t, w);
      FirstStep(first, WorkerComplete(v), rest);
      more := [WorkerReturn(v, Returned(Completed))] + ([WorkerComplete(v)] + rest);
      FirstStep(s, WorkerReturn(v, Returned(Completed)), [WorkerComplete(v)] + rest);
    } else if w in s.settling {
      Settle(s, t, w);
      var rest := TurnComes(Step(s, WorkerSettle(w)), t, w);
      more := [WorkerSettle(w)] + rest;
      FirstStep(s, WorkerSettle(w), rest);
    } else {
      var index := Take(s, t, w);
      var after := Step(s, WorkerTake(w, index));
      var rest := [];
      if !Runs(after, w, t) {
        rest := TurnComes(after, t, w);
      }
      more := [WorkerTake(w, index)] + rest;
      FirstStep(s, WorkerTake(w, index), rest);
    }
  }

  /** A queued job that is not paused runs in some continuation if and only if some worker has not
      left. When all have left it is stranded: whatever happens, no worker runs it. */
  lemma IdleWorkerTakesWork(options: Options, events: seq<Event>, t: Ticket)
    requires options.Valid() && t in Run(options, events).queue && t !in Run(options, events).paused
    ensures (exists more, w :: Runs(Run(options, events + more), w, t)) <==> !AllExited(Run(options, events))
  {
    hide Inv, Run, Continue, Runs;
    RunInv(options, events);
    var s := Run(options, events);
    if AllExited(s) {
      forall more, w
        ensures !Runs(Run(options, events + more), w, t)
      {
        RunContinues(options, events, more);
        ExitedForGood(s, more);
        NobodyRuns(Continue(s, more), w);
        NotActive(Continue(s, more), w, t);
      }
    } else {
      var w: Worker :| w < options.workerCount && w !in s.exited;
      var more := TurnComes(s, t, w);
      RunContinues(options, events, more);
    }
  }

  lemma NotActive(s: State, w: Worker, t: Ticket)
    requires w !in s.active
    ensures !Runs(s, w, t)
  {
  }

  // ---------------------------------------------------------------- a run that strands a job

  function OneWorker(): Options {
    Options(2, 1, 0)
  }

  function FirstJob(): Job {
    Job(1, Normal, Parallel, true)
  }

  function SecondJob(): Job {
    Job(2, Normal, Parallel, true)
  }

  /** While the first job runs the second is queued and paused, and the first job's callback shuts
      the scheduler down. The worker leaves, and the second job is resumed. */
  function StrandingRun(): seq<Event> {
    [Submit(FirstJob()), WorkerTake(0, 0), Submit(SecondJob()), Pause(2), ShutdownBegin(true),
     WorkerReturn(0, Returned(Completed)), WorkerComplete(0), WorkerSettle(0), WorkerExit(0), Resume(2)]
  }

  /** What the run looks like from the second job on. */
  predicate Scene(s: State, paused: set<Ticket>, active: set<Worker>, settling: set<Worker>, exited: set<Worker>) {
    && s.options == OneWorker() && s.shutdown.NotStarted? && s.queue == [2] && s.paused == paused
    && s.active.Keys == active && s.settling.Keys == settling && s.exited == exited
    && 1 in s.jobs && 2 in s.jobs && s.jobs[1] == FirstJob() && s.jobs[2] == SecondJob()
    && 2 in s.outstanding && s.outstanding[2] == 2 && !s.sequentialRunning
    && (0 in active ==> s.active[0].ticket == 1)
  }

  lemma FirstJobRuns(s: State)
    requires s == Initial(OneWorker())
    ensures var after := WorkerTakeStep(SubmitStep(s, FirstJob()), 0, 0);
      && after.options == OneWorker() && after.queue == [] && after.paused == {} && after.jobs == map[1 := FirstJob()]
      && after.records.Keys == {1} && after.accepting && after.nextTicket == 2 && !after.sequentialRunning
      && after.active.Keys == {0} && after.active[0].ticket == 1 && after.settling == map[] && after.exited == {}
      && after.shutdown.NotStarted?
  {
    var t := SubmitStep(s, FirstJob());
    assert t.queue == [1] && t.jobs == map[1 := FirstJob()] && t.records.Keys == {1};
    assert IsBest(t, 0);
    assert t.queue[..0] + t.queue[1..] == [];
    FirstTaken(t);
  }

  lemma FirstTaken(t: State)
    requires IsBest(t, 0) && Idle(t, 0) && t.queue == [1] && t.active == map[] && 1 in t.jobs && t.jobs[1] == FirstJob()
    requires FirstJob().id in t.records
    ensures var after := WorkerTakeStep(t, 0, 0);
      && after.paused == t.paused && after.jobs == t.jobs && after.records.Keys == t.records.Keys
      && after.queue == [] && after.active.Keys == {0} && after.active[0].ticket == 1 && !after.sequentialRunning
      && after.settling == t.settling && after.options == t.options && after.shutdown == t.shutdown
  {
    hide IsBest;
    assert t.queue[..0] + t.queue[1..] == [];
  }

  lemma SecondJobQueued(s: State)
    requires s.options == OneWorker() && s.queue == [] && s.paused == {} && s.jobs == map[1 := FirstJob()]
    requires s.records.Keys == {1} && s.accepting && s.nextTicket == 2 && !s.sequentialRunning
    requires s.active.Keys == {0} && s.active[0].ticket == 1 && s.settling == map[] && s.exited == {}
    requires s.shutdown.NotStarted?
    ensures Scene(SubmitStep(s, SecondJob()), {}, {0}, {}, {})
  {
  }

  lemma SecondJobLives(s: State)
    requires Inv(s) && s.queue == [2] && 2 in s.jobs && s.jobs[2] == SecondJob()
    requires 2 in s.outstanding && s.outstanding[2] == 2
    ensures Controllable(s, 2) && 2 in s.records
  {
    hide Inv;
    QueuedIsLive(s, 2);
  }

  lemma SecondJobPaused(s: State)
    requires Inv(s) && Scene(s, {}, {0}, {}, {})
    ensures var after := ShutdownBeginStep(PauseStep(s, 2), true); Scene(after, {2}, {0}, {}, {}) && !after.accepting
  {
    hide Inv, Controllable, SetRecordState, MarkRunning, CancelAllQueued, Closing;
    SecondJobLives(s);
  }

  lemma FirstJobReturns(s: State)
    requires Inv(s) && Scene(s, {2}, {0}, {}, {})
    ensures var after := WorkerReturnStep(s, 0, Returned(Completed));
      Scene(after, {2}, {0}, {}, {}) && after.active[0].verdict.Decided?
  {
    hide Inv, WorkerReturnStep;
    ReturnFields(s, 0);
  }

  lemma FirstJobSettles(s: State)
    requires Inv(s) && Scene(s, {2}, {0}, {}, {}) && s.active[0].verdict.Decided?
    ensures Scene(WorkerSettleStep(WorkerCompleteStep(s, 0), 0), {2}, {}, {}, {})
  {
    hide Inv, WorkerCompleteStep, CountTerminal;
    WorkerCompleteFields(s, 0);
    CompletedOutstanding(s, 0);
    assert (s.active - {0}).Keys == {};
  }

  lemma CompletedOutstanding(s: State, w: Worker)
    requires w in s.active && s.active[w].verdict.Decided? && s.active[w].ticket in s.jobs
    ensures var after := WorkerCompleteStep(s, w);
      && after.outstanding == s.outstanding - {s.jobs[s.active[w].ticket].id} && after.exited == s.exited
  {
    hide CompleteRecord, CountTerminal;
  }

  lemma WorkerLeaves(s: State)
    requires Scene(s, {2}, {}, {}, {}) && !s.accepting
    ensures Scene(WorkerExitStep(s, 0), {2}, {}, {}, {0})
  {
    assert NothingStartable(s);
  }

  lemma SecondJobResumed(s: State)
    requires Inv(s) && Scene(s, {2}, {}, {}, {0})
    ensures Scene(ResumeStep(s, 2), {}, {}, {}, {0})
  {
    hide Inv, Controllable, SetRecordState;
    SecondJobLives(s);
  }

  lemma RunThen(options: Options, events: seq<Event>, e: Event)
    ensures Run(options, events + [e]) == Step(Run(options, events), e)
  {
    hide Step;
    assert (events + [e])[..|events + [e]| - 1] == events;
  }

  lemma CallerSteps(s: State, job: Job, id: JobId, w: Worker)
    ensures Step(s, Submit(job)) == SubmitStep(s, job)
    ensures Step(s, Pause(id)) == PauseStep(s, id) && Step(s, Resume(id)) == ResumeStep(s, id)
    ensures Step(s, ShutdownBegin(true)) == ShutdownBeginStep(s, true)
    ensures Step(s, WorkerExit(w)) == WorkerExitStep(s, w)
  {
    hide SubmitStep, PauseStep, ResumeStep, StopBeginStep, StopFinishStep, RequestCancellationStep, ShutdownBeginStep,
      ShutdownResolveStep, ShutdownCancelStep, ShutdownRequestStopStep, ShutdownJoinStep, WorkerTakeStep,
      WorkerReturnStep, WorkerCompleteStep, WorkerSettleStep, WorkerExitStep;
  }

  /** One event of the stranding run. */
  lemma Next(k: nat)
    requires k < |StrandingRun()|
    ensures var before := StrandingRun()[..k]; var s, e := Run(OneWorker(), before), StrandingRun()[k];
      && Run(OneWorker(), StrandingRun()[..k + 1]) == Step(s, e) && Inv(s)
  {
    hide Step, Inv;
    assert StrandingRun()[..k + 1] == StrandingRun()[..k] + [StrandingRun()[k]];
    RunThen(OneWorker(), StrandingRun()[..k], StrandingRun()[k]);
    RunInv(OneWorker(), StrandingRun()[..k]);
  }

  lemma StrandingStart()
    ensures Scene(Run(OneWorker(), StrandingRun()[..3]), {}, {0}, {}, {})
  {
    hide Step, Run, Inv, Scene, SubmitStep, WorkerTakeStep;
    var s := Initial(OneWorker());
    assert Run(OneWorker(), StrandingRun()[..0]) == s by { NoEvents(); }
    Next(0);
    Next(1);
    Next(2);
    FirstJobRuns(s);
    CallerSteps(s, FirstJob(), 0, 0);
    WorkerSteps(SubmitStep(s, FirstJob()), 0, 0, Threw);
    var t := WorkerTakeStep(SubmitStep(s, FirstJob()), 0, 0);
    CallerSteps(t, SecondJob(), 0, 0);
    SecondJobQueued(t);
  }

  lemma NoEvents()
    ensures StrandingRun()[..0] == [] && Run(OneWorker(), []) == Initial(OneWorker())
  {
  }

  lemma SecondWaits()
    ensures var s := Run(OneWorker(), StrandingRun()[..5]); Scene(s, {2}, {0}, {}, {}) && !s.accepting
  {
    hide Step, Run, Inv, Scene, PauseStep, ShutdownBeginStep;
    StrandingStart();
    Next(3);
    Next(4);
    var s := Run(OneWorker(), StrandingRun()[..3]);
    CallerSteps(s, FirstJob(), 2, 0);
    CallerSteps(PauseStep(s, 2), FirstJob(), 2, 0);
    SecondJobPaused(s);
  }

  lemma FirstReturned()
    ensures var s := Run(OneWorker(), StrandingRun()[..6]);
      Scene(s, {2}, {0}, {}, {}) && !s.accepting && s.active[0].verdict.Decided?
  {
    hide Step, Run, Inv, Scene, WorkerReturnStep;
    SecondWaits();
    Next(5);
    var s := Run(OneWorker(), StrandingRun()[..5]);
    WorkerSteps(s, 0, 0, Returned(Completed));
    FirstJobReturns(s);
    SceneActive(WorkerReturnStep(s, 0, Returned(Completed)), {2});
  }

  lemma SceneActive(s: State, paused: set<Ticket>)
    requires Scene(s, paused, {0}, {}, {})
    ensures 0 in s.active
  {
  }

  lemma FirstSettled()
    ensures var s := Run(OneWorker(), StrandingRun()[..8]); Scene(s, {2}, {}, {}, {}) && !s.accepting
  {
    hide Step, Run, Inv, Scene, WorkerCompleteStep, WorkerSettleStep;
    FirstReturned();
    Next(6);
    Next(7);
    var s := Run(OneWorker(), StrandingRun()[..6]);
    WorkerSteps(s, 0, 0, Threw);
    WorkerSteps(WorkerCompleteStep(s, 0), 0, 0, Threw);
    FirstJobSettles(s);
  }

  lemma SecondResumed()
    ensures Scene(Run(OneWorker(), StrandingRun()[..10]), {}, {}, {}, {0})
  {
    hide Step, Run, Inv, Scene, WorkerExitStep, ResumeStep;
    FirstSettled();
    Next(8);
    Next(9);
    var s := Run(OneWorker(), StrandingRun()[..8]);
    CallerSteps(s, FirstJob(), 0, 0);
    WorkerLeaves(s);
    CallerSteps(WorkerExitStep(s, 0), FirstJob(), 2, 0);
    SecondJobResumed(WorkerExitStep(s, 0));
  }

  /** Such a run exists: the second job is queued, not paused and could start, every worker has
      left, and no continuation runs it. */
  lemma StrandedJob(more: seq<Event>, w: Worker)
    ensures var s := Run(OneWorker(), StrandingRun());
      && s.queue == [2] && 2 !in s.paused && Startable(s, 0) && AllExited(s)
    ensures !Runs(Run(OneWorker(), StrandingRun() + more), w, 2)
  {
    hide Run, Scene, Runs, Startable, AllExited;
    SecondResumed();
    assert StrandingRun()[..10] == StrandingRun();
    SceneStranded(Run(OneWorker(), StrandingRun()));
    IdleWorkerTakesWork(OneWorker(), StrandingRun(), 2);
  }

  lemma SceneStranded(s: State)
    requires Scene(s, {}, {}, {}, {0})
    ensures s.queue == [2] && 2 in s.queue && 2 !in s.paused && Startable(s, 0) && AllExited(s)
  {
  }
}
