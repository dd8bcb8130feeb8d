/** What the scheduler does with a job, told by the job's own properties: which job a free worker
    takes, how a callback's outcome is reported, and which state a record shows. */
module SchedulerLaws {
  import opened Basics
  import opened SchedulerModel
  import opened SchedulerInvariant
  import opened SchedulerSteps

  // ---------------------------------------------------------------- which job is taken

  /** A queued job that can start now: not paused, no sequential job running, and nothing running
      at all if it is sequential itself. */
  ghost predicate CanStart(s: State, t: Ticket) {
    && t in s.queue && t in s.jobs && t !in s.paused
    && (forall w :: w in s.active && s.active[w].ticket in s.jobs ==> s.jobs[s.active[w].ticket].mode != Sequential)
    && (s.jobs[t].mode == Sequential ==> s.active == map[])
  }

  lemma StartableMeans(s: State, index: nat)
    requires RunningOk(s.jobs, s.active, s.sequentialRunning, s.runningCount) && index < |s.queue|
    ensures Startable(s, index) <==> CanStart(s, s.queue[index])
  {
    assert |s.active| > 0 ==> exists w :: w in s.active;
    assert s.sequentialRunning ==> |s.active| > 0;
    assert s.active == map[] <==> |s.active| == 0;
  }

  lemma {:induction false} JobsAreValid(options: Options, events: seq<Event>, t: Ticket)
    requires t in Run(options, events).jobs
    ensures ValidJob(Run(options, events).jobs[t])
  {
    hide ValidJob;
    if events != [] {
      var before, e := Run(options, events[..|events| - 1]), events[|events| - 1];
      JobsKept(before, e);
      if t in before.jobs {
        JobsAreValid(options, events[..|events| - 1], t);
      }
    }
  }

  lemma SubmitJobs(s: State, job: Job)
    ensures SubmitStep(s, job).jobs == s.jobs ||
      (ValidJob(job) && SubmitStep(s, job).jobs == s.jobs[s.nextTicket := job])
  {
  }

  lemma JobsKept(s: State, e: Event)
    ensures Step(s, e).jobs == s.jobs ||
      (e.Submit? && ValidJob(e.job) && Step(s, e).jobs == s.jobs[s.nextTicket := e.job])
  {
    hide ValidJob, SubmitStep, PauseStep, ResumeStep, StopBeginStep, StopFinishStep, RequestCancellationStep,
      ShutdownBeginStep, ShutdownResolveStep, ShutdownCancelStep, ShutdownRequestStopStep, ShutdownJoinStep,
      WorkerTakeStep, WorkerReturnStep, WorkerCompleteStep, WorkerSettleStep, WorkerExitStep;
    if e.Submit? {
      SubmitJobs(s, e.job);
    }
  }

  /** Whoever takes a job takes a Critical one if one can start, else a High one, else a Normal one,
      else a Low one, and of one priority the job accepted first. */
  lemma TakenJobLeads(options: Options, events: seq<Event>, index: nat, other: Ticket)
    requires options.Valid() && IsBest(Run(options, events), index)
    requires CanStart(Run(options, events), other)
    ensures
      var s := Run(options, events);
      var t := s.queue[index];
      && CanStart(s, t)
      && (s.jobs[other].priority == Critical ==> s.jobs[t].priority == Critical)
      && (s.jobs[other].priority == High ==> s.jobs[t].priority == Critical || s.jobs[t].priority == High)
      && (s.jobs[other].priority == Normal ==> s.jobs[t].priority != Low)
      && (s.jobs[other].priority == s.jobs[t].priority ==> t <= other)
  {
    hide Run;
    RunInv(options, events);
    var s := Run(options, events);
    var place: nat :| place < |s.queue| && s.queue[place] == other;
    StartableMeans(s, index);
    StartableMeans(s, place);
    JobsAreValid(options, events, s.queue[index]);
    assert Beats(s, s.queue[index], s.queue[place]);
  }

  /** There is a job to take exactly if some job can start. */
  lemma JobTakenExactly(options: Options, events: seq<Event>)
    requires options.Valid()
    ensures NothingStartable(Run(options, events)) <==> forall t :: !CanStart(Run(options, events), t)
  {
    hide Run;
    RunInv(options, events);
    var s := Run(options, events);
    forall i | 0 <= i < |s.queue|
      ensures Startable(s, i) <==> CanStart(s, s.queue[i])
    {
      StartableMeans(s, i);
    }
  }

  // ---------------------------------------------------------------- what is reported

  lemma TaskKept(s: State, e: Event, w: Worker)
    requires w in s.active && s.active[w].verdict.Decided? && e != WorkerComplete(w)
    ensures w in Step(s, e).active && Step(s, e).active[w] == s.active[w]
  {
    hide SubmitStep, PauseStep, ResumeStep, StopBeginStep, StopFinishStep, RequestCancellationStep,
      ShutdownBeginStep, ShutdownResolveStep, ShutdownCancelStep, ShutdownRequestStopStep, ShutdownJoinStep,
      WorkerSettleStep, WorkerExitStep, IsBest, CompleteRecord;
  }

  /** What a callback's outcome comes to: a callback that throws has failed, one that returns after a
      cancellation was requested was cancelled, and a state that is not final means success. The
      verdict stands until the worker records it, whatever happens in between. */
  lemma {:induction false} OutcomeDecides(
      options: Options, events: seq<Event>, w: Worker, outcome: CallbackOutcome, more: seq<Event>)
    requires var s := Run(options, events); w in s.active && s.active[w].verdict.Pending?
    requires WorkerComplete(w) !in more
    ensures
      var s := Run(options, events);
      var s' := Run(options, events + [WorkerReturn(w, outcome)] + more);
      var t := s.active[w].ticket;
      && w in s'.active && s'.active[w].ticket == t && s'.active[w].verdict.Decided?
      && var state := s'.active[w].verdict.state;
      && (outcome == Threw ==> state == Failed)
      && (outcome != Threw && t in s.cancelRequested ==> state == Cancelled)
      && (outcome != Threw && t !in s.cancelRequested ==>
            state == if outcome.state in {Completed, Cancelled, Failed, Aborted} then outcome.state else Completed)
    decreases |more|
  {
    hide Step;
    var returned := events + [WorkerReturn(w, outcome)];
    if more == [] {
      assert returned + more == returned && returned[..|returned| - 1] == events;
      ReturnDecides(Run(options, events), w, outcome);
    } else {
      var n := |more| - 1;
      assert (returned + more)[..|returned + more| - 1] == returned + more[..n];
      OutcomeDecides(options, events, w, outcome, more[..n]);
      assert more[n] in more;
      TaskKept(Run(options, returned + more[..n]), more[n], w);
    }
  }

  lemma ReturnDecides(s: State, w: Worker, outcome: CallbackOutcome)
    requires w in s.active && s.active[w].verdict.Pending?
    ensures var task := s.active[w];
      var state := if outcome == Threw then Failed else if task.ticket in s.cancelRequested then Cancelled
                   else if outcome.state in {Completed, Cancelled, Failed, Aborted} then outcome.state else Completed;
      var s' := Step(s, WorkerReturn(w, outcome));
      w in s'.active && s'.active[w] == Task(task.ticket, Decided(state))
  {
  }

  /** Completing an outstanding job puts its id last in the history, which keeps its newest entries up
      to the limit, and drops the records of those that leave and no others. */
  lemma HistoryKeepsNewest(
      options: Options, outstanding: map<JobId, Ticket>, records: map<JobId, Snapshot>, completed: seq<JobId>,
      id: JobId, state: ExecutionState)
    requires RecordsOk(options, outstanding, records, completed) && id in outstanding && Terminal(state)
    ensures
      var limit, longer := options.maximumHistory, completed + [id];
      var gone := if limit > 0 && |longer| > limit then |longer| - limit else 0;
      var marked := records[id := records[id].(state := state)];
      var kept := KeptRecords(options, longer, outstanding - {id}, marked);
      && KeptOrder(options, longer) == longer[gone..] && gone <= |completed| && id !in longer[..gone]
      && (forall x :: x in kept <==> x in marked && x !in longer[..gone])
      && (forall x :: x in kept ==> kept[x] == marked[x])
  {
    var longer := completed + [id];
    var gone := Excess(options, longer);
    assert longer[gone..][|longer| - gone - 1] == id;
    assert forall x :: x in longer[..gone] ==> x in completed;
  }

  lemma CompleteFacts(s: State, w: Worker)
    requires Inv(s) && w in s.active && s.active[w].verdict.Decided?
    ensures s.active[w].ticket in s.jobs && Terminal(s.active[w].verdict.state)
    ensures var id := s.jobs[s.active[w].ticket].id;
      && id in s.outstanding && id in s.records && s.records[id].ticket == s.active[w].ticket
      && RecordsOk(s.options, s.outstanding, s.records, s.completedOrder)
  {
    hide RecordsOk, TicketsOk, QueueHolds, SettlingHolds, StopsHold, ShutdownHolds, StartedOk, PromisesOk, QueueOk,
      WorkersOk;
    var t := s.active[w].ticket;
    HeldIsOutstanding(s.jobs, s.nextTicket, s.outstanding, s.holders, t);
    RecordedIds(s.options, s.outstanding, s.records, s.completedOrder, s.jobs[t].id);
  }

  lemma CompletionRecords(s: State, id: JobId, state: ExecutionState)
    requires RecordsOk(s.options, s.outstanding, s.records, s.completedOrder) && id in s.outstanding
    requires id in s.records && Terminal(state)
    ensures
      var s' := CompleteRecord(s.(outstanding := s.outstanding - {id}), id, state);
      && |s'.completedOrder| > 0 && s'.completedOrder[|s'.completedOrder| - 1] == id
      && id in s'.records && s'.records[id] == s.records[id].(state := state)
  {
    hide RecordsOk, KeptOrder, KeptRecords;
    HistoryKeepsNewest(s.options, s.outstanding, s.records, s.completedOrder, id, state);
  }

  /** What recording a verdict changes. */
  ghost predicate Recorded(s: State, s': State, w: Worker, t: Ticket, id: JobId, state: ExecutionState) {
    && w !in s'.active && id !in s'.outstanding && |s'.completedOrder| > 0
    && s'.completedOrder[|s'.completedOrder| - 1] == id
    && id in s'.records && s'.records[id].ticket == t && s'.records[id].state == state
    && s'.statistics.completed == s.statistics.completed + (if state == Completed then 1 else 0)
    && s'.statistics.cancelled == s.statistics.cancelled + (if state == Cancelled then 1 else 0)
    && s'.statistics.failed == s.statistics.failed + (if state == Failed || state == Aborted then 1 else 0)
  }

  lemma CompleteRecords(s: State, w: Worker)
    requires Inv(s) && w in s.active && s.active[w].verdict.Decided?
    ensures s.active[w].ticket in s.jobs
    ensures var t := s.active[w].ticket;
      Recorded(s, WorkerCompleteStep(s, w), w, t, s.jobs[t].id, s.active[w].verdict.state)
  {
    hide Inv, CompleteRecord, RecordsOk;
    CompleteFacts(s, w);
    var t, state := s.active[w].ticket, s.active[w].verdict.state;
    var id := s.jobs[t].id;
    var leaving := s.(runningCount := if s.runningCount > 0 then s.runningCount - 1 else 0,
      sequentialRunning := if s.jobs[t].mode.Sequential? then false else s.sequentialRunning,
      holders := s.holders[t := Holder.Settling(w)], active := s.active - {w}, settling := s.settling[w := t]);
    CompletionRecords(leaving, id, state);
  }

  /** A worker's verdict becomes the state of the job's record, which is kept as the newest of the
      history, and exactly one counter goes up: the one for that state. */
  lemma VerdictIsRecorded(options: Options, events: seq<Event>, w: Worker)
    requires options.Valid()
    requires var s := Run(options, events); w in s.active && s.active[w].verdict.Decided?
    ensures
      var s, s' := Run(options, events), Run(options, events + [WorkerComplete(w)]);
      var t := s.active[w].ticket;
      t in s.jobs && Recorded(s, s', w, t, s.jobs[t].id, s.active[w].verdict.state)
  {
    hide Inv, WorkerCompleteStep, Recorded;
    RunInv(options, events);
    var longer := events + [WorkerComplete(w)];
    assert longer[..|longer| - 1] == events;
    CompleteRecords(Run(options, events), w);
  }

  /** A cancellation, requested from outside, by a stop call, or by a shutdown, reaches the job's callback,
      and a stop also ends a pause. */
  lemma CancellationArrives(s: State, t: Ticket, caller: Caller)
    ensures t in Step(s, RequestCancellation(t)).cancelRequested
    ensures caller in s.stops ==>
      var s' := Step(s, StopFinish(caller));
      s.stops[caller].ticket in s'.cancelRequested && s.stops[caller].ticket !in s'.paused && caller !in s'.stops
    ensures s.shutdown.Resolving? && s.shutdown.queued == [] && t in s.shutdown.running ==>
      var s' := Step(s, ShutdownCancel(t));
      t in s'.cancelRequested && t !in s'.paused
  {
    hide StopFinishStep, ShutdownCancelStep;
    StopArrives(s, caller);
    ShutdownArrives(s, t);
  }

  lemma StopArrives(s: State, caller: Caller)
    ensures caller in s.stops ==>
      var s' := StopFinishStep(s, caller);
      s.stops[caller].ticket in s'.cancelRequested && s.stops[caller].ticket !in s'.paused && caller !in s'.stops
  {
    hide SetPromise;
  }

  lemma ShutdownArrives(s: State, t: Ticket)
    ensures s.shutdown.Resolving? && s.shutdown.queued == [] && t in s.shutdown.running ==>
      var s' := ShutdownCancelStep(s, t);
      t in s'.cancelRequested && t !in s'.paused
  {
  }

  // ---------------------------------------------------------------- peaks

  /** The two peaks that the statistics keep. */
  ghost predicate SamePeaks(before: Statistics, after: Statistics) {
    && after.highWatermark == before.highWatermark
    && after.maximumConcurrentRunning == before.maximumConcurrentRunning
  }

  lemma {:induction false} DrainKeepsPeaks(s: State)
    ensures SamePeaks(s.statistics, CancelAllQueued(s).statistics)
    decreases |s.queue|
  {
    hide CompleteRecord;
    if s.queue != [] && s.queue[0] in s.jobs && s.shutdown.Resolving? {
      var next := CancelQueued(s, s.queue[0], Holder.Draining);
      DrainKeepsPeaks(next.(shutdown := s.shutdown.(queued := s.shutdown.queued + [s.queue[0]])));
    }
  }

  lemma ShutdownKeepsPeaks(s: State, byWorker: bool)
    ensures SamePeaks(s.statistics, ShutdownBeginStep(s, byWorker).statistics)
  {
    hide CancelAllQueued, Marked, TicketsOf;
    DrainKeepsPeaks(Closing(s));
  }

  lemma StopKeepsPeaks(s: State, caller: Caller, id: JobId)
    ensures SamePeaks(s.statistics, StopBeginStep(s, caller, id).statistics)
  {
    hide CompleteRecord, SetRecordState;
  }

  lemma CompleteKeepsPeaks(s: State, w: Worker)
    ensures SamePeaks(s.statistics, WorkerCompleteStep(s, w).statistics)
  {
    hide CompleteRecord;
  }

  lemma QuietKeepsPeaks(s: State, e: Event)
    requires !e.Submit? && !e.WorkerTake? && !e.StopBegin? && !e.ShutdownBegin? && !e.WorkerComplete?
    ensures SamePeaks(s.statistics, Step(s, e).statistics)
  {
    hide SetRecordState, SetPromise;
  }

  /** The highest of the watermark so far and the length of the queue now, and likewise for the jobs that
      run. */
  lemma PeaksFollow(s: State, e: Event)
    requires Inv(s)
    ensures var n, after := s.statistics, Step(s, e);
      && after.statistics.highWatermark == Max(n.highWatermark, |after.queue|)
      && after.statistics.maximumConcurrentRunning == Max(n.maximumConcurrentRunning, after.runningCount)
  {
    hide Inv, SubmitStep, PauseStep, ResumeStep, StopBeginStep, StopFinishStep, RequestCancellationStep,
      ShutdownBeginStep, ShutdownResolveStep, ShutdownCancelStep, ShutdownRequestStopStep, ShutdownJoinStep,
      WorkerTakeStep, WorkerReturnStep, WorkerCompleteStep, WorkerSettleStep, WorkerExitStep;
    StepInv(s, e);
    WithinPeaks(s);
    WithinPeaks(Step(s, e));
    match e
    case Submit(job) => SubmitPeaks(s, job);
    case WorkerTake(w, index) => TakePeaks(s, w, index);
    case StopBegin(caller, id) => StopKeepsPeaks(s, caller, id);
    case ShutdownBegin(byWorker) => ShutdownKeepsPeaks(s, byWorker);
    case WorkerComplete(w) => CompleteKeepsPeaks(s, w);
    case _ => QuietKeepsPeaks(s, e);
  }

  lemma WithinPeaks(s: State)
    requires Inv(s)
    ensures |s.queue| <= s.statistics.highWatermark && s.runningCount <= s.statistics.maximumConcurrentRunning
  {
    hide TablesOk, HoldersOk, QueueOk, WorkersOk, RunningOk;
  }

  lemma SubmitPeaks(s: State, job: Job)
    requires |s.queue| <= s.statistics.highWatermark && s.runningCount <= s.statistics.maximumConcurrentRunning
    ensures var n, after := s.statistics, SubmitStep(s, job);
      && after.statistics.highWatermark == Max(n.highWatermark, |after.queue|)
      && after.statistics.maximumConcurrentRunning == Max(n.maximumConcurrentRunning, after.runningCount)
  {
  }

  lemma TakePeaks(s: State, w: Worker, index: nat)
    requires |s.queue| <= s.statistics.highWatermark && s.runningCount <= s.statistics.maximumConcurrentRunning
    ensures var n, after := s.statistics, WorkerTakeStep(s, w, index);
      && after.statistics.highWatermark == Max(n.highWatermark, |after.queue|)
      && after.statistics.maximumConcurrentRunning == Max(n.maximumConcurrentRunning, after.runningCount)
  {
    hide SetRecordState;
  }

  /** In every run the high watermark is the greatest length the queue has had, and the maximum of
      concurrent jobs the greatest number that has run at once: both were reached and never passed. */
  lemma {:induction false} PeaksAreReached(options: Options, events: seq<Event>) returns (k: nat, m: nat)
    requires options.Valid()
    ensures k <= |events| && |Run(options, events[..k]).queue| == Run(options, events).statistics.highWatermark
    ensures m <= |events|
    ensures Run(options, events[..m]).runningCount == Run(options, events).statistics.maximumConcurrentRunning
    ensures forall i :: 0 <= i <= |events| ==>
      && |Run(options, events[..i]).queue| <= Run(options, events).statistics.highWatermark
      && Run(options, events[..i]).runningCount <= Run(options, events).statistics.maximumConcurrentRunning
  {
    hide Inv, Step;
    if events == [] {
      k, m := 0, 0;
    } else {
      var n := |events| - 1;
      var before := events[..n];
      k, m := PeaksAreReached(options, before);
      RunInv(options, before);
      PeaksFollow(Run(options, before), events[n]);
      assert forall i :: 0 <= i <= n ==> before[..i] == events[..i];
      assert events[..|events|] == events;
      if |Run(options, events).queue| > Run(options, before).statistics.highWatermark {
        k := |events|;
      }
      if Run(options, events).runningCount > Run(options, before).statistics.maximumConcurrentRunning {
        m := |events|;
      }
    }
  }
}
