/** What the record of an outstanding job shows, in every reachable state. */
module SchedulerRecords {
  import opened Basics
  import opened SchedulerModel
  import opened SchedulerInvariant
  import opened SchedulerSteps

  /** A stop wins over a pause, and a pause over the stage the job has reached. */
  ghost function Shown(t: Ticket, started: set<Ticket>, paused: set<Ticket>, asked: set<Ticket>): ExecutionState {
    if t in asked then Cancelled else if t in paused then Paused
    else if t in started then ExecutionState.Running else Created
  }

  ghost predicate ShownOk(
      outstanding: map<JobId, Ticket>, records: map<JobId, Snapshot>, started: set<Ticket>, paused: set<Ticket>,
      asked: set<Ticket>) {
    forall id :: id in outstanding && id in records ==>
      records[id].state == Shown(outstanding[id], started, paused, asked)
  }

  /** Flags belong to accepted jobs; only jobs that have started are asked to stop, and whoever still
      has to request their cancellation has asked them. */
  ghost predicate FlagsOk(s: State) {
    && (forall t :: t in s.paused ==> t < s.nextTicket)
    && s.stopRequested <= s.started
    && (forall c :: c in s.stops && !s.stops[c].wasQueued ==> s.stops[c].ticket in s.stopRequested)
    && (s.shutdown.Resolving? ==> s.shutdown.running <= s.stopRequested)
  }

  ghost predicate Shows(s: State) {
    ShownOk(s.outstanding, s.records, s.started, s.paused, s.stopRequested) && FlagsOk(s)
  }

  // ---------------------------------------------------------------- one part at a time

  /** Outstanding ids have tickets of their own. */
  lemma OwnTicket(jobs: map<Ticket, Job>, next: Ticket, outstanding: map<JobId, Ticket>, holders: map<Ticket, Holder>)
    requires OutstandingOk(jobs, next, outstanding, holders)
    ensures forall a, b :: a in outstanding && b in outstanding && outstanding[a] == outstanding[b] ==> a == b
    ensures forall id :: id in outstanding ==> outstanding[id] < next
  {
  }

  /** One record is changed together with the flags of its own job. */
  lemma ShownUpdate(
      outstanding: map<JobId, Ticket>, records: map<JobId, Snapshot>, started: set<Ticket>, paused: set<Ticket>,
      asked: set<Ticket>, id: JobId, started': set<Ticket>, paused': set<Ticket>, asked': set<Ticket>)
    requires ShownOk(outstanding, records, started, paused, asked) && id in outstanding && id in records
    requires forall x :: x in outstanding && outstanding[x] == outstanding[id] ==> x == id
    requires forall t :: t != outstanding[id] ==>
      (t in started' <==> t in started) && (t in paused' <==> t in paused) && (t in asked' <==> t in asked)
    ensures ShownOk(outstanding,
      records[id := records[id].(state := Shown(outstanding[id], started', paused', asked'))],
      started', paused', asked')
  {
  }

  /** Records of other jobs may leave. */
  lemma ShownFewer(
      outstanding: map<JobId, Ticket>, records: map<JobId, Snapshot>, started: set<Ticket>, paused: set<Ticket>,
      asked: set<Ticket>, outstanding': map<JobId, Ticket>, records': map<JobId, Snapshot>)
    requires ShownOk(outstanding, records, started, paused, asked)
    requires forall x :: x in outstanding' ==>
      && x in outstanding && outstanding'[x] == outstanding[x]
      && x in records && x in records' && records'[x] == records[x]
    ensures ShownOk(outstanding', records', started, paused, asked)
  {
  }

  /** Ending a pause changes no record of a job that was asked to stop or is no longer outstanding. */
  lemma ShownUnpaused(
      outstanding: map<JobId, Ticket>, records: map<JobId, Snapshot>, started: set<Ticket>, paused: set<Ticket>,
      asked: set<Ticket>, t: Ticket)
    requires ShownOk(outstanding, records, started, paused, asked)
    requires t in asked || forall id :: id in outstanding ==> outstanding[id] != t
    ensures ShownOk(outstanding, records, started, paused - {t}, asked)
  {
  }

  lemma ShownInsert(
      outstanding: map<JobId, Ticket>, records: map<JobId, Snapshot>, started: set<Ticket>, paused: set<Ticket>,
      asked: set<Ticket>, id: JobId, t: Ticket, snapshot: Snapshot)
    requires ShownOk(outstanding, records, started, paused, asked)
    requires t !in started && t !in paused && t !in asked && snapshot.state == Created
    ensures ShownOk(outstanding[id := t], records[id := snapshot], started, paused, asked)
  {
  }

  lemma ShownMarked(
      outstanding: map<JobId, Ticket>, records: map<JobId, Snapshot>, started: set<Ticket>, paused: set<Ticket>,
      asked: set<Ticket>)
    ensures ShownOk(outstanding, Marked(outstanding, records), started, paused, asked + TicketsOf(outstanding))
  {
  }

  // ---------------------------------------------------------------- callers

  lemma SubmitShows(s: State, job: Job)
    requires Inv(s) && Shows(s)
    ensures Shows(SubmitStep(s, job))
  {
    hide Core, Inv, ShownOk;
    if Admissible(s, job) {
      SubmitFacts(s, job);
      ShownInsert(s.outstanding, s.records, s.started, s.paused, s.stopRequested, job.id, s.nextTicket,
        Snapshot(s.nextTicket, job.priority, job.mode, Created));
    }
  }

  /** A job that may be controlled has not been asked to stop. */
  lemma ControllableFacts(s: State, id: JobId)
    requires Inv(s) && Shows(s) && Controllable(s, id)
    ensures id in s.records && s.outstanding[id] !in s.stopRequested && s.outstanding[id] < s.nextTicket
    ensures forall x :: x in s.outstanding && s.outstanding[x] == s.outstanding[id] ==> x == id
  {
    hide TicketsOk, LiveOk, HoldersOk, CountersOk, FlagsOk, OutstandingOk;
    OwnTicket(s.jobs, s.nextTicket, s.outstanding, s.holders);
  }

  lemma PauseShows(s: State, id: JobId)
    requires Inv(s) && Shows(s)
    ensures Shows(PauseStep(s, id))
  {
    hide Inv, ShownOk;
    if Controllable(s, id) {
      ControllableFacts(s, id);
      ShownUpdate(s.outstanding, s.records, s.started, s.paused, s.stopRequested, id,
        s.started, s.paused + {s.outstanding[id]}, s.stopRequested);
    }
  }

  lemma ResumeShows(s: State, id: JobId)
    requires Inv(s) && Shows(s)
    ensures Shows(ResumeStep(s, id))
  {
    hide Inv, ShownOk;
    if Controllable(s, id) {
      ControllableFacts(s, id);
      ShownUpdate(s.outstanding, s.records, s.started, s.paused, s.stopRequested, id,
        s.started, s.paused - {s.outstanding[id]}, s.stopRequested);
    }
  }

  /** Taking a queued job off the books leaves what the others show. */
  lemma CancelShows(s: State, t: Ticket, holder: Holder)
    requires Core(s) && Shows(s) && t in s.holders && s.holders[t].Queue?
    ensures t in s.jobs && Shows(CancelQueued(s, t, holder))
  {
    hide ShownOk, KeptRecords, KeptOrder, OutstandingOk, RecordsOk, HoldersOk, CountersOk, TicketsOk, LiveOk;
    HeldIsOutstanding(s.jobs, s.nextTicket, s.outstanding, s.holders, t);
    var id := s.jobs[t].id;
    RecordedIds(s.options, s.outstanding, s.records, s.completedOrder, id);
    RecordsComplete(s.options, s.outstanding, s.records, s.completedOrder, id, Cancelled);
    ShownFewer(s.outstanding, s.records, s.started, s.paused, s.stopRequested, s.outstanding - {id},
      CancelQueued(s, t, holder).records);
  }

  lemma StopShows(s: State, caller: Caller, id: JobId)
    requires Inv(s) && Shows(s)
    ensures Shows(StopBeginStep(s, caller, id))
  {
    hide Inv, Core, Shows, StopQueuedJob, StopRunningJob;
    if caller !in s.stops && Controllable(s, id) {
      StopPlaces(s, id);
      if s.outstanding[id] !in s.started {
        StopQueuedShows(s, caller, s.outstanding[id]);
      } else {
        StopRunningShows(s, caller, id);
      }
    }
  }

  lemma StopQueuedShows(s: State, caller: Caller, t: Ticket)
    requires Core(s) && Shows(s) && t in s.holders && s.holders[t].Queue?
    ensures t in s.jobs && Shows(StopQueuedJob(s, caller, t))
  {
    hide Core, ShownOk, CancelQueued;
    CancelShows(s, t, Stopping(caller));
    CancelFrame(s, t, Stopping(caller));
  }

  lemma StopRunningShows(s: State, caller: Caller, id: JobId)
    requires Inv(s) && Shows(s) && Controllable(s, id) && s.outstanding[id] in s.started
    ensures Shows(StopRunningJob(s, caller, id, s.outstanding[id]))
  {
    hide Inv, ShownOk;
    ControllableFacts(s, id);
    ShownUpdate(s.outstanding, s.records, s.started, s.paused, s.stopRequested, id,
      s.started, s.paused, s.stopRequested + {s.outstanding[id]});
  }

  lemma CancelFrame(s: State, t: Ticket, holder: Holder)
    requires t in s.jobs
    ensures var after := CancelQueued(s, t, holder);
      after == s.(queue := after.queue, outstanding := after.outstanding, holders := after.holders,
                  statistics := after.statistics, completedOrder := after.completedOrder,
                  records := after.records, missed := after.missed)
  {
    hide CompleteRecord;
  }

  lemma StopPlaces(s: State, id: JobId)
    requires Inv(s) && Controllable(s, id)
    ensures Core(s) && s.outstanding[id] in s.holders
    ensures s.holders[s.outstanding[id]].Queue? <==> s.outstanding[id] !in s.started
  {
    hide RecordsOk, TicketsOk, LiveOk, QueueHolds, ActiveHolds, SettlingHolds, StopsHold, ShutdownHolds, PromisesOk,
      CountersOk, OutstandingOk, StartedOk;
    OutstandingIsHeld(s.jobs, s.nextTicket, s.outstanding, s.holders, id);
    StartedMeansRunning(s.holders, s.started, s.outstanding[id]);
  }

  /** A job that a stop call or the shutdown took off the queue is no longer outstanding. */
  lemma TakenOff(s: State, t: Ticket)
    requires Inv(s) && t in s.holders && !s.holders[t].Queue? && !s.holders[t].Running?
    ensures forall id :: id in s.outstanding ==> s.outstanding[id] != t
  {
    hide RecordsOk, TicketsOk, LiveOk, HoldersOk, CountersOk;
  }

  lemma StopFinishShows(s: State, caller: Caller)
    requires Inv(s) && Shows(s)
    ensures Shows(StopFinishStep(s, caller))
  {
    hide ShownOk, Inv;
    if caller in s.stops {
      hide StopFinishStep;
      StopFinishFrame(s, caller);
      CalledJob(s, caller);
      ShownUnpaused(s.outstanding, s.records, s.started, s.paused, s.stopRequested, s.stops[caller].ticket);
    }
  }

  lemma StopFinishFrame(s: State, caller: Caller)
    requires caller in s.stops
    ensures var after := StopFinishStep(s, caller);
      && after.outstanding == s.outstanding && after.records == s.records && after.started == s.started
      && after.stopRequested == s.stopRequested && after.nextTicket == s.nextTicket && after.shutdown == s.shutdown
      && after.stops == s.stops - {caller}
      && after.paused == s.paused - {s.stops[caller].ticket}
  {
    hide SetPromise;
  }

  lemma CalledJob(s: State, caller: Caller)
    requires Inv(s) && FlagsOk(s) && caller in s.stops
    ensures s.stops[caller].ticket in s.stopRequested ||
      forall id :: id in s.outstanding ==> s.outstanding[id] != s.stops[caller].ticket
  {
    hide TablesOk, CountersOk, QueueHolds, ActiveHolds, SettlingHolds, StopsHold, ShutdownHolds, PromisesOk, StartedOk;
    StopsDrop(s.holders, s.stops, caller);
    if s.stops[caller].wasQueued {
      TakenOff(s, s.stops[caller].ticket);
    }
  }

  // ---------------------------------------------------------------- shutdown

  lemma {:induction false} DrainShows(s: State)
    requires Core(s) && Shows(s) && s.shutdown.Resolving?
    ensures Shows(CancelAllQueued(s))
    decreases |s.queue|
  {
    hide Shows, Core, CompleteRecord;
    if s.queue != [] {
      var t := s.queue[0];
      HeadJob(s);
      DrainOne(s);
      DrainShows(CancelQueued(s, t, Holder.Draining).(shutdown := s.shutdown.(queued := s.shutdown.queued + [t])));
    }
  }

  lemma DrainOne(s: State)
    requires Core(s) && Shows(s) && s.shutdown.Resolving? && s.queue != []
    ensures s.queue[0] in s.jobs
    ensures Shows(CancelQueued(s, s.queue[0], Holder.Draining).(
      shutdown := s.shutdown.(queued := s.shutdown.queued + [s.queue[0]])))
  {
    hide TablesOk, CountersOk, ShownOk, ActiveHolds, SettlingHolds, StopsHold, ShutdownHolds, StartedOk, PromisesOk,
      QueueHolds, CancelQueued;
    HeadIsQueued(s);
    CancelShows(s, s.queue[0], Holder.Draining);
    CancelFrame(s, s.queue[0], Holder.Draining);
  }

  lemma MarkShows(s: State)
    requires Core(s) && Shows(s) && s.shutdown.Resolving? && s.queue == []
    ensures Shows(MarkRunning(s))
  {
    hide Core, ShownOk, Marked, TicketsOf;
    AllStarted(s);
    ShownMarked(s.outstanding, s.records, s.started, s.paused, s.stopRequested);
  }

  lemma AllStarted(s: State)
    requires Core(s) && s.queue == []
    ensures TicketsOf(s.outstanding) <= s.started
  {
    hide RecordsOk, TicketsOk, LiveOk, CountersOk, ActiveHolds, SettlingHolds, StopsHold, ShutdownHolds, PromisesOk;
  }

  lemma ShutdownShows(s: State, byWorker: bool)
    requires Inv(s) && Shows(s)
    ensures Shows(ShutdownBeginStep(s, byWorker))
  {
    hide Inv, Core, ShownOk, CancelAllQueued, MarkRunning;
    if !byWorker && s.shutdown.NotStarted? {
      ClosingCore(s);
      DrainShows(Closing(s));
      CancelAllCore(Closing(s));
      MarkShows(CancelAllQueued(Closing(s)));
    }
  }

  lemma ShutdownResolveShows(s: State)
    requires Inv(s) && Shows(s)
    ensures Shows(ShutdownResolveStep(s))
  {
    hide ShownOk, TablesOk, CountersOk, QueueHolds, ActiveHolds, SettlingHolds, StopsHold, PromisesOk, StartedOk;
    if s.shutdown.Resolving? && s.shutdown.queued != [] {
      var t := s.shutdown.queued[0];
      assert t in s.shutdown.queued;
      TakenOff(s, t);
      ShownUnpaused(s.outstanding, s.records, s.started, s.paused, s.stopRequested, t);
    }
  }

  lemma ShutdownCancelShows(s: State, t: Ticket)
    requires Shows(s)
    ensures Shows(ShutdownCancelStep(s, t))
  {
    hide ShownOk;
    if s.shutdown.Resolving? && t in s.shutdown.running {
      ShownUnpaused(s.outstanding, s.records, s.started, s.paused, s.stopRequested, t);
    }
  }

  // ---------------------------------------------------------------- workers

  lemma TakeFacts(s: State, index: nat)
    requires Inv(s) && Shows(s) && IsBest(s, index)
    ensures var t := s.queue[index];
      && t in s.jobs && s.jobs[t].id in s.outstanding && s.outstanding[s.jobs[t].id] == t && s.jobs[t].id in s.records
      && t !in s.paused && t !in s.stopRequested
      && forall x :: x in s.outstanding && s.outstanding[x] == t ==> x == s.jobs[t].id
  {
    hide TicketsOk, LiveOk, ActiveHolds, SettlingHolds, StopsHold, ShutdownHolds, PromisesOk, CountersOk,
      OutstandingOk, RecordsOk, ShownOk, Beats;
    var t := s.queue[index];
    assert t in s.queue;
    HeldIsOutstanding(s.jobs, s.nextTicket, s.outstanding, s.holders, t);
    RecordedIds(s.options, s.outstanding, s.records, s.completedOrder, s.jobs[t].id);
    OwnTicket(s.jobs, s.nextTicket, s.outstanding, s.holders);
  }

  lemma TakeShows(s: State, w: Worker, index: nat)
    requires Inv(s) && Shows(s)
    ensures Shows(WorkerTakeStep(s, w, index))
  {
    hide Inv, ShownOk, IsBest;
    if Idle(s, w) && IsBest(s, index) {
      TakeFacts(s, index);
      TakenPlace(s, index);
      var t := s.queue[index];
      ShownUpdate(s.outstanding, s.records, s.started, s.paused, s.stopRequested, s.jobs[t].id,
        s.started + {t}, s.paused, s.stopRequested);
    }
  }

  lemma TakenPlace(s: State, index: nat)
    requires IsBest(s, index)
    ensures index < |s.queue|
  {
  }

  lemma CompleteShows(s: State, w: Worker)
    requires Inv(s) && Shows(s)
    ensures Shows(WorkerCompleteStep(s, w))
  {
    hide ShownOk, KeptRecords, KeptOrder, OutstandingOk, RecordsOk, TicketsOk, LiveOk, QueueHolds, SettlingHolds,
      StopsHold, ShutdownHolds, PromisesOk, StartedOk, QueueOk, WorkersOk;
    if w in s.active && s.active[w].verdict.Decided? {
      var t := s.active[w].ticket;
      HeldIsOutstanding(s.jobs, s.nextTicket, s.outstanding, s.holders, t);
      var id := s.jobs[t].id;
      RecordedIds(s.options, s.outstanding, s.records, s.completedOrder, id);
      RecordsComplete(s.options, s.outstanding, s.records, s.completedOrder, id, s.active[w].verdict.state);
      ShownFewer(s.outstanding, s.records, s.started, s.paused, s.stopRequested, s.outstanding - {id},
        WorkerCompleteStep(s, w).records);
    }
  }

  // ---------------------------------------------------------------- runs

  lemma QuietShows(s: State, e: Event)
    requires Shows(s)
    requires e.RequestCancellation? || e.ShutdownRequestStop? || e.ShutdownJoin? || e.WorkerReturn? ||
      e.WorkerSettle? || e.WorkerExit?
    ensures Shows(Step(s, e))
  {
    hide ShownOk;
  }

  lemma StepShows(s: State, e: Event)
    requires Inv(s) && Shows(s)
    ensures Shows(Step(s, e))
  {
    hide Inv, Shows, SubmitStep, PauseStep, ResumeStep, StopBeginStep, StopFinishStep, RequestCancellationStep,
      ShutdownBeginStep, ShutdownResolveStep, ShutdownCancelStep, ShutdownRequestStopStep, ShutdownJoinStep,
      WorkerTakeStep, WorkerReturnStep, WorkerCompleteStep, WorkerSettleStep, WorkerExitStep;
    match e
    case Submit(job) => SubmitShows(s, job);
    case Pause(id) => PauseShows(s, id);
    case Resume(id) => ResumeShows(s, id);
    case StopBegin(caller, id) => StopShows(s, caller, id);
    case StopFinish(caller) => StopFinishShows(s, caller);
    case ShutdownBegin(byWorker) => ShutdownShows(s, byWorker);
    case ShutdownResolve => ShutdownResolveShows(s);
    case ShutdownCancel(t) => ShutdownCancelShows(s, t);
    case WorkerTake(w, index) => TakeShows(s, w, index);
    case WorkerComplete(w) => CompleteShows(s, w);
    case _ => QuietShows(s, e);
  }

  lemma {:induction false} RunShows(options: Options, events: seq<Event>)
    requires options.Valid()
    ensures Shows(Run(options, events))
  {
    hide Inv, Step;
    if events != [] {
      RunShows(options, events[..|events| - 1]);
      RunInv(options, events[..|events| - 1]);
      StepShows(Run(options, events[..|events| - 1]), events[|events| - 1]);
    }
  }

  /** The record of an outstanding job shows Cancelled if and only if the job was asked to stop, else
      Paused if and only if it is paused, else whether it runs or waits in the queue. */
  lemma RecordsShowTheTruth(options: Options, events: seq<Event>, id: JobId)
    requires options.Valid() && id in Run(options, events).outstanding
    ensures
      var s := Run(options, events);
      var t := s.outstanding[id];
      && id in s.records
      && var state := s.records[id].state;
      && (state == Cancelled <==> t in s.stopRequested)
      && (state == Paused <==> t in s.paused && t !in s.stopRequested)
      && (t !in s.stopRequested && t !in s.paused ==>
            state == if t in s.queue then Created else ExecutionState.Running)
  {
    hide Run;
    RunShows(options, events);
    RunInv(options, events);
    var s := Run(options, events);
    Places(s, id);
  }

  lemma Places(s: State, id: JobId)
    requires Inv(s) && id in s.outstanding
    ensures id in s.records && (s.outstanding[id] in s.queue <==> s.outstanding[id] !in s.started)
  {
    hide TicketsOk, LiveOk, ActiveHolds, SettlingHolds, StopsHold, ShutdownHolds, PromisesOk, CountersOk;
  }
}
