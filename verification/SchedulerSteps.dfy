/** Every step of the scheduler keeps its invariant. Each lemma hides what the parts of the
    invariant mean and combines the one-part lemmas. */
module SchedulerSteps {
  import opened Basics
  import opened SchedulerModel
  import opened SchedulerInvariant

  lemma SubmitInv(s: State, job: Job)
    requires Inv(s)
    ensures Inv(SubmitStep(s, job))
  {
    hide RecordsOk, OutstandingOk, TicketsOk, LiveOk, QueueHolds, ActiveHolds, SettlingHolds, StopsHold,
      ShutdownHolds, StartedOk, PromisesOk, QueueOk, WorkersOk, RunningOk;
    if Admissible(s, job) {
      var t := s.nextTicket;
      SubmitFacts(s, job);
      var snapshot := Snapshot(t, job.priority, job.mode, Created);
      RecordsInsert(s.options, s.outstanding, s.records, s.completedOrder, job.id, t, snapshot);
      OutstandingInsert(s.jobs, t, s.outstanding, s.holders, job);
      TicketsInsert(t, s.records, job.id, snapshot);
      NewPlaces(s, t);
      RunningNewJob(s.jobs, s.active, s.sequentialRunning, s.runningCount, t, job);
    }
  }

  lemma SubmitFacts(s: State, job: Job)
    requires Inv(s) && Admissible(s, job)
    ensures job.id !in s.outstanding && s.nextTicket >= 1 && s.shutdown.NotStarted?
    ensures s.nextTicket !in s.started && s.nextTicket !in s.holders && s.nextTicket !in s.jobs
    ensures QueueOk(s.options, s.queue + [s.nextTicket], s.accepting, s.shutdown)
    ensures LiveOk(s.outstanding[job.id := s.nextTicket],
                   s.records[job.id := Snapshot(s.nextTicket, job.priority, job.mode, Created)],
                   s.holders[s.nextTicket := Queue])
  {
    hide ActiveHolds, SettlingHolds, StopsHold, ShutdownHolds, PromisesOk, WorkersOk, RunningOk, LiveOk, TicketsOk;
    QueueAppend(s.options, s.queue, s.accepting, s.shutdown, s.nextTicket);
    LiveInsert(s.outstanding, s.records, s.holders, job.id, s.nextTicket,
      Snapshot(s.nextTicket, job.priority, job.mode, Created));
  }

  lemma TicketsInsert(next: Ticket, records: map<JobId, Snapshot>, id: JobId, snapshot: Snapshot)
    requires TicketsOk(next, records) && snapshot.ticket == next
    ensures TicketsOk(next + 1, records[id := snapshot])
  {
  }

  lemma TicketsUpdate(next: Ticket, records: map<JobId, Snapshot>, id: JobId, state: ExecutionState)
    requires TicketsOk(next, records) && id in records
    ensures TicketsOk(next, records[id := records[id].(state := state)])
  {
  }

  lemma TicketsFewer(next: Ticket, records: map<JobId, Snapshot>, kept: map<JobId, Snapshot>)
    requires TicketsOk(next, records)
    requires forall x :: x in kept ==> x in records && kept[x].ticket == records[x].ticket
    ensures TicketsOk(next, kept)
  {
  }

  /** Changing the state of an outstanding record keeps the tables. */
  lemma RecordStateTables(s: State, id: JobId, state: ExecutionState)
    requires TablesOk(s) && id in s.outstanding
    requires s.outstanding[id] in s.holders && s.holders[s.outstanding[id]].Queue? ==> !Terminal(state)
    ensures id in s.records
    ensures TablesOk(SetRecordState(s, id, state))
  {
    hide RecordsOk, OutstandingOk, TicketsOk, LiveOk, QueueHolds, ActiveHolds, SettlingHolds, StopsHold,
      ShutdownHolds, StartedOk, PromisesOk, QueueOk, WorkersOk, RunningOk;
    RecordedIds(s.options, s.outstanding, s.records, s.completedOrder, id);
    RecordsUpdate(s.options, s.outstanding, s.records, s.completedOrder, id, state);
    TicketsUpdate(s.nextTicket, s.records, id, state);
    LiveUpdate(s.outstanding, s.records, s.holders, id, state);
  }

  lemma PauseInv(s: State, id: JobId)
    requires Inv(s)
    ensures Inv(PauseStep(s, id))
  {
    hide RecordsOk, OutstandingOk, TicketsOk, LiveOk, QueueHolds, ActiveHolds, SettlingHolds, StopsHold,
      ShutdownHolds, StartedOk, PromisesOk, QueueOk, WorkersOk, RunningOk;
    if Controllable(s, id) {
      var t := s.outstanding[id];
      RecordStateTables(s.(paused := s.paused + {t}), id, Paused);
    }
  }

  lemma ResumeInv(s: State, id: JobId)
    requires Inv(s)
    ensures Inv(ResumeStep(s, id))
  {
    hide RecordsOk, OutstandingOk, TicketsOk, LiveOk, QueueHolds, ActiveHolds, SettlingHolds, StopsHold,
      ShutdownHolds, StartedOk, PromisesOk, QueueOk, WorkersOk, RunningOk;
    if Controllable(s, id) {
      var t := s.outstanding[id];
      RecordStateTables(s.(paused := s.paused - {t}), id, if t in s.started then ExecutionState.Running else Created);
    }
  }

  /** Completing the record of a job that leaves `outstanding` keeps the tables. */
  lemma CompleteTables(s: State, t: Ticket, holder: Holder, state: ExecutionState)
    requires TablesOk(s) && Terminal(state)
    requires t in s.holders && (s.holders[t].Queue? || s.holders[t].Running?)
    requires !holder.Queue? && !holder.Running?
    ensures t in s.jobs && s.jobs[t].id in s.records
    ensures var leaving := s.(outstanding := s.outstanding - {s.jobs[t].id}, holders := s.holders[t := holder]);
      TablesOk(CompleteRecord(leaving, s.jobs[t].id, state))
  {
    hide RecordsOk, OutstandingOk, TicketsOk, LiveOk, QueueHolds, ActiveHolds, SettlingHolds, StopsHold,
      ShutdownHolds, StartedOk, PromisesOk, QueueOk, WorkersOk, RunningOk;
    HeldIsOutstanding(s.jobs, s.nextTicket, s.outstanding, s.holders, t);
    var id := s.jobs[t].id;
    RecordedIds(s.options, s.outstanding, s.records, s.completedOrder, id);
    RecordsComplete(s.options, s.outstanding, s.records, s.completedOrder, id, state);
    var left := s.outstanding - {id};
    var kept := KeptRecords(s.options, s.completedOrder + [id], left, s.records[id := s.records[id].(state := state)]);
    OutstandingRemove(s.jobs, s.nextTicket, s.outstanding, s.holders, t, holder);
    LiveRemove(s.outstanding, s.records, s.holders, left, kept, t, holder);
    TicketsFewer(s.nextTicket, s.records, kept);
  }

  /** Cancelling a queued job keeps everything but the place that takes it over. */
  lemma CancelQueuedCore(s: State, t: Ticket, holder: Holder)
    requires Core(s) && t in s.holders && s.holders[t].Queue?
    requires holder.Stopping? || holder.Draining?
    ensures t in s.jobs
    ensures
      var after := CancelQueued(s, t, holder);
      && after.options.Valid() && TablesOk(after) && CountersOk(after)
      && after.holders == s.holders[t := holder]
      && after.stops == s.stops && after.shutdown == s.shutdown
      && QueueHolds(after.holders, after.queue) && ActiveHolds(after.holders, after.active)
      && SettlingHolds(after.holders, after.settling)
      && StartedOk(after.holders, after.started) && PromisesOk(after.holders, after.resolved)
      && (holder.Draining? ==> StopsHold(after.holders, after.stops))
      && (holder.Stopping? ==> ShutdownHolds(after.holders, after.shutdown))
  {
    hide RecordsOk, OutstandingOk, TicketsOk, LiveOk, QueueHolds, ActiveHolds, SettlingHolds, StopsHold,
      ShutdownHolds, StartedOk, PromisesOk, QueueOk, WorkersOk, RunningOk;
    QueuedFacts(s, t, holder);
    OtherPlaces(s, t, holder);
    StartedSame(s.holders, s.started, t, holder);
    PromisesSame(s.holders, s.resolved, t, holder);
    CompleteTables(s, t, holder, Cancelled);
  }

  lemma QueuedFacts(s: State, t: Ticket, holder: Holder)
    requires CountersOk(s) && QueueHolds(s.holders, s.queue) && t in s.holders && s.holders[t].Queue? && !holder.Queue?
    ensures QueueHolds(s.holders[t := holder], RemoveFirst(s.queue, t))
    ensures |RemoveFirst(s.queue, t)| == |s.queue| - 1
    ensures QueueOk(s.options, RemoveFirst(s.queue, t), s.accepting, s.shutdown)
  {
    QueueRemove(s.holders, s.queue, t, holder);
  }

  lemma StopBeginInv(s: State, caller: Caller, id: JobId)
    requires Inv(s)
    ensures Inv(StopBeginStep(s, caller, id))
  {
    hide RecordsOk, OutstandingOk, TicketsOk, LiveOk, QueueHolds, ActiveHolds, SettlingHolds, StopsHold,
      ShutdownHolds, StartedOk, PromisesOk, QueueOk, WorkersOk, RunningOk;
    if caller !in s.stops && Controllable(s, id) {
      OutstandingIsHeld(s.jobs, s.nextTicket, s.outstanding, s.holders, id);
      StartedMeansRunning(s.holders, s.started, s.outstanding[id]);
      if s.outstanding[id] !in s.started {
        StopQueuedInv(s, caller, id);
      } else {
        StopRunningInv(s, caller, id);
      }
    }
  }

  lemma StopQueuedInv(s: State, caller: Caller, id: JobId)
    requires Inv(s) && caller !in s.stops && Controllable(s, id)
    requires var t := s.outstanding[id]; t !in s.started && t in s.holders && s.holders[t].Queue?
    ensures Inv(StopBeginStep(s, caller, id))
  {
    hide RecordsOk, OutstandingOk, TicketsOk, LiveOk, QueueHolds, ActiveHolds, SettlingHolds, StopsHold,
      ShutdownHolds, StartedOk, PromisesOk, QueueOk, WorkersOk, RunningOk;
    var t := s.outstanding[id];
    QueuedBeforeShutdown(s, t);
    CancelQueuedCore(s, t, Stopping(caller));
    StopsAdd(s.holders, s.stops, caller, t);
  }

  lemma StopRunningInv(s: State, caller: Caller, id: JobId)
    requires Inv(s) && caller !in s.stops && Controllable(s, id)
    requires var t := s.outstanding[id]; t in s.started && t in s.holders && s.holders[t].Running?
    ensures Inv(StopBeginStep(s, caller, id))
  {
    hide RecordsOk, OutstandingOk, TicketsOk, LiveOk, QueueHolds, ActiveHolds, SettlingHolds, StopsHold,
      ShutdownHolds, StartedOk, PromisesOk, QueueOk, WorkersOk, RunningOk;
    var t := s.outstanding[id];
    StopsAdd(s.holders, s.stops, caller, t);
    RecordStateTables(s.(stopRequested := s.stopRequested + {t}), id, Cancelled);
  }

  lemma QueuedBeforeShutdown(s: State, t: Ticket)
    requires Inv(s) && t in s.holders && s.holders[t].Queue?
    ensures s.shutdown.NotStarted?
  {
    assert t in s.queue;
  }

  lemma StartedMeansRunning(holders: map<Ticket, Holder>, started: set<Ticket>, t: Ticket)
    requires StartedOk(holders, started) && t in holders && (holders[t].Queue? || holders[t].Running?)
    ensures t in started <==> holders[t].Running?
  {
  }

  /** Setting the promise of a job that is neither queued nor running keeps all but its old place. */
  lemma SetPromiseInv(s: State, t: Ticket)
    requires Inv(s) && t in s.holders && !s.holders[t].Queue? && !s.holders[t].Running? && !s.holders[t].Nobody?
    ensures
      var after := SetPromise(s, t);
      && TablesOk(after) && CountersOk(after)
      && QueueHolds(after.holders, after.queue) && ActiveHolds(after.holders, after.active)
      && StartedOk(after.holders, after.started) && PromisesOk(after.holders, after.resolved)
      && (!s.holders[t].Settling? ==> SettlingHolds(after.holders, after.settling))
      && (!s.holders[t].Stopping? ==> StopsHold(after.holders, after.stops))
      && (!s.holders[t].Draining? ==> ShutdownHolds(after.holders, after.shutdown))
  {
    hide RecordsOk, OutstandingOk, TicketsOk, LiveOk, QueueHolds, ActiveHolds, SettlingHolds, StopsHold,
      ShutdownHolds, StartedOk, PromisesOk, QueueOk, WorkersOk, RunningOk;
    OtherPlaces(s, t, Nobody);
    PromiseOnce(s.holders, s.resolved, t);
    StartedSame(s.holders, s.started, t, Nobody);
    OutstandingKeep(s.jobs, s.nextTicket, s.outstanding, s.holders, t, Nobody);
    LiveKeep(s.outstanding, s.records, s.holders, t, Nobody);
  }

  lemma LiveKeep(
      outstanding: map<JobId, Ticket>, records: map<JobId, Snapshot>, holders: map<Ticket, Holder>, t: Ticket,
      holder: Holder)
    requires LiveOk(outstanding, records, holders) && t in holders && !holder.Queue?
    ensures LiveOk(outstanding, records, holders[t := holder])
  {
  }

  lemma StopFinishInv(s: State, caller: Caller)
    requires Inv(s)
    ensures Inv(StopFinishStep(s, caller))
  {
    hide RecordsOk, OutstandingOk, TicketsOk, LiveOk, QueueHolds, ActiveHolds, SettlingHolds, StopsHold,
      ShutdownHolds, StartedOk, PromisesOk, QueueOk, WorkersOk, RunningOk;
    if caller in s.stops {
      var call := s.stops[caller];
      StopsDrop(s.holders, s.stops, caller);
      if call.wasQueued {
        SetPromiseInv(s, call.ticket);
        RequestStopInv(SetPromise(s, call.ticket).(stops := s.stops - {caller}), call.ticket);
      } else {
        RequestStopInv(s.(stops := s.stops - {caller}), call.ticket);
      }
    }
  }

  lemma RequestStopInv(s: State, t: Ticket)
    requires Inv(s)
    ensures Inv(RequestStop(s, t))
  {
    hide RecordsOk, OutstandingOk, TicketsOk, LiveOk, QueueHolds, ActiveHolds, SettlingHolds, StopsHold,
      ShutdownHolds, StartedOk, PromisesOk, QueueOk, WorkersOk, RunningOk;
  }

  lemma ShutdownResolveInv(s: State)
    requires Inv(s)
    ensures Inv(ShutdownResolveStep(s))
  {
    hide RecordsOk, OutstandingOk, TicketsOk, LiveOk, QueueHolds, ActiveHolds, SettlingHolds, StopsHold,
      ShutdownHolds, StartedOk, PromisesOk, QueueOk, WorkersOk, RunningOk;
    if s.shutdown.Resolving? && s.shutdown.queued != [] {
      ShutdownDrop(s.holders, s.shutdown);
      SetPromiseInv(s, s.shutdown.queued[0]);
      PhaseOnly(s, s.shutdown.(queued := s.shutdown.queued[1..]));
    }
  }

  /** Moving between the phases of a shutdown in progress leaves the queue and workers valid. */
  lemma PhaseOnly(s: State, phase: ShutdownPhase)
    requires QueueOk(s.options, s.queue, s.accepting, s.shutdown)
    requires WorkersOk(s.options, s.active, s.settling, s.exited, s.shutdown)
    requires !s.shutdown.NotStarted? && !s.shutdown.Complete?
    requires phase.Complete? ==> forall w :: 0 <= w < s.options.workerCount ==> w in s.exited
    ensures QueueOk(s.options, s.queue, s.accepting, phase)
    ensures WorkersOk(s.options, s.active, s.settling, s.exited, phase)
  {
  }

  lemma DrainedPhase(holders: map<Ticket, Holder>, shutdown: ShutdownPhase, phase: ShutdownPhase)
    requires ShutdownHolds(holders, shutdown)
    requires shutdown.Resolving? ==> shutdown.queued == []
    requires phase.Resolving? ==> phase.queued == []
    ensures ShutdownHolds(holders, phase)
  {
  }

  lemma ShutdownPhaseInv(s: State, phase: ShutdownPhase)
    requires Inv(s) && !s.shutdown.NotStarted? && !s.shutdown.Complete?
    requires s.shutdown.Resolving? ==> s.shutdown.queued == []
    requires !phase.NotStarted? && (phase.Resolving? ==> phase.queued == [])
    requires phase.Complete? ==> forall w :: 0 <= w < s.options.workerCount ==> w in s.exited
    ensures Inv(s.(shutdown := phase))
  {
    hide RecordsOk, OutstandingOk, TicketsOk, LiveOk, QueueHolds, ActiveHolds, SettlingHolds, StopsHold,
      ShutdownHolds, StartedOk, PromisesOk, QueueOk, WorkersOk, RunningOk;
    PhaseOnly(s, phase);
    DrainedPhase(s.holders, s.shutdown, phase);
  }

  lemma ShutdownTailInv(s: State, t: Ticket)
    requires Inv(s)
    ensures Inv(ShutdownCancelStep(s, t)) && Inv(ShutdownRequestStopStep(s)) && Inv(ShutdownJoinStep(s))
  {
    hide RecordsOk, OutstandingOk, TicketsOk, LiveOk, QueueHolds, ActiveHolds, SettlingHolds, StopsHold,
      ShutdownHolds, StartedOk, PromisesOk, QueueOk, WorkersOk, RunningOk;
    if ShutdownCancelStep(s, t) != s {
      ShutdownPhaseInv(s, s.shutdown.(running := s.shutdown.running - {t}));
    }
    if ShutdownRequestStopStep(s) != s {
      ShutdownPhaseInv(s, Joining);
    }
    if ShutdownJoinStep(s) != s {
      ShutdownPhaseInv(s, Complete);
    }
  }

  lemma HeadJob(s: State)
    requires Core(s) && s.queue != [] && s.shutdown.Resolving?
    ensures
      var t := s.queue[0];
      && t in s.jobs && s.jobs[t].id in s.records
      && RemoveFirst(s.queue, t) == s.queue[1..]
      && Core(CancelQueued(s, t, Holder.Draining).(shutdown := s.shutdown.(queued := s.shutdown.queued + [t])))
  {
    hide RecordsOk, OutstandingOk, TicketsOk, LiveOk, QueueHolds, ActiveHolds, SettlingHolds, StopsHold,
      ShutdownHolds, StartedOk, PromisesOk, QueueOk, WorkersOk, RunningOk;
    var t := s.queue[0];
    HeadIsQueued(s);
    HeldIsOutstanding(s.jobs, s.nextTicket, s.outstanding, s.holders, t);
    RecordedIds(s.options, s.outstanding, s.records, s.completedOrder, s.jobs[t].id);
    CancelQueuedCore(s, t, Holder.Draining);
    ShutdownAdd(s.holders, s.shutdown, t);
    PhaseOnly(CancelQueued(s, t, Holder.Draining), s.shutdown.(queued := s.shutdown.queued + [t]));
  }

  /** Cancelling every queued job under the shutdown's lock. */
  lemma {:induction false} CancelAllCore(s: State)
    requires Core(s) && s.shutdown.Resolving?
    ensures Core(CancelAllQueued(s)) && CancelAllQueued(s).queue == [] && CancelAllQueued(s).shutdown.Resolving?
    decreases |s.queue|
  {
    hide RecordsOk, OutstandingOk, TicketsOk, LiveOk, QueueHolds, ActiveHolds, SettlingHolds, StopsHold,
      ShutdownHolds, StartedOk, PromisesOk, QueueOk, WorkersOk, RunningOk;
    if s.queue != [] {
      var t := s.queue[0];
      HeadIsQueued(s);
      CancelQueuedCore(s, t, Holder.Draining);
      ShutdownAdd(s.holders, s.shutdown, t);
      var next := CancelQueued(s, t, Holder.Draining);
      var phase := s.shutdown.(queued := s.shutdown.queued + [t]);
      PhaseOnly(next, phase);
      CancelAllCore(next.(shutdown := phase));
    }
  }

  lemma HeadIsQueued(s: State)
    requires QueueHolds(s.holders, s.queue) && s.queue != []
    ensures s.queue[0] in s.holders && s.holders[s.queue[0]].Queue?
    ensures RemoveFirst(s.queue, s.queue[0]) == s.queue[1..]
  {
    assert s.queue[0] in s.queue;
  }

  lemma MarkedTables(s: State)
    requires TablesOk(s) && QueueHolds(s.holders, s.queue) && s.queue == []
    ensures s.outstanding.Keys <= s.records.Keys
    ensures RecordsOk(s.options, s.outstanding, Marked(s.outstanding, s.records), s.completedOrder)
    ensures TicketsOk(s.nextTicket, Marked(s.outstanding, s.records))
    ensures LiveOk(s.outstanding, Marked(s.outstanding, s.records), s.holders)
  {
    forall t | t in s.holders
      ensures !s.holders[t].Queue?
    {
      assert t !in s.queue;
    }
  }

  lemma MarkRunningCore(s: State)
    requires Core(s) && s.shutdown.Resolving? && s.queue == []
    ensures Inv(MarkRunning(s))
  {
    hide RecordsOk, OutstandingOk, TicketsOk, LiveOk, QueueHolds, ActiveHolds, SettlingHolds, StopsHold,
      ShutdownHolds, StartedOk, PromisesOk, QueueOk, WorkersOk, RunningOk;
    MarkedTables(s);
    var phase := s.shutdown.(running := TicketsOf(s.outstanding));
    PhaseOnly(s, phase);
    RunningSet(s.holders, s.shutdown, TicketsOf(s.outstanding));
  }

  lemma RunningSet(holders: map<Ticket, Holder>, shutdown: ShutdownPhase, running: set<Ticket>)
    requires ShutdownHolds(holders, shutdown) && shutdown.Resolving?
    ensures ShutdownHolds(holders, shutdown.(running := running))
  {
  }

  lemma ShutdownBeginInv(s: State, byWorker: bool)
    requires Inv(s)
    ensures Inv(ShutdownBeginStep(s, byWorker))
  {
    hide Inv, Core, Closing, CancelAllQueued, MarkRunning;
    StopsAccepting(s);
    if s.shutdown.NotStarted? && !byWorker {
      ClosingCore(s);
      CancelAllCore(Closing(s));
      MarkRunningCore(CancelAllQueued(Closing(s)));
    }
  }

  lemma StopsAccepting(s: State)
    requires Inv(s)
    ensures Inv(s.(accepting := false))
  {
    hide RecordsOk, OutstandingOk, TicketsOk, LiveOk, QueueHolds, ActiveHolds, SettlingHolds, StopsHold,
      ShutdownHolds, StartedOk, PromisesOk, QueueOk, WorkersOk, RunningOk;
    NotAccepting(s);
  }

  lemma ClosingCore(s: State)
    requires Inv(s) && s.shutdown.NotStarted?
    ensures Core(Closing(s))
  {
    hide RecordsOk, OutstandingOk, TicketsOk, LiveOk, QueueHolds, ActiveHolds, SettlingHolds, StopsHold,
      ShutdownHolds, StartedOk, PromisesOk, QueueOk, WorkersOk, RunningOk;
    NotAccepting(s);
  }

  lemma NotAccepting(s: State)
    requires Core(s)
    ensures QueueOk(s.options, s.queue, false, s.shutdown)
    ensures s.shutdown.NotStarted? ==>
      && QueueOk(s.options, s.queue, false, Resolving([], {}))
      && WorkersOk(s.options, s.active, s.settling, s.exited, Resolving([], {}))
      && ShutdownHolds(s.holders, Resolving([], {}))
  {
    hide RecordsOk, OutstandingOk, TicketsOk, LiveOk, QueueHolds, ActiveHolds, SettlingHolds, StopsHold, StartedOk,
      PromisesOk, RunningOk;
  }

  // ---------------------------------------------------------------- workers

  lemma BestIsQueued(s: State, index: nat)
    requires QueueHolds(s.holders, s.queue) && QueueOk(s.options, s.queue, s.accepting, s.shutdown) && IsBest(s, index)
    ensures var t := s.queue[index];
      && t in s.jobs && t in s.holders && s.holders[t].Queue?
      && !s.sequentialRunning && (s.jobs[t].mode.Sequential? ==> s.runningCount == 0)
      && s.queue[..index] + s.queue[index + 1..] == RemoveFirst(s.queue, t)
  {
    assert s.queue[index] in s.queue;
    RemoveIndexed(s.queue, index);
  }

  lemma WorkersTake(s: State, w: Worker, task: Task)
    requires WorkersOk(s.options, s.active, s.settling, s.exited, s.shutdown) && Idle(s, w)
    ensures WorkersOk(s.options, s.active[w := task], s.settling, s.exited, s.shutdown)
    ensures |s.active| + 1 <= s.options.workerCount
  {
    ActiveBound(s.options, s.active[w := task], s.settling, s.exited, s.shutdown);
  }

  lemma WorkerTakeInv(s: State, w: Worker, index: nat)
    requires Inv(s)
    ensures Inv(WorkerTakeStep(s, w, index))
  {
    hide RecordsOk, OutstandingOk, TicketsOk, LiveOk, QueueHolds, ActiveHolds, SettlingHolds, StopsHold,
      ShutdownHolds, StartedOk, PromisesOk, QueueOk, WorkersOk, RunningOk;
    if Idle(s, w) && IsBest(s, index) {
      var t := s.queue[index];
      var holder := Holder.Running(w);
      BestIsQueued(s, index);
      QueuedFacts(s, t, holder);
      QueuedBeforeShutdown(s, t);
      OtherPlaces(s, t, holder);
      ActiveAdd(s.holders, s.active, w, t, Pending);
      StartedNow(s.holders, s.started, t, w);
      PromisesSame(s.holders, s.resolved, t, holder);
      WorkersTake(s, w, Task(t, Pending));
      RunningAdd(s.jobs, s.active, s.sequentialRunning, s.runningCount, w, t);
      RunningIsCounted(s);
      TakeTables(s, t, w);
    }
  }

  lemma RunningIsCounted(s: State)
    requires RunningOk(s.jobs, s.active, s.sequentialRunning, s.runningCount)
    ensures s.runningCount == |s.active|
  {
  }

  lemma TakeTables(s: State, t: Ticket, w: Worker)
    requires TablesOk(s) && t in s.holders && s.holders[t].Queue?
    ensures t in s.jobs && s.jobs[t].id in s.records
    ensures var taken := s.(holders := s.holders[t := Holder.Running(w)]);
      TablesOk(SetRecordState(taken, s.jobs[t].id, ExecutionState.Running))
  {
    hide RecordsOk, OutstandingOk, TicketsOk, LiveOk, QueueHolds, ActiveHolds, SettlingHolds, StopsHold,
      ShutdownHolds, StartedOk, PromisesOk, QueueOk, WorkersOk, RunningOk;
    HeldIsOutstanding(s.jobs, s.nextTicket, s.outstanding, s.holders, t);
    OutstandingKeep(s.jobs, s.nextTicket, s.outstanding, s.holders, t, Holder.Running(w));
    LiveKeep(s.outstanding, s.records, s.holders, t, Holder.Running(w));
    RecordStateTables(s.(holders := s.holders[t := Holder.Running(w)]), s.jobs[t].id, ExecutionState.Running);
  }

  lemma WorkerReturnInv(s: State, w: Worker, outcome: CallbackOutcome)
    requires Inv(s)
    ensures Inv(WorkerReturnStep(s, w, outcome))
  {
    hide RecordsOk, OutstandingOk, TicketsOk, LiveOk, QueueHolds, ActiveHolds, SettlingHolds, StopsHold,
      ShutdownHolds, StartedOk, PromisesOk, QueueOk, WorkersOk, RunningOk;
    if w in s.active && s.active[w].verdict.Pending? {
      var state := Normalize(s.active[w].ticket in s.cancelRequested, outcome);
      RunningDecide(s.jobs, s.active, s.sequentialRunning, s.runningCount, w, state);
      SameTicket(s, w, s.active[w].(verdict := Decided(state)));
    }
  }

  lemma SameTicket(s: State, w: Worker, task: Task)
    requires w in s.active && task.ticket == s.active[w].ticket
    requires ActiveHolds(s.holders, s.active) && WorkersOk(s.options, s.active, s.settling, s.exited, s.shutdown)
    ensures ActiveHolds(s.holders, s.active[w := task])
    ensures WorkersOk(s.options, s.active[w := task], s.settling, s.exited, s.shutdown)
  {
  }

  lemma WorkersComplete(s: State, w: Worker, t: Ticket)
    requires WorkersOk(s.options, s.active, s.settling, s.exited, s.shutdown) && w in s.active
    ensures w !in s.settling
    ensures WorkersOk(s.options, s.active - {w}, s.settling[w := t], s.exited, s.shutdown)
  {
  }

  lemma WorkerCompleteInv(s: State, w: Worker)
    requires Inv(s)
    ensures Inv(WorkerCompleteStep(s, w))
  {
    hide TablesOk, HoldersOk, CountersOk;
    if w in s.active && s.active[w].verdict.Decided? {
      WorkerCompleteHolders(s, w);
      WorkerCompleteCounters(s, w);
      WorkerCompleteTables(s, w);
    }
  }

  lemma WorkerCompleteHolders(s: State, w: Worker)
    requires Core(s) && w in s.active && s.active[w].verdict.Decided?
    ensures HoldersOk(WorkerCompleteStep(s, w))
  {
    hide TablesOk, CountersOk, RecordsOk, OutstandingOk, TicketsOk, LiveOk, QueueHolds, ActiveHolds, SettlingHolds,
      StopsHold, ShutdownHolds, StartedOk, PromisesOk, QueueOk, WorkersOk, RunningOk;
    var t := s.active[w].ticket;
    var holder := Holder.Settling(w);
    ActiveDrop(s.holders, s.active, w, holder);
    SettlingFree(s, w);
    SettlingAdd(s.holders, s.settling, w, t);
    OtherPlaces(s, t, holder);
    StartedSame(s.holders, s.started, t, holder);
    PromisesSame(s.holders, s.resolved, t, holder);
  }

  lemma SettlingFree(s: State, w: Worker)
    requires Core(s) && w in s.active
    ensures w !in s.settling && s.active[w].ticket in s.jobs
  {
    hide TablesOk, HoldersOk;
  }

  lemma WorkerCompleteCounters(s: State, w: Worker)
    requires Core(s) && w in s.active && s.active[w].verdict.Decided?
    ensures CountersOk(WorkerCompleteStep(s, w)) && WorkerCompleteStep(s, w).options == s.options
  {
    hide TablesOk, HoldersOk, CountsOk, CountTerminal, WorkerCompleteStep, RecordsOk, OutstandingOk, TicketsOk,
      LiveOk, QueueHolds, ActiveHolds, SettlingHolds, StopsHold, ShutdownHolds, StartedOk, PromisesOk, QueueOk,
      WorkersOk, RunningOk;
    SettlingFree(s, w);
    WorkerCompleteFields(s, w);
    WorkersComplete(s, w, s.active[w].ticket);
    RunningDrop(s.jobs, s.active, s.sequentialRunning, s.runningCount, w);
    CountsComplete(s.options, s.statistics, s.nextTicket, |s.queue|, s.runningCount, s.active[w].verdict.state);
  }

  /** What completing does to the counters and the workers. */
  lemma WorkerCompleteFields(s: State, w: Worker)
    requires w in s.active && s.active[w].verdict.Decided? && s.active[w].ticket in s.jobs
    ensures var t, after := s.active[w].ticket, WorkerCompleteStep(s, w);
      && after.options == s.options && after.queue == s.queue && after.shutdown == s.shutdown && after.jobs == s.jobs
      && after.active == s.active - {w} && after.settling == s.settling[w := t]
      && after.sequentialRunning == (if s.jobs[t].mode.Sequential? then false else s.sequentialRunning)
      && after.runningCount == (if s.runningCount > 0 then s.runningCount - 1 else 0)
      && after.statistics == CountTerminal(s.statistics, s.active[w].verdict.state)
      && after.paused == s.paused
  {
    hide CompleteRecord, CountTerminal;
  }

  lemma CountsComplete(
      options: Options, statistics: Statistics, next: Ticket, queued: nat, running: nat, state: ExecutionState)
    requires CountsOk(options, statistics, next, queued, running) && running > 0 && Terminal(state)
    ensures CountsOk(options, CountTerminal(statistics, state), next, queued, running - 1)
  {
  }

  lemma WorkerCompleteTables(s: State, w: Worker)
    requires Core(s) && w in s.active && s.active[w].verdict.Decided?
    ensures TablesOk(WorkerCompleteStep(s, w))
  {
    hide RecordsOk, OutstandingOk, TicketsOk, LiveOk, QueueHolds, ActiveHolds, SettlingHolds, StopsHold,
      ShutdownHolds, StartedOk, PromisesOk, QueueOk, WorkersOk, RunningOk;
    var t := s.active[w].ticket;
    ActiveDrop(s.holders, s.active, w, Holder.Settling(w));
    RunningDrop(s.jobs, s.active, s.sequentialRunning, s.runningCount, w);
    CompleteTables(s, t, Holder.Settling(w), s.active[w].verdict.state);
  }

  lemma WorkerSettleInv(s: State, w: Worker)
    requires Inv(s)
    ensures Inv(WorkerSettleStep(s, w))
  {
    hide RecordsOk, OutstandingOk, TicketsOk, LiveOk, QueueHolds, ActiveHolds, SettlingHolds, StopsHold,
      ShutdownHolds, StartedOk, PromisesOk, QueueOk, WorkersOk, RunningOk;
    if w in s.settling {
      SettlingDrop(s.holders, s.settling, w);
      SetPromiseInv(s, s.settling[w]);
      WorkersSettle(s, w);
    }
  }

  lemma WorkersSettle(s: State, w: Worker)
    requires WorkersOk(s.options, s.active, s.settling, s.exited, s.shutdown)
    ensures WorkersOk(s.options, s.active, s.settling - {w}, s.exited, s.shutdown)
    ensures Idle(s, w) ==> WorkersOk(s.options, s.active, s.settling, s.exited + {w}, s.shutdown)
  {
  }

  lemma WorkerExitInv(s: State, w: Worker)
    requires Inv(s)
    ensures Inv(WorkerExitStep(s, w))
  {
    hide RecordsOk, OutstandingOk, TicketsOk, LiveOk, QueueHolds, ActiveHolds, SettlingHolds, StopsHold,
      ShutdownHolds, StartedOk, PromisesOk, QueueOk, WorkersOk, RunningOk;
    WorkersSettle(s, w);
  }

  /** Every step of every thread keeps the invariant. */
  lemma StepInv(s: State, e: Event)
    requires Inv(s)
    ensures Inv(Step(s, e))
  {
    hide Inv, Core, SubmitStep, PauseStep, ResumeStep, StopBeginStep, StopFinishStep, ShutdownBeginStep,
      ShutdownResolveStep, ShutdownCancelStep, ShutdownRequestStopStep, ShutdownJoinStep, WorkerTakeStep,
      WorkerReturnStep, WorkerCompleteStep, WorkerSettleStep, WorkerExitStep, RequestCancellationStep;
    match e
    case Submit(job) => SubmitInv(s, job);
    case Pause(id) => PauseInv(s, id);
    case Resume(id) => ResumeInv(s, id);
    case StopBegin(caller, id) => StopBeginInv(s, caller, id);
    case StopFinish(caller) => StopFinishInv(s, caller);
    case RequestCancellation(t) => RequestCancellationInv(s, t);
    case ShutdownBegin(byWorker) => ShutdownBeginInv(s, byWorker);
    case ShutdownResolve => ShutdownResolveInv(s);
    case ShutdownCancel(t) => ShutdownTailInv(s, t);
    case ShutdownRequestStop => ShutdownTailInv(s, 0);
    case ShutdownJoin => ShutdownTailInv(s, 0);
    case WorkerTake(w, index) => WorkerTakeInv(s, w, index);
    case WorkerReturn(w, outcome) => WorkerReturnInv(s, w, outcome);
    case WorkerComplete(w) => WorkerCompleteInv(s, w);
    case WorkerSettle(w) => WorkerSettleInv(s, w);
    case WorkerExit(w) => WorkerExitInv(s, w);
  }

  lemma RequestCancellationInv(s: State, t: Ticket)
    requires Inv(s)
    ensures Inv(RequestCancellationStep(s, t))
  {
    hide RecordsOk, OutstandingOk, TicketsOk, LiveOk, QueueHolds, ActiveHolds, SettlingHolds, StopsHold,
      ShutdownHolds, StartedOk, PromisesOk, QueueOk, WorkersOk, RunningOk;
  }

  /** The invariant holds after every run of events, from every valid configuration. */
  lemma {:induction false} RunInv(options: Options, events: seq<Event>)
    requires options.Valid()
    ensures Inv(Run(options, events))
  {
    hide Inv, Step;
    if events == [] {
      InitialInv(options);
    } else {
      var n := |events| - 1;
      RunInv(options, events[..n]);
      StepInv(Run(options, events[..n]), events[n]);
    }
  }
}
