/** What the scheduler promises, for every run of every configuration. */
module SchedulerTheorems {
  import opened Basics
  import opened SchedulerModel
  import opened SchedulerInvariant
  import opened SchedulerSteps

  /** The records are exactly the outstanding jobs and the retained history, the two are
      disjoint, the history has no duplicates and respects a nonzero limit, and no lookup of
      a record ever misses. */
  lemma RecordsArePartitioned(options: Options, events: seq<Event>)
    requires options.Valid()
    ensures
      var s := Run(options, events);
      && !s.missed
      && s.records.Keys == s.outstanding.Keys + Elements(s.completedOrder)
      && s.outstanding.Keys !! Elements(s.completedOrder)
      && NoDuplicates(s.completedOrder)
      && (options.maximumHistory > 0 ==> |s.completedOrder| <= options.maximumHistory)
      && (forall id :: id in s.completedOrder ==> Terminal(s.records[id].state))
  {
    RunInv(options, events);
    PartitionFacts(Run(options, events));
  }

  lemma PartitionFacts(s: State)
    requires TablesOk(s)
    ensures s.records.Keys == s.outstanding.Keys + Elements(s.completedOrder)
    ensures s.outstanding.Keys !! Elements(s.completedOrder)
  {
    hide TicketsOk, LiveOk, OutstandingOk;
  }

  /** Every accepted job is completed, failed, cancelled, queued or running; its promise is
      set at most once. */
  lemma AcceptedJobsAreConserved(options: Options, events: seq<Event>)
    requires options.Valid()
    ensures
      var s := Run(options, events);
      var n := s.statistics;
      && n.accepted == n.completed + n.failed + n.cancelled + |s.queue| + s.runningCount
      && |s.jobs| == n.accepted
      && (forall t :: s.resolved[t] <= 1)
      && (forall t :: s.resolved[t] == 1 ==> t in s.jobs)
      && (forall t :: t in s.queue || (exists w :: w in s.active && s.active[w].ticket == t) ==> s.resolved[t] == 0)
  {
    RunInv(options, events);
    var s := Run(options, events);
    PromiseFacts(s);
    TicketCount(s.nextTicket, s.jobs);
  }

  lemma PromiseFacts(s: State)
    requires Inv(s)
    ensures forall t :: s.resolved[t] <= 1
    ensures forall t :: s.resolved[t] == 1 ==> t in s.jobs
    ensures forall t :: t in s.queue ==> s.resolved[t] == 0
    ensures forall w :: w in s.active ==> s.resolved[s.active[w].ticket] == 0
    ensures forall t :: t in s.jobs <==> 1 <= t < s.nextTicket
  {
    hide RecordsOk, TicketsOk, LiveOk, SettlingHolds, StopsHold, ShutdownHolds, StartedOk, QueueOk, WorkersOk,
      RunningOk;
  }

  lemma {:induction false} TicketCount(next: Ticket, jobs: map<Ticket, Job>)
    requires next >= 1 && forall t :: t in jobs <==> 1 <= t < next
    ensures |jobs| == next - 1
  {
    if next == 1 {
      assert jobs == map[];
    } else {
      TicketCount(next - 1, jobs - {next - 1});
      assert jobs.Keys == (jobs - {next - 1}).Keys + {next - 1};
    }
  }

  /** Once a shutdown has returned and no stop call is half done, the queue and the set of
      outstanding jobs are empty and every accepted job's promise was set exactly once. */
  lemma ShutdownResolvesEveryJob(options: Options, events: seq<Event>)
    requires options.Valid()
    ensures
      var s := Run(options, events);
      s.shutdown.Complete? && s.stops == map[] ==>
        && s.queue == [] && s.outstanding == map[] && s.runningCount == 0
        && (forall t :: t in s.jobs ==> s.resolved[t] == 1)
        && s.statistics.accepted == s.statistics.completed + s.statistics.failed + s.statistics.cancelled
  {
    RunInv(options, events);
    var s := Run(options, events);
    if s.shutdown.Complete? && s.stops == map[] {
      NobodyHolds(s);
    }
  }

  lemma NobodyHolds(s: State)
    requires Inv(s) && s.shutdown.Complete? && s.stops == map[]
    ensures s.active == map[] && s.runningCount == 0
    ensures forall t :: t in s.jobs ==> s.resolved[t] == 1
    ensures s.outstanding == map[]
  {
    hide RecordsOk, TicketsOk, LiveOk, StartedOk, QueueOk;
    assert s.active.Keys == {};
    assert s.settling.Keys == {};
    forall t | t in s.holders
      ensures s.holders[t].Nobody?
    {
      assert t !in s.queue;
    }
    assert s.outstanding.Keys == {};
  }

  /** `runningCount` counts the running jobs, never more than there are workers, and a
      sequential job that runs is the only job that runs. */
  lemma SequentialJobsRunAlone(options: Options, events: seq<Event>)
    requires options.Valid()
    ensures
      var s := Run(options, events);
      && s.runningCount == |s.active| <= options.workerCount
      && (forall w, v :: w in s.active && v in s.active && s.active[w].ticket == s.active[v].ticket ==> w == v)
      && (forall w :: w in s.active ==> s.active[w].ticket in s.jobs)
      && (forall w :: w in s.active && s.jobs[s.active[w].ticket].mode.Sequential? ==> s.active.Keys == {w})
  {
    RunInv(options, events);
    var s := Run(options, events);
    ActiveBound(s.options, s.active, s.settling, s.exited, s.shutdown);
    forall w | w in s.active && s.jobs[s.active[w].ticket].mode.Sequential?
      ensures s.active.Keys == {w}
    {
      AloneWhenSequential(s, w);
    }
  }

  lemma AloneWhenSequential(s: State, w: Worker)
    requires RunningOk(s.jobs, s.active, s.sequentialRunning, s.runningCount)
    requires w in s.active && s.jobs[s.active[w].ticket].mode.Sequential?
    ensures s.active.Keys == {w}
  {
    assert |s.active.Keys - {w}| == 0;
  }

  /** When nothing runs and some queued job is not paused, the dispatcher finds a job. */
  lemma IdleSchedulerFindsWork(options: Options, events: seq<Event>, waiting: nat)
    requires options.Valid()
    requires
      var s := Run(options, events);
      s.runningCount == 0 && waiting < |s.queue| && s.queue[waiting] !in s.paused
    ensures exists index :: IsBest(Run(options, events), index)
  {
    hide Inv, Run;
    RunInv(options, events);
    var s := Run(options, events);
    QueuedJobExists(s, waiting);
    var best := BestAmong(s, |s.queue|, waiting);
    assert IsBest(s, best);
  }

  /** While the scheduler accepts jobs no worker has left: a job that can start is stranded only
      after a shutdown, or the call of it from a worker, has begun. */
  lemma {:induction false} WorkersStayWhileAccepting(options: Options, events: seq<Event>)
    requires options.Valid()
    ensures Run(options, events).accepting ==> Run(options, events).exited == {}
  {
    hide Step, Inv;
    if events != [] {
      var before := events[..|events| - 1];
      WorkersStayWhileAccepting(options, before);
      RunInv(options, before);
      WorkersStay(Run(options, before), events[|events| - 1]);
    }
  }

  lemma WorkersStay(s: State, e: Event)
    requires Inv(s) && (s.accepting ==> s.exited == {})
    ensures Step(s, e).accepting ==> Step(s, e).exited == {}
  {
    hide Inv, SubmitStep, PauseStep, ResumeStep, StopBeginStep, StopFinishStep, RequestCancellationStep,
      ShutdownResolveStep, ShutdownCancelStep, ShutdownRequestStopStep, ShutdownJoinStep, WorkerTakeStep,
      WorkerReturnStep, WorkerCompleteStep, WorkerSettleStep, ShutdownBeginStep, WorkerExitStep;
    JoiningIsClosed(s);
  }

  lemma JoiningIsClosed(s: State)
    requires Inv(s)
    ensures s.shutdown.Joining? ==> !s.accepting
  {
    hide TablesOk, HoldersOk;
  }

  lemma QueuedJobExists(s: State, i: nat)
    requires Inv(s) && s.runningCount == 0 && i < |s.queue|
    ensures s.queue[i] in s.jobs && !s.sequentialRunning
  {
    hide RecordsOk, TicketsOk, LiveOk, SettlingHolds, StopsHold, ShutdownHolds, StartedOk, WorkersOk, PromisesOk;
    assert s.queue[i] in s.queue;
  }

  lemma {:induction false} BestAmong(s: State, n: nat, startable: nat) returns (best: nat)
    requires startable < n <= |s.queue| && Startable(s, startable)
    ensures best < n && Startable(s, best)
    ensures forall j :: 0 <= j < n && Startable(s, j) ==> Beats(s, s.queue[best], s.queue[j])
    decreases n
  {
    var last := n - 1;
    if exists i :: 0 <= i < last && Startable(s, i) {
      var i :| 0 <= i < last && Startable(s, i);
      best := BestAmong(s, last, i);
      if Startable(s, last) && !Beats(s, s.queue[best], s.queue[last]) {
        best := last;
      }
    } else {
      best := last;
    }
  }

  /** The queue is always in acceptance order. */
  lemma QueueIsInAcceptanceOrder(options: Options, events: seq<Event>)
    requires options.Valid()
    ensures Increasing(Run(options, events).queue)
    ensures |Run(options, events).queue| <= options.maximumQueueSize
  {
    RunInv(options, events);
  }

  // ---------------------------------------------------------------- the life of a record

  /** From one state to the next a record keeps its ticket and a terminal one stays terminal;
      a record that was not there carries a ticket never given out before. */
  ghost predicate Evolves(records: map<JobId, Snapshot>, next: Ticket, records': map<JobId, Snapshot>) {
    forall id :: id in records' ==>
      if id in records then
        records'[id].ticket == records[id].ticket && (Terminal(records[id].state) ==> Terminal(records'[id].state))
      else records'[id].ticket >= next
  }

  lemma DropEvolves(records: map<JobId, Snapshot>, next: Ticket, id: JobId, state: ExecutionState, gone: set<JobId>)
    requires id in records && (Terminal(records[id].state) ==> Terminal(state))
    ensures Evolves(records, next, records[id := records[id].(state := state)] - gone)
    ensures (records[id := records[id].(state := state)] - gone).Keys <= records.Keys
  {
  }

  lemma SetEvolves(s: State, id: JobId, state: ExecutionState)
    requires id in s.records && Terminal(s.records[id].state) ==> Terminal(state)
    ensures Evolves(s.records, s.nextTicket, SetRecordState(s, id, state).records)
  {
  }

  lemma CompleteEvolves(s: State, id: JobId, state: ExecutionState)
    requires Terminal(state)
    ensures Evolves(s.records, s.nextTicket, CompleteRecord(s, id, state).records)
    ensures CompleteRecord(s, id, state).records.Keys <= s.records.Keys
  {
    hide Evolves, Evicted;
    EvolvesSame(s.records, s.nextTicket);
    if id in s.records {
      DropEvolves(s.records, s.nextTicket, id, state, Evicted(s.options, s.completedOrder + [id], s.outstanding));
    }
  }

  lemma EvolvesInTwoSteps(a: map<JobId, Snapshot>, b: map<JobId, Snapshot>, c: map<JobId, Snapshot>, next: Ticket)
    requires Evolves(a, next, b) && Evolves(b, next, c) && b.Keys <= a.Keys && c.Keys <= b.Keys
    ensures Evolves(a, next, c)
  {
  }

  lemma {:induction false} CancelAllEvolves(s: State)
    ensures Evolves(s.records, s.nextTicket, CancelAllQueued(s).records)
    ensures CancelAllQueued(s).records.Keys <= s.records.Keys
    decreases |s.queue|
  {
    hide Evolves, Evicted;
    if s.queue != [] && s.queue[0] in s.jobs && s.shutdown.Resolving? {
      CancelOneEvolves(s, s.queue[0], Holder.Draining);
      var next := CancelQueued(s, s.queue[0], Holder.Draining);
      CancelAllEvolves(next.(shutdown := s.shutdown.(queued := s.shutdown.queued + [s.queue[0]])));
      EvolvesInTwoSteps(s.records, next.records, CancelAllQueued(s).records, s.nextTicket);
    } else {
      EvolvesSame(s.records, s.nextTicket);
    }
  }

  lemma EvolvesSame(records: map<JobId, Snapshot>, next: Ticket)
    ensures Evolves(records, next, records)
  {
  }

  lemma CancelOneEvolves(s: State, t: Ticket, holder: Holder)
    requires t in s.jobs
    ensures Evolves(s.records, s.nextTicket, CancelQueued(s, t, holder).records)
    ensures CancelQueued(s, t, holder).records.Keys <= s.records.Keys
  {
    hide Evolves, CompleteRecord;
    var id := s.jobs[t].id;
    var freed := s.(queue := RemoveFirst(s.queue, t),
         outstanding := s.outstanding - {id},
         holders := s.holders[t := holder],
         statistics := s.statistics.(cancelled := s.statistics.cancelled + 1));
    CompleteEvolves(freed, id, Cancelled);
  }

  lemma PauseEvolves(s: State, id: JobId)
    ensures Evolves(s.records, s.nextTicket, PauseStep(s, id).records)
  {
    hide Evolves, SetRecordState;
    EvolvesSame(s.records, s.nextTicket);
    if Controllable(s, id) {
      SetEvolves(s.(paused := s.paused + {s.outstanding[id]}), id, Paused);
    }
  }

  lemma ResumeEvolves(s: State, id: JobId)
    ensures Evolves(s.records, s.nextTicket, ResumeStep(s, id).records)
  {
    hide Evolves, SetRecordState;
    EvolvesSame(s.records, s.nextTicket);
    if Controllable(s, id) {
      var t := s.outstanding[id];
      SetEvolves(s.(paused := s.paused - {t}), id, if t in s.started then ExecutionState.Running else Created);
    }
  }

  lemma StopEvolves(s: State, caller: Caller, id: JobId)
    ensures Evolves(s.records, s.nextTicket, StopBeginStep(s, caller, id).records)
  {
    hide Evolves, StopQueuedJob, StopRunningJob;
    EvolvesSame(s.records, s.nextTicket);
    if Controllable(s, id) {
      StopQueuedEvolves(s, caller, s.outstanding[id]);
      StopRunningEvolves(s, caller, id, s.outstanding[id]);
    }
  }

  lemma StopQueuedEvolves(s: State, caller: Caller, t: Ticket)
    requires t in s.jobs
    ensures Evolves(s.records, s.nextTicket, StopQueuedJob(s, caller, t).records)
  {
    hide Evolves, CancelQueued;
    CancelOneEvolves(s, t, Stopping(caller));
  }

  lemma StopRunningEvolves(s: State, caller: Caller, id: JobId, t: Ticket)
    ensures Evolves(s.records, s.nextTicket, StopRunningJob(s, caller, id, t).records)
  {
    hide Evolves;
    EvolvesSame(s.records, s.nextTicket);
    SetEvolves(s, id, Cancelled);
  }

  lemma ShutdownEvolves(s: State, byWorker: bool)
    ensures Evolves(s.records, s.nextTicket, ShutdownBeginStep(s, byWorker).records)
  {
    hide Evolves, CancelAllQueued, Marked;
    EvolvesSame(s.records, s.nextTicket);
    var begun := s.(accepting := false, shutdown := Resolving([], {}));
    CancelAllEvolves(begun);
    var drained := CancelAllQueued(begun);
    MarkedEvolves(drained.outstanding, drained.records, s.nextTicket);
    EvolvesInTwoSteps(s.records, drained.records, Marked(drained.outstanding, drained.records), s.nextTicket);
  }

  lemma MarkedEvolves(outstanding: map<JobId, Ticket>, records: map<JobId, Snapshot>, next: Ticket)
    ensures Evolves(records, next, Marked(outstanding, records))
    ensures Marked(outstanding, records).Keys == records.Keys
  {
  }

  lemma TakeEvolves(s: State, w: Worker, index: nat)
    requires Inv(s)
    ensures Evolves(s.records, s.nextTicket, WorkerTakeStep(s, w, index).records)
  {
    hide Inv, Evolves;
    EvolvesSame(s.records, s.nextTicket);
    if IsBest(s, index) {
      QueuedIsLive(s, s.queue[index]);
      SetEvolves(s, s.jobs[s.queue[index]].id, ExecutionState.Running);
    }
  }

  lemma FinishEvolves(s: State, w: Worker)
    requires Inv(s)
    ensures Evolves(s.records, s.nextTicket, WorkerCompleteStep(s, w).records)
  {
    EvolvesSame(s.records, s.nextTicket);
    if w in s.active && s.active[w].verdict.Decided? {
      RunningDrop(s.jobs, s.active, s.sequentialRunning, s.runningCount, w);
      hide Inv, Evolves, Evicted;
      var t := s.active[w].ticket;
      DropEvolves(s.records, s.nextTicket, s.jobs[t].id, s.active[w].verdict.state,
                  Evicted(s.options, s.completedOrder + [s.jobs[t].id], s.outstanding - {s.jobs[t].id}));
    }
  }

  lemma StepEvolves(s: State, e: Event)
    requires Inv(s)
    ensures Evolves(s.records, s.nextTicket, Step(s, e).records)
  {
    hide Inv, Evolves, PauseStep, ResumeStep, StopBeginStep, StopFinishStep, ShutdownBeginStep, ShutdownResolveStep,
      ShutdownCancelStep, ShutdownRequestStopStep, ShutdownJoinStep, WorkerTakeStep, WorkerReturnStep,
      WorkerCompleteStep, WorkerSettleStep, WorkerExitStep, RequestCancellationStep, SubmitStep;
    EvolvesSame(s.records, s.nextTicket);
    match e
    case Submit(job) => SubmitEvolves(s, job);
    case Pause(id) => PauseEvolves(s, id);
    case Resume(id) => ResumeEvolves(s, id);
    case StopBegin(caller, id) => StopEvolves(s, caller, id);
    case WorkerTake(w, index) => TakeEvolves(s, w, index);
    case WorkerComplete(w) => FinishEvolves(s, w);
    case ShutdownBegin(byWorker) => ShutdownEvolves(s, byWorker);
    case _ =>
  }

  lemma SubmitEvolves(s: State, job: Job)
    ensures Evolves(s.records, s.nextTicket, SubmitStep(s, job).records)
  {
  }

  lemma QueuedIsLive(s: State, t: Ticket)
    requires Inv(s) && t in s.queue
    ensures t in s.jobs && s.jobs[t].id in s.records && !Terminal(s.records[s.jobs[t].id].state)
  {
    hide TicketsOk, ActiveHolds, SettlingHolds, StopsHold, ShutdownHolds, StartedOk, PromisesOk, QueueOk, WorkersOk,
      RunningOk;
    HeldIsOutstanding(s.jobs, s.nextTicket, s.outstanding, s.holders, t);
    RecordedIds(s.options, s.outstanding, s.records, s.completedOrder, s.jobs[t].id);
  }

  /** The same record, seen twice in a run: if it was terminal it still is. */
  lemma {:induction false} TerminalRecordsStayTerminal(
      options: Options, events: seq<Event>, more: seq<Event>, id: JobId)
    requires options.Valid()
    requires
      var s, s' := Run(options, events), Run(options, events + more);
      id in s.records && id in s'.records && s.records[id].ticket == s'.records[id].ticket
    ensures Terminal(Run(options, events).records[id].state) ==> Terminal(Run(options, events + more).records[id].state)
    decreases |more|
  {
    hide Step, Inv;
    if more == [] {
      assert events + more == events;
    } else {
      var n := |more| - 1;
      var before := Run(options, events + more[..n]);
      assert (events + more)[..|events + more| - 1] == events + more[..n];
      RunInv(options, events + more[..n]);
      StepEvolves(before, more[n]);
      EarlierTicket(options, events, more[..n], id);
      TerminalRecordsStayTerminal(options, events, more[..n], id);
    }
  }

  lemma {:induction false} EarlierTicket(options: Options, events: seq<Event>, more: seq<Event>, id: JobId)
    requires options.Valid() && id in Run(options, events).records
    ensures Run(options, events).records[id].ticket < Run(options, events + more).nextTicket
    decreases |more|
  {
    hide Step, Inv;
    if more == [] {
      assert events + more == events;
      RunInv(options, events);
      TicketBound(Run(options, events), id);
    } else {
      var n := |more| - 1;
      assert (events + more)[..|events + more| - 1] == events + more[..n];
      EarlierTicket(options, events, more[..n], id);
      RunInv(options, events + more[..n]);
      StepEvolves(Run(options, events + more[..n]), more[n]);
    }
  }

  lemma TicketBound(s: State, id: JobId)
    requires Inv(s) && id in s.records
    ensures s.records[id].ticket < s.nextTicket
  {
    hide RecordsOk, OutstandingOk, LiveOk, HoldersOk, CountersOk;
  }

  /** An id carries a new job only after the record of the old one was evicted. */
  lemma {:induction false} IdReuseNeedsEviction(
      options: Options, events: seq<Event>, more: seq<Event>, id: JobId) returns (k: nat)
    requires options.Valid()
    requires
      var s, s' := Run(options, events), Run(options, events + more);
      id in s.records && id in s'.records && s.records[id].ticket != s'.records[id].ticket
    ensures k <= |more| && id !in Run(options, events + more[..k]).records
    decreases |more|
  {
    hide Step, Inv;
    assert events + [] == events;
    if more != [] {
      var n := |more| - 1;
      var before := Run(options, events + more[..n]);
      assert (events + more)[..|events + more| - 1] == events + more[..n];
      if id !in before.records {
        k := n;
      } else {
        RunInv(options, events + more[..n]);
        StepEvolves(before, more[n]);
        k := IdReuseNeedsEviction(options, events, more[..n], id);
        assert more[..n][..k] == more[..k];
      }
    }
  }
}
