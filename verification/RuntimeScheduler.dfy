/** The scheduler's critical sections as its methods perform them, each shown to take the
    step of the state machine that the interleavings are built from. */
module RuntimeScheduler {
  import opened Basics
  import Model = SchedulerModel
  import opened SchedulerModel
  import opened SchedulerInvariant
  import opened SchedulerSteps
  import SchedulerRecords

  /** The job has a record in a final state. */
  predicate Final(s: State, id: JobId) {
    id in s.records && s.records[id].state in {Completed, Cancelled, Failed, Aborted}
  }

  class Scheduler {
    /** The scheduler's data members, with the positions of its callers and workers. */
    var s: State

    constructor (options: Options)
      requires options.Valid()
      ensures Inv(s) && s == Initial(options)
    {
      s := Initial(options);
      new;
      InitialInv(options);
    }

    /** One pass over the queue; the result is past the end when nothing can start. */
    method FindNextJob() returns (best: nat)
      requires Inv(s)
      ensures best <= |s.queue|
      ensures best < |s.queue| ==> IsBest(s, best)
      ensures best == |s.queue| <==> NothingStartable(s)
    {
      hide Inv;
      best := |s.queue|;
      for i := 0 to |s.queue|
        invariant best < i || best == |s.queue|
        invariant best == |s.queue| ==> forall j :: 0 <= j < i ==> !Startable(s, j)
        invariant best < |s.queue| ==> Startable(s, best)
        invariant best < |s.queue| ==> forall j :: 0 <= j < i && Startable(s, j) ==> Beats(s, s.queue[best], s.queue[j])
      {
        QueuedJob(s, i);
        var t := s.queue[i];
        if t !in s.paused && !s.sequentialRunning && !(s.jobs[t].mode.Sequential? && s.runningCount > 0) {
          if best == |s.queue| {
            best := i;
          } else {
            var candidate, current := Rank(s.jobs[t].priority), Rank(s.jobs[s.queue[best]].priority);
            if candidate > current || (candidate == current && t < s.queue[best]) {
              best := i;
            }
          }
        }
      }
    }

    method CompleteRecord(id: JobId, state: ExecutionState)
      requires id in s.records
      modifies this
      ensures s == Model.CompleteRecord(old(s), id, state)
      ensures s == old(s).(records := s.records, completedOrder := s.completedOrder)
    {
      var marked := s.records[id := s.records[id].(state := state)];
      var records, completed := PruneCompletedHistory(s.options, s.outstanding, marked, s.completedOrder + [id]);
      s := s.(records := records, completedOrder := completed);
    }

    method Submit(job: Job) returns (accepted: bool)
      requires Inv(s)
      modifies this
      ensures Inv(s) && s == SubmitStep(old(s), job)
      ensures accepted <==>
        && job.id != 0 && job.priority in {Low, Normal, High, Critical} && job.mode in {Parallel, Sequential}
        && job.hasCallback && old(s.accepting) && job.id !in old(s.records)
        && |old(s.queue)| < old(s.options.maximumQueueSize)
      ensures accepted ==>
        && s.queue == old(s.queue) + [old(s.nextTicket)] && old(s.nextTicket) in s.jobs
        && s.jobs[old(s.nextTicket)] == job && job.id in s.outstanding && job.id in s.records
        && s.outstanding[job.id] == old(s.nextTicket)
        && s.records[job.id] == Snapshot(old(s.nextTicket), job.priority, job.mode, Created)
      ensures !accepted ==>
        s == old(s).(statistics := old(s.statistics).(rejected := old(s.statistics.rejected) + 1))
    {
      hide Inv;
      SubmitInv(s, job);
      if !ValidJob(job) || !s.accepting || job.id in s.records || |s.queue| >= s.options.maximumQueueSize {
        s := s.(statistics := s.statistics.(rejected := s.statistics.rejected + 1));
        return false;
      }
      var t := s.nextTicket;
      s := s.(nextTicket := t + 1, jobs := s.jobs[t := job], holders := s.holders[t := Queue]);
      s := s.(records := s.records[job.id := Snapshot(t, job.priority, job.mode, Created)]);
      s := s.(outstanding := s.outstanding[job.id := t]);
      s := s.(queue := s.queue + [t]);
      s := s.(statistics := s.statistics.(accepted := s.statistics.accepted + 1,
        highWatermark := Max(s.statistics.highWatermark, |s.queue|)));
      return true;
    }

    method Pause(id: JobId) returns (ok: bool)
      requires Inv(s)
      modifies this
      ensures Inv(s) && s == PauseStep(old(s), id)
      ensures ok <==> id in old(s.outstanding) && !Final(old(s), id)
      ensures ok ==> s.paused == old(s.paused) + {s.outstanding[id]} && s.records[id].state == Paused
      ensures !ok ==> s == old(s)
    {
      hide Inv;
      PauseInv(s, id);
      OutstandingJob(s, id);
      if id !in s.outstanding || Terminal(s.records[id].state) {
        return false;
      }
      s := s.(paused := s.paused + {s.outstanding[id]});
      s := s.(records := s.records[id := s.records[id].(state := Paused)]);
      return true;
    }

    method Resume(id: JobId) returns (ok: bool)
      requires Inv(s)
      modifies this
      ensures Inv(s) && s == ResumeStep(old(s), id)
      ensures ok <==> id in old(s.outstanding) && !Final(old(s), id) && old(s).outstanding[id] in old(s.paused)
      ensures ok ==>
        && s.paused == old(s.paused) - {s.outstanding[id]}
        && s.records[id].state == if s.outstanding[id] in s.started then ExecutionState.Running else Created
      ensures !ok ==> s == old(s)
    {
      hide Inv;
      ResumeInv(s, id);
      OutstandingJob(s, id);
      if id !in s.outstanding || s.outstanding[id] !in s.paused || Terminal(s.records[id].state) {
        return false;
      }
      var t := s.outstanding[id];
      s := s.(paused := s.paused - {t});
      var state := if t in s.started then ExecutionState.Running else Created;
      s := s.(records := s.records[id := s.records[id].(state := state)]);
      return true;
    }

    /** The critical section of a stop; the caller then requests cancellation and, when
        `wasQueued`, sets the promise. */
    method StopLocked(caller: Caller, id: JobId) returns (ok: bool, wasQueued: bool)
      requires Inv(s) && caller !in s.stops
      modifies this
      ensures Inv(s) && s == StopBeginStep(old(s), caller, id)
      ensures ok <==> id in old(s.outstanding) && !Final(old(s), id)
      ensures ok ==> caller in s.stops && s.stops[caller] == StopCall(old(s).outstanding[id], wasQueued)
      ensures ok ==> (wasQueued <==> old(s).outstanding[id] in old(s.queue))
      ensures s.statistics.stopped == old(s.statistics.stopped) +
        (if ok && (wasQueued || old(s).outstanding[id] !in old(s.stopRequested)) then 1 else 0)
      ensures ok && wasQueued ==> id !in s.outstanding && s.queue == RemoveFirst(old(s.queue), old(s).outstanding[id])
      ensures ok && !wasQueued ==> old(s).outstanding[id] in s.stopRequested && s.outstanding == old(s.outstanding)
      ensures !ok ==> s == old(s)
    {
      hide Inv, StopBeginStep;
      StopBeginInv(s, caller, id);
      OutstandingJob(s, id);
      NothingToStop(s, caller, id);
      StopPlace(s, id);
      if id !in s.outstanding || Terminal(s.records[id].state) {
        return false, false;
      }
      wasQueued := s.outstanding[id] !in s.started;
      if wasQueued {
        StopQueued(caller, id);
      } else {
        StopRunning(caller, id);
      }
      return true, wasQueued;
    }

    method StopQueued(caller: Caller, id: JobId)
      requires caller !in s.stops && Controllable(s, id) && s.outstanding[id] !in s.started
      requires s.jobs[s.outstanding[id]].id == id && id in s.records
      modifies this
      ensures s == StopBeginStep(old(s), caller, id)
      ensures caller in s.stops && s.stops[caller] == StopCall(old(s).outstanding[id], true)
      ensures id !in s.outstanding && s.queue == RemoveFirst(old(s.queue), old(s).outstanding[id])
      ensures s.statistics.stopped == old(s.statistics.stopped) + 1
    {
      hide Model.CompleteRecord;
      var t := s.outstanding[id];
      s := s.(queue := RemoveFirst(s.queue, t), holders := s.holders[t := Stopping(caller)]);
      s := s.(outstanding := s.outstanding - {id});
      s := s.(statistics := s.statistics.(cancelled := s.statistics.cancelled + 1));
      CompleteRecord(id, Cancelled);
      s := s.(statistics := s.statistics.(stopped := s.statistics.stopped + 1),
        stops := s.stops[caller := StopCall(t, true)]);
    }

    method StopRunning(caller: Caller, id: JobId)
      requires caller !in s.stops && Controllable(s, id) && s.outstanding[id] in s.started
      requires id in s.records
      modifies this
      ensures s == StopBeginStep(old(s), caller, id)
      ensures caller in s.stops && s.stops[caller] == StopCall(old(s).outstanding[id], false)
      ensures old(s).outstanding[id] in s.stopRequested && s.outstanding == old(s.outstanding)
      ensures s.statistics.stopped == old(s.statistics.stopped) +
        (if old(s).outstanding[id] !in old(s.stopRequested) then 1 else 0)
    {
      hide StopQueuedJob, StopRunningJob;
      var t := s.outstanding[id];
      StopRunningIs(s, caller, id, t);
      var stopped := s.statistics.stopped;
      if t !in s.stopRequested {
        stopped := stopped + 1;
      }
      s := s.(stopRequested := s.stopRequested + {t}, statistics := s.statistics.(stopped := stopped),
              records := s.records[id := s.records[id].(state := Cancelled)],
              stops := s.stops[caller := StopCall(t, false)]);
    }

    /** A worker's first critical section: it takes the next job, if any can start. */
    method TakeNext(w: Worker) returns (taken: bool, t: Ticket, ghost index: nat)
      requires Inv(s) && Idle(s, w)
      modifies this
      ensures Inv(s)
      ensures taken <==> !NothingStartable(old(s))
      ensures !taken ==> s == old(s)
      ensures taken ==> IsBest(old(s), index) && t == old(s).queue[index] && s == WorkerTakeStep(old(s), w, index)
      ensures taken ==>
        && w in s.active && s.active[w] == Task(t, Pending) && t in s.started
        && s.queue == old(s.queue[..index] + s.queue[index + 1..])
    {
      hide Inv;
      var best := FindNextJob();
      index := best;
      if best == |s.queue| {
        return false, 0, index;
      }
      hide NothingStartable;
      WorkerTakeInv(s, w, best);
      QueuedJob(s, best);
      taken, t := true, s.queue[best];
      var job := s.jobs[t];
      s := s.(queue := s.queue[..best] + s.queue[best + 1..]);
      s := s.(started := s.started + {t}, holders := s.holders[t := Holder.Running(w)],
        active := s.active[w := Task(t, Pending)]);
      s := s.(runningCount := s.runningCount + 1, sequentialRunning := job.mode.Sequential?);
      s := s.(statistics := s.statistics.(started := s.statistics.started + 1,
                                          maximumConcurrentRunning := Max(s.statistics.maximumConcurrentRunning,
                                            s.runningCount)));
      s := s.(records := s.records[job.id := s.records[job.id].(state := ExecutionState.Running)]);
    }

    /** A worker's second critical section: it records the verdict of its callback. */
    method Complete(w: Worker)
      requires Inv(s) && w in s.active && s.active[w].verdict.Decided?
      modifies this
      ensures Inv(s) && s == WorkerCompleteStep(old(s), w)
    {
      hide Inv, Model.CompleteRecord;
      RunningJob(s, w);
      WorkerCompleteInv(s, w);
      var t, state := s.active[w].ticket, s.active[w].verdict.state;
      var job := s.jobs[t];
      var count, sequential := s.runningCount, s.sequentialRunning;
      if count > 0 {
        count := count - 1;
      }
      if job.mode.Sequential? {
        sequential := false;
      }
      s := s.(runningCount := count, sequentialRunning := sequential, outstanding := s.outstanding - {job.id},
              holders := s.holders[t := Holder.Settling(w)], active := s.active - {w}, settling := s.settling[w := t]);
      CompleteRecord(job.id, state);
      s := s.(statistics := CountTerminal(s.statistics, state));
    }

    /** The critical section of a shutdown that is not called from a worker: every queued
        job is cancelled, every running one is asked to stop. */
    method ShutdownLocked()
      requires Inv(s) && s.shutdown.NotStarted?
      modifies this
      ensures Inv(s) && s == ShutdownBeginStep(old(s), false)
      ensures !s.accepting && s.queue == []
    {
      hide Inv, Core;
      ShutdownBeginInv(s, false);
      ClosingCore(s);
      s := s.(accepting := false, shutdown := Resolving([], {}));
      CancelQueue();
      MarkOutstanding();
    }

    method CancelQueue()
      requires Core(s) && s.shutdown.Resolving?
      modifies this
      ensures Core(s) && s.shutdown.Resolving? && s == CancelAllQueued(old(s)) && s.queue == []
    {
      hide Core, Model.CompleteRecord;
      ghost var all := CancelAllQueued(s);
      while s.queue != []
        invariant Core(s) && s.shutdown.Resolving? && CancelAllQueued(s) == all
        decreases |s.queue|
      {
        HeadJob(s);
        var t := s.queue[0];
        var id := s.jobs[t].id;
        ghost var before := s;
        s := s.(queue := s.queue[1..], holders := s.holders[t := Holder.Draining]);
        s := s.(outstanding := s.outstanding - {id});
        s := s.(statistics := s.statistics.(cancelled := s.statistics.cancelled + 1));
        CompleteRecord(id, Cancelled);
        assert s == CancelQueued(before, t, Holder.Draining);
        s := s.(shutdown := s.shutdown.(queued := s.shutdown.queued + [t]));
      }
    }

    method MarkOutstanding()
      requires Core(s) && s.shutdown.Resolving?
      modifies this
      ensures s == MarkRunning(old(s))
    {
      hide Core, Marked;
      OwnTickets(s);
      var asked, newly, requested, records := AskToStop(s.outstanding, s.records, s.stopRequested);
      s := s.(stopRequested := requested, records := records,
        statistics := s.statistics.(stopped := s.statistics.stopped + newly),
              shutdown := s.shutdown.(running := asked));
    }
  }

  /** The longest part of the history's end that the limit allows. */
  ghost predicate Newest(options: Options, completed: seq<JobId>, kept: seq<JobId>) {
    && |kept| <= |completed| && kept == completed[|completed| - |kept|..]
    && (options.maximumHistory == 0 || |completed| <= options.maximumHistory ==> kept == completed)
    && (0 < options.maximumHistory < |completed| ==> |kept| == options.maximumHistory)
  }

  lemma KeptMeans(
      options: Options, outstanding: map<JobId, Ticket>, records: map<JobId, Snapshot>, completed: seq<JobId>)
    ensures Newest(options, completed, KeptOrder(options, completed))
    ensures forall id :: id in KeptRecords(options, completed, outstanding, records) <==>
      (id in records && (id in outstanding || id !in completed[..|completed| - |KeptOrder(options, completed)|]))
  {
    assert |completed| - |KeptOrder(options, completed)| == Excess(options, completed);
  }

  /** Drops the oldest completed entries until the history fits its limit. */
  method PruneCompletedHistory(
      options: Options, outstanding: map<JobId, Ticket>, records: map<JobId, Snapshot>, completed: seq<JobId>)
    returns (records': map<JobId, Snapshot>, completed': seq<JobId>)
    ensures completed' == KeptOrder(options, completed)
    ensures records' == KeptRecords(options, completed, outstanding, records)
    ensures Newest(options, completed, completed')
    ensures forall id :: id in records' <==>
      (id in records && (id in outstanding || id !in completed[..|completed| - |completed'|]))
  {
    hide Dropped, KeptRecords, Newest;
    records', completed' := records, completed;
    ghost var k := 0;
    NothingDropped(outstanding, records, completed);
    while options.maximumHistory > 0 && |completed'| > options.maximumHistory
      invariant 0 <= k <= Excess(options, completed)
      invariant completed' == completed[k..]
      invariant records' == records - Dropped(outstanding, completed, k)
      decreases |completed'|
    {
      var oldest := completed'[0];
      DropOne(outstanding, records, completed, k);
      completed' := completed'[1..];
      if oldest !in outstanding {
        records' := records' - {oldest};
      }
      k := k + 1;
    }
    AllDropped(options, outstanding, records, completed);
    KeptMeans(options, outstanding, records, completed);
  }

  lemma NothingDropped(outstanding: map<JobId, Ticket>, records: map<JobId, Snapshot>, completed: seq<JobId>)
    ensures records - Dropped(outstanding, completed, 0) == records && completed[0..] == completed
  {
  }

  lemma DropOne(outstanding: map<JobId, Ticket>, records: map<JobId, Snapshot>, completed: seq<JobId>, k: nat)
    requires k < |completed|
    ensures records - Dropped(outstanding, completed, k + 1) ==
      if completed[k] in outstanding then records - Dropped(outstanding, completed, k)
      else records - Dropped(outstanding, completed, k) - {completed[k]}
    ensures completed[k..][1..] == completed[k + 1..]
  {
    assert completed[..k + 1] == completed[..k] + [completed[k]];
  }

  lemma AllDropped(
      options: Options, outstanding: map<JobId, Ticket>, records: map<JobId, Snapshot>, completed: seq<JobId>)
    ensures records - Dropped(outstanding, completed, Excess(options, completed)) ==
      KeptRecords(options, completed, outstanding, records)
  {
    assert Dropped(outstanding, completed, Excess(options, completed)) == Evicted(options, completed, outstanding);
  }

  /** Asks every outstanding job to stop, counting each job that was not asked before. */
  method AskToStop(outstanding: map<JobId, Ticket>, records: map<JobId, Snapshot>, stopRequested: set<Ticket>)
    returns (asked: set<Ticket>, newly: nat, requested: set<Ticket>, records': map<JobId, Snapshot>)
    requires outstanding.Keys <= records.Keys
    requires forall a, b :: a in outstanding && b in outstanding && outstanding[a] == outstanding[b] ==> a == b
    ensures asked == TicketsOf(outstanding)
    ensures newly == |asked - stopRequested| && requested == stopRequested + asked
    ensures records' == Marked(outstanding, records)
  {
    hide TicketsOf, Marked;
    asked, newly, requested, records' := {}, 0, stopRequested, records;
    var rest := outstanding.Keys;
    while rest != {}
      invariant rest <= outstanding.Keys
      invariant asked <= TicketsOf(outstanding)
      invariant forall id :: id in outstanding ==> (outstanding[id] in asked <==> id !in rest)
      invariant newly == |asked - stopRequested| && requested == stopRequested + asked
      invariant records'.Keys == records.Keys
      invariant forall x :: x in records ==>
        records'[x] == if x in outstanding && x !in rest then records[x].(state := Cancelled) else records[x]
      decreases rest
    {
      var id :| id in rest;
      rest := rest - {id};
      var t := outstanding[id];
      TicketIn(outstanding, id);
      AskedOnce(asked, stopRequested, t);
      asked := asked + {t};
      if t !in requested {
        newly := newly + 1;
        requested := requested + {t};
      }
      records' := records'[id := records'[id].(state := Cancelled)];
    }
    AllTickets(outstanding, asked);
    AllMarked(outstanding, records, records');
  }

  lemma StopRunningIs(s: State, caller: Caller, id: JobId, t: Ticket)
    requires id in s.records
    ensures StopRunningJob(s, caller, id, t) ==
      s.(stopRequested := s.stopRequested + {t},
         statistics := s.statistics.(stopped := s.statistics.stopped + if t in s.stopRequested then 0 else 1),
         records := s.records[id := s.records[id].(state := Cancelled)],
         stops := s.stops[caller := StopCall(t, false)])
  {
  }

  lemma NothingToStop(s: State, caller: Caller, id: JobId)
    ensures !Controllable(s, id) ==> StopBeginStep(s, caller, id) == s
  {
  }

  lemma TicketIn(outstanding: map<JobId, Ticket>, id: JobId)
    requires id in outstanding
    ensures outstanding[id] in TicketsOf(outstanding)
  {
  }

  lemma AllTickets(outstanding: map<JobId, Ticket>, asked: set<Ticket>)
    requires asked <= TicketsOf(outstanding) && forall id :: id in outstanding ==> outstanding[id] in asked
    ensures asked == TicketsOf(outstanding)
  {
  }

  lemma AllMarked(outstanding: map<JobId, Ticket>, records: map<JobId, Snapshot>, records': map<JobId, Snapshot>)
    requires records'.Keys == records.Keys
    requires forall x :: x in records ==>
      records'[x] == if x in outstanding then records[x].(state := Cancelled) else records[x]
    ensures records' == Marked(outstanding, records)
  {
  }

  lemma AskedOnce(asked: set<Ticket>, before: set<Ticket>, t: Ticket)
    requires t !in asked
    ensures |asked + {t} - before| == |asked - before| + if t in before then 0 else 1
  {
    assert asked + {t} - before == if t in before then asked - before else asked - before + {t};
  }

  ghost function Dropped(outstanding: map<JobId, Ticket>, completed: seq<JobId>, k: nat): set<JobId>
    requires k <= |completed|
  {
    set id | id in completed[..k] && id !in outstanding
  }

  lemma QueuedJob(s: State, i: nat)
    requires Inv(s) && i < |s.queue|
    ensures s.queue[i] in s.jobs && s.jobs[s.queue[i]].id in s.records
  {
    hide TicketsOk, LiveOk, ActiveHolds, SettlingHolds, StopsHold, ShutdownHolds, StartedOk, PromisesOk, CountersOk;
    assert s.queue[i] in s.queue;
    HeldIsOutstanding(s.jobs, s.nextTicket, s.outstanding, s.holders, s.queue[i]);
  }

  lemma RunningJob(s: State, w: Worker)
    requires Inv(s) && w in s.active
    ensures var t := s.active[w].ticket; t in s.jobs && s.jobs[t].id in s.records
  {
    hide TicketsOk, LiveOk, QueueHolds, SettlingHolds, StopsHold, ShutdownHolds, StartedOk, PromisesOk, CountersOk;
    HeldIsOutstanding(s.jobs, s.nextTicket, s.outstanding, s.holders, s.active[w].ticket);
  }

  /** An outstanding id has a job and a record. */
  lemma OutstandingJob(s: State, id: JobId)
    requires Inv(s)
    ensures id in s.outstanding ==> s.outstanding[id] in s.jobs && s.jobs[s.outstanding[id]].id == id && id in s.records
  {
    hide TicketsOk, LiveOk, HoldersOk, CountersOk;
  }

  lemma StopPlace(s: State, id: JobId)
    requires Inv(s)
    ensures id in s.outstanding ==> (s.outstanding[id] in s.queue <==> s.outstanding[id] !in s.started)
  {
    hide Inv;
    if id in s.outstanding {
      SchedulerRecords.Places(s, id);
    }
  }

  lemma OwnTickets(s: State)
    requires Core(s)
    ensures s.outstanding.Keys <= s.records.Keys
    ensures forall a, b :: a in s.outstanding && b in s.outstanding && s.outstanding[a] == s.outstanding[b] ==> a == b
  {
    hide TicketsOk, LiveOk, HoldersOk, CountersOk;
  }
}
