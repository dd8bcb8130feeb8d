/** The runtime scheduler as a state machine. Every event is one critical section of the
    scheduler, or one action that a caller or a worker takes between two of them, so a
    sequence of events is an interleaving of all the threads involved. */
module SchedulerModel {
  import opened Basics

  type JobId = nat

  /** The sequence number of an accepted job. It is never reused, so it stands for the
      identity of the scheduled job even after its producer-assigned id is free again. */
  type Ticket = nat

  type Worker = nat

  type Caller = nat

  datatype Priority = Low | Normal | High | Critical | UnknownPriority

  datatype Mode = Parallel | Sequential | UnknownMode

  datatype ExecutionState = Created | Starting | Running | Paused | Completed | Cancelled | Failed | Aborted

  datatype Job = Job(id: JobId, priority: Priority, mode: Mode, hasCallback: bool)

  datatype CallbackOutcome = Returned(state: ExecutionState) | Threw

  /** Who has to make the next move on an accepted job. An auxiliary value: no step reads it. */
  datatype Holder =
    | Queue
    | Running(worker: Worker)
    | Settling(worker: Worker)
    | Stopping(caller: Caller)
    | Draining
    | Nobody

  datatype Snapshot = Snapshot(ticket: Ticket, priority: Priority, mode: Mode, state: ExecutionState)

  datatype Statistics = Statistics(
    accepted: nat, started: nat, completed: nat, cancelled: nat, stopped: nat, failed: nat, rejected: nat,
    highWatermark: nat, maximumConcurrentRunning: nat)

  /** `maximumHistory == 0` keeps the whole history. */
  datatype Options = Options(maximumQueueSize: nat, workerCount: nat, maximumHistory: nat) {
    predicate Valid() { maximumQueueSize > 0 && workerCount > 0 }
  }

  datatype Verdict = Pending | Decided(state: ExecutionState)

  datatype Task = Task(ticket: Ticket, verdict: Verdict)

  datatype StopCall = StopCall(ticket: Ticket, wasQueued: bool)

  datatype ShutdownPhase =
    | NotStarted
    | Resolving(queued: seq<Ticket>, running: set<Ticket>)
    | Joining
    | Complete

  datatype State = State(
    options: Options,
    queue: seq<Ticket>,
    outstanding: map<JobId, Ticket>,
    records: map<JobId, Snapshot>,
    completedOrder: seq<JobId>,
    // the fields of the scheduled job objects: the flags are the sets of jobs that have them,
    // and `resolved` counts how often a promise was set
    jobs: map<Ticket, Job>,
    started: set<Ticket>,
    paused: set<Ticket>,
    stopRequested: set<Ticket>,
    cancelRequested: set<Ticket>,
    resolved: multiset<Ticket>,
    holders: map<Ticket, Holder>,
    nextTicket: Ticket,
    runningCount: nat,
    sequentialRunning: bool,
    accepting: bool,
    shutdown: ShutdownPhase,
    active: map<Worker, Task>,
    settling: map<Worker, Ticket>,
    exited: set<Worker>,
    stops: map<Caller, StopCall>,
    statistics: Statistics,
    missed: bool)

  datatype Event =
    | Submit(job: Job)
    | Pause(id: JobId)
    | Resume(id: JobId)
    | StopBegin(caller: Caller, id: JobId)
    | StopFinish(caller: Caller)
    | RequestCancellation(ticket: Ticket)
    | ShutdownBegin(byWorker: bool)
    | ShutdownResolve
    | ShutdownCancel(ticket: Ticket)
    | ShutdownRequestStop
    | ShutdownJoin
    | WorkerTake(worker: Worker, index: nat)
    | WorkerReturn(worker: Worker, outcome: CallbackOutcome)
    | WorkerComplete(worker: Worker)
    | WorkerSettle(worker: Worker)
    | WorkerExit(worker: Worker)

  predicate Terminal(state: ExecutionState) {
    state.Completed? || state.Cancelled? || state.Failed? || state.Aborted?
  }

  function Rank(priority: Priority): int {
    match priority
    case Low => 0
    case Normal => 1
    case High => 2
    case Critical => 3
    case UnknownPriority => -1
  }

  predicate ValidJob(job: Job) {
    job.id != 0 && !job.priority.UnknownPriority? && !job.mode.UnknownMode? && job.hasCallback
  }

  function Initial(options: Options): State {
    State(options, [], map[], map[], [], map[], {}, {}, {}, {}, multiset{}, map[], 1, 0, false, true, NotStarted,
          map[], map[], {}, map[], Statistics(0, 0, 0, 0, 0, 0, 0, 0, 0), false)
  }

  function Max(a: nat, b: nat): nat {
    if a < b then b else a
  }

  // ---------------------------------------------------------------- selection

  predicate Startable(s: State, index: nat)
    requires index < |s.queue|
  {
    && s.queue[index] in s.jobs
    && s.queue[index] !in s.paused
    && !s.sequentialRunning
    && !(s.jobs[s.queue[index]].mode.Sequential? && s.runningCount > 0)
  }

  predicate Beats(s: State, a: Ticket, b: Ticket) {
    a in s.jobs && b in s.jobs &&
    (|| Rank(s.jobs[a].priority) > Rank(s.jobs[b].priority)
     || (Rank(s.jobs[a].priority) == Rank(s.jobs[b].priority) && a <= b))
  }

  /** The startable job no other startable job precedes, by priority and then by age. */
  predicate IsBest(s: State, index: nat) {
    && index < |s.queue|
    && Startable(s, index)
    && (forall j :: 0 <= j < |s.queue| && Startable(s, j) ==> Beats(s, s.queue[index], s.queue[j]))
  }

  predicate NothingStartable(s: State) {
    forall j :: 0 <= j < |s.queue| ==> !Startable(s, j)
  }

  // ---------------------------------------------------------------- records

  /** How many completed entries are over the history limit. */
  function Excess(options: Options, completed: seq<JobId>): nat {
    if options.maximumHistory > 0 && |completed| > options.maximumHistory
    then |completed| - options.maximumHistory else 0
  }

  function KeptOrder(options: Options, completed: seq<JobId>): seq<JobId> {
    completed[Excess(options, completed)..]
  }

  function Evicted(options: Options, completed: seq<JobId>, outstanding: map<JobId, Ticket>): set<JobId> {
    set id | id in completed[..Excess(options, completed)] && id !in outstanding
  }

  /** The oldest completed entries leave, unless their id is outstanding. */
  function KeptRecords(
      options: Options, completed: seq<JobId>, outstanding: map<JobId, Ticket>, records: map<JobId, Snapshot>)
    : map<JobId, Snapshot>
  {
    records - Evicted(options, completed, outstanding)
  }

  function SetRecordState(s: State, id: JobId, state: ExecutionState): (after: State)
    ensures after.options == s.options && after.nextTicket == s.nextTicket
    ensures after.jobs == s.jobs && after.active == s.active
    ensures after.accepting == s.accepting && after.exited == s.exited
    ensures after == s.(records := after.records, missed := after.missed)
  {
    if id in s.records then s.(records := s.records[id := s.records[id].(state := state)])
    else s.(missed := true)
  }

  function CompleteRecord(s: State, id: JobId, state: ExecutionState): (after: State)
    ensures after.options == s.options && after.nextTicket == s.nextTicket
    ensures after.jobs == s.jobs && after.active == s.active
    ensures after.accepting == s.accepting && after.exited == s.exited
    ensures after == s.(completedOrder := after.completedOrder, records := after.records, missed := after.missed)
  {
    if id in s.records then
      var marked := s.records[id := s.records[id].(state := state)];
      var longer := s.completedOrder + [id];
      s.(completedOrder := KeptOrder(s.options, longer),
        records := KeptRecords(s.options, longer, s.outstanding, marked))
    else s.(missed := true)
  }

  function CountTerminal(statistics: Statistics, state: ExecutionState): Statistics {
    if state.Completed? then statistics.(completed := statistics.completed + 1)
    else if state.Cancelled? then statistics.(cancelled := statistics.cancelled + 1)
    else statistics.(failed := statistics.failed + 1)
  }

  // ---------------------------------------------------------------- callers

  predicate Admissible(s: State, job: Job) {
    ValidJob(job) && s.accepting && job.id !in s.records && |s.queue| < s.options.maximumQueueSize
  }

  function SubmitStep(s: State, job: Job): (after: State)
    ensures after.options == s.options && after.nextTicket >= s.nextTicket && after.active == s.active
    ensures after.accepting == s.accepting && after.exited == s.exited
  {
    if !Admissible(s, job) then
      s.(statistics := s.statistics.(rejected := s.statistics.rejected + 1))
    else
      var t := s.nextTicket;
      s.(jobs := s.jobs[t := job],
         holders := s.holders[t := Queue],
         records := s.records[job.id := Snapshot(t, job.priority, job.mode, Created)],
         outstanding := s.outstanding[job.id := t],
         queue := s.queue + [t],
         nextTicket := t + 1,
         statistics := s.statistics.(accepted := s.statistics.accepted + 1,
                                     highWatermark := Max(s.statistics.highWatermark, |s.queue| + 1)))
  }

  /** The job is outstanding and its record is not terminal: what Pause, Resume and Stop ask. */
  predicate Controllable(s: State, id: JobId) {
    && id in s.outstanding && s.outstanding[id] in s.jobs
    && !(id in s.records && Terminal(s.records[id].state))
  }

  function PauseStep(s: State, id: JobId): (after: State)
    ensures after.options == s.options && after.nextTicket == s.nextTicket
    ensures after.jobs == s.jobs && after.active == s.active
    ensures after.accepting == s.accepting && after.exited == s.exited
  {
    if !Controllable(s, id) then s
    else
      var t := s.outstanding[id];
      SetRecordState(s.(paused := s.paused + {t}), id, Paused)
  }

  function ResumeStep(s: State, id: JobId): (after: State)
    ensures after.options == s.options && after.nextTicket == s.nextTicket
    ensures after.jobs == s.jobs && after.active == s.active
    ensures after.accepting == s.accepting && after.exited == s.exited
  {
    if !Controllable(s, id) || s.outstanding[id] !in s.paused then s
    else
      var t := s.outstanding[id];
      SetRecordState(s.(paused := s.paused - {t}), id, if t in s.started then ExecutionState.Running else Created)
  }

  /** Cancels a job that has not started; `holder` will resolve its promise. */
  function CancelQueued(s: State, t: Ticket, holder: Holder): (after: State)
    requires t in s.jobs
    ensures after.options == s.options && after.nextTicket == s.nextTicket
    ensures after.jobs == s.jobs && after.active == s.active
    ensures after.accepting == s.accepting && after.exited == s.exited
  {
    var id := s.jobs[t].id;
    CompleteRecord(
      s.(queue := RemoveFirst(s.queue, t),
         outstanding := s.outstanding - {id},
         holders := s.holders[t := holder],
         statistics := s.statistics.(cancelled := s.statistics.cancelled + 1)),
      id, Cancelled)
  }

  function StopQueuedJob(s: State, caller: Caller, t: Ticket): (after: State)
    requires t in s.jobs
    ensures after.options == s.options && after.nextTicket == s.nextTicket
    ensures after.jobs == s.jobs && after.active == s.active
    ensures after.accepting == s.accepting && after.exited == s.exited
  {
    var cancelled := CancelQueued(s, t, Stopping(caller));
    cancelled.(stops := s.stops[caller := StopCall(t, true)],
               statistics := cancelled.statistics.(stopped := s.statistics.stopped + 1))
  }

  function StopRunningJob(s: State, caller: Caller, id: JobId, t: Ticket): (after: State)
    ensures after.options == s.options && after.nextTicket == s.nextTicket
    ensures after.jobs == s.jobs && after.active == s.active
    ensures after.accepting == s.accepting && after.exited == s.exited
  {
    var requested := SetRecordState(s.(stopRequested := s.stopRequested + {t}), id, Cancelled);
    requested.(stops := s.stops[caller := StopCall(t, false)],
               statistics := s.statistics.(stopped := s.statistics.stopped + if t in s.stopRequested then 0 else 1))
  }

  function StopBeginStep(s: State, caller: Caller, id: JobId): (after: State)
    ensures after.options == s.options && after.nextTicket == s.nextTicket
    ensures after.jobs == s.jobs && after.active == s.active
    ensures after.accepting == s.accepting && after.exited == s.exited
  {
    if caller in s.stops || !Controllable(s, id) then s
    else if s.outstanding[id] !in s.started then StopQueuedJob(s, caller, s.outstanding[id])
    else StopRunningJob(s, caller, id, s.outstanding[id])
  }

  /** RequestStop on the job's control: cancellation is requested and any pause ends. */
  function RequestStop(s: State, t: Ticket): (after: State)
    ensures after.options == s.options && after.nextTicket == s.nextTicket
    ensures after.jobs == s.jobs && after.active == s.active && after.records == s.records
    ensures after.accepting == s.accepting && after.exited == s.exited
  {
    s.(cancelRequested := s.cancelRequested + {t}, paused := s.paused - {t})
  }

  function SetPromise(s: State, t: Ticket): (after: State)
    ensures after.options == s.options && after.nextTicket == s.nextTicket
    ensures after.jobs == s.jobs && after.active == s.active && after.records == s.records
    ensures after.accepting == s.accepting && after.exited == s.exited
    ensures after == s.(resolved := after.resolved, holders := after.holders)
  {
    s.(resolved := s.resolved + multiset{t}, holders := s.holders[t := Nobody])
  }

  function StopFinishStep(s: State, caller: Caller): (after: State)
    ensures after.options == s.options && after.nextTicket == s.nextTicket
    ensures after.jobs == s.jobs && after.active == s.active && after.records == s.records
    ensures after.accepting == s.accepting && after.exited == s.exited
  {
    if caller !in s.stops then s
    else
      var call := s.stops[caller];
      var asked := RequestStop(s.(stops := s.stops - {caller}), call.ticket);
      if call.wasQueued then SetPromise(asked, call.ticket) else asked
  }

  function RequestCancellationStep(s: State, t: Ticket): (after: State)
    ensures after.options == s.options && after.nextTicket == s.nextTicket
    ensures after.jobs == s.jobs && after.active == s.active && after.records == s.records
    ensures after.accepting == s.accepting && after.exited == s.exited
  {
    s.(cancelRequested := s.cancelRequested + {t})
  }

  // ---------------------------------------------------------------- shutdown

  /** Cancels the queued jobs from the front, one after another, under a single lock. */
  function CancelAllQueued(s: State): (after: State)
    ensures after.options == s.options && after.nextTicket == s.nextTicket
    ensures after.jobs == s.jobs && after.active == s.active
    ensures after.accepting == s.accepting && after.exited == s.exited
    decreases |s.queue|
  {
    if s.queue == [] || s.queue[0] !in s.jobs || !s.shutdown.Resolving? then s
    else
      var t := s.queue[0];
      var next := CancelQueued(s, t, Holder.Draining);
      CancelAllQueued(next.(shutdown := s.shutdown.(queued := s.shutdown.queued + [t])))
  }

  function TicketsOf(outstanding: map<JobId, Ticket>): set<Ticket> {
    set id | id in outstanding :: outstanding[id]
  }

  function Marked(outstanding: map<JobId, Ticket>, records: map<JobId, Snapshot>): map<JobId, Snapshot> {
    map id | id in records :: if id in outstanding then records[id].(state := Cancelled) else records[id]
  }

  /** Marks every job that is still outstanding as asked to stop. */
  function MarkRunning(s: State): (after: State)
    ensures after.options == s.options && after.nextTicket == s.nextTicket
    ensures after.jobs == s.jobs && after.active == s.active
    ensures after.accepting == s.accepting && after.exited == s.exited
  {
    var tickets := TicketsOf(s.outstanding);
    s.(stopRequested := s.stopRequested + tickets,
       records := Marked(s.outstanding, s.records),
       missed := s.missed || !(s.outstanding.Keys <= s.records.Keys),
       statistics := s.statistics.(stopped := s.statistics.stopped + |tickets - s.stopRequested|),
       shutdown := if s.shutdown.Resolving? then s.shutdown.(running := tickets) else s.shutdown)
  }

  /** Nothing is accepted any more, and the shutdown starts to collect jobs. */
  function Closing(s: State): (after: State)
    ensures after.options == s.options && after.nextTicket == s.nextTicket
    ensures after.jobs == s.jobs && after.active == s.active && after.exited == s.exited
    ensures !after.accepting && after.shutdown == Resolving([], {}) && after.queue == s.queue
    ensures after.records == s.records
  {
    s.(accepting := false, shutdown := Resolving([], {}))
  }

  function ShutdownBeginStep(s: State, byWorker: bool): (after: State)
    ensures after.options == s.options && after.nextTicket == s.nextTicket
    ensures after.jobs == s.jobs && after.active == s.active
    ensures after.exited == s.exited && (after.accepting ==> s.accepting)
  {
    if s.shutdown.Complete? then s
    else if byWorker then s.(accepting := false)
    else if !s.shutdown.NotStarted? then s
    else MarkRunning(CancelAllQueued(Closing(s)))
  }

  function ShutdownResolveStep(s: State): (after: State)
    ensures after.options == s.options && after.nextTicket == s.nextTicket
    ensures after.jobs == s.jobs && after.active == s.active && after.records == s.records
    ensures after.accepting == s.accepting && after.exited == s.exited
  {
    if !s.shutdown.Resolving? || s.shutdown.queued == [] then s
    else
      var t := s.shutdown.queued[0];
      SetPromise(RequestStop(s.(shutdown := s.shutdown.(queued := s.shutdown.queued[1..])), t), t)
  }

  function ShutdownCancelStep(s: State, t: Ticket): (after: State)
    ensures after.options == s.options && after.nextTicket == s.nextTicket
    ensures after.jobs == s.jobs && after.active == s.active && after.records == s.records
    ensures after.accepting == s.accepting && after.exited == s.exited
  {
    if !s.shutdown.Resolving? || s.shutdown.queued != [] || t !in s.shutdown.running then s
    else RequestStop(s.(shutdown := s.shutdown.(running := s.shutdown.running - {t})), t)
  }

  function ShutdownRequestStopStep(s: State): (after: State)
    ensures after.options == s.options && after.nextTicket == s.nextTicket
    ensures after.jobs == s.jobs && after.active == s.active && after.records == s.records
    ensures after.accepting == s.accepting && after.exited == s.exited
  {
    if s.shutdown == Resolving([], {}) then s.(shutdown := Joining) else s
  }

  predicate AllExited(s: State) {
    forall w :: 0 <= w < s.options.workerCount ==> w in s.exited
  }

  function ShutdownJoinStep(s: State): (after: State)
    ensures after.options == s.options && after.nextTicket == s.nextTicket
    ensures after.jobs == s.jobs && after.active == s.active && after.records == s.records
    ensures after.accepting == s.accepting && after.exited == s.exited
  {
    if s.shutdown.Joining? && AllExited(s) then s.(shutdown := Complete) else s
  }

  // ---------------------------------------------------------------- workers

  predicate Idle(s: State, w: Worker) {
    w < s.options.workerCount && w !in s.active && w !in s.settling && w !in s.exited
  }

  function WorkerTakeStep(s: State, w: Worker, index: nat): (after: State)
    ensures after.options == s.options && after.nextTicket == s.nextTicket && after.jobs == s.jobs
    ensures after.accepting == s.accepting && after.exited == s.exited
  {
    if !Idle(s, w) || !IsBest(s, index) then s
    else
      var t := s.queue[index];
      var job := s.jobs[t];
      var started := s.(
        queue := s.queue[..index] + s.queue[index + 1..],
        started := s.started + {t},
        holders := s.holders[t := Holder.Running(w)],
        runningCount := s.runningCount + 1,
        sequentialRunning := job.mode.Sequential?,
        active := s.active[w := Task(t, Pending)],
        statistics := s.statistics.(started := s.statistics.started + 1,
                                    maximumConcurrentRunning := Max(s.statistics.maximumConcurrentRunning,
                                      s.runningCount + 1)));
      SetRecordState(started, job.id, ExecutionState.Running)
  }

  /** Cancellation wins over what the callback returned; a nonterminal result means success. */
  function Normalize(cancelRequested: bool, outcome: CallbackOutcome): (state: ExecutionState)
    ensures Terminal(state)
  {
    if outcome.Threw? then Failed
    else if cancelRequested then Cancelled
    else if Terminal(outcome.state) then outcome.state
    else Completed
  }

  function WorkerReturnStep(s: State, w: Worker, outcome: CallbackOutcome): (after: State)
    ensures after.options == s.options && after.nextTicket == s.nextTicket
    ensures after.jobs == s.jobs && after.records == s.records
    ensures after.accepting == s.accepting && after.exited == s.exited
  {
    if w !in s.active || !s.active[w].verdict.Pending? then s
    else
      var verdict := Decided(Normalize(s.active[w].ticket in s.cancelRequested, outcome));
      s.(active := s.active[w := s.active[w].(verdict := verdict)])
  }

  function WorkerCompleteStep(s: State, w: Worker): (after: State)
    ensures after.options == s.options && after.nextTicket == s.nextTicket && after.jobs == s.jobs
    ensures after.accepting == s.accepting && after.exited == s.exited
  {
    if w !in s.active || !s.active[w].verdict.Decided? || s.active[w].ticket !in s.jobs then s
    else
      var t := s.active[w].ticket;
      var job := s.jobs[t];
      var state := s.active[w].verdict.state;
      var completed := CompleteRecord(
        s.(runningCount := if s.runningCount > 0 then s.runningCount - 1 else 0,
           sequentialRunning := if job.mode.Sequential? then false else s.sequentialRunning,
           outstanding := s.outstanding - {job.id},
           holders := s.holders[t := Holder.Settling(w)],
           active := s.active - {w},
           settling := s.settling[w := t]),
        job.id, state);
      completed.(statistics := CountTerminal(s.statistics, state))
  }

  function WorkerSettleStep(s: State, w: Worker): (after: State)
    ensures after.options == s.options && after.nextTicket == s.nextTicket
    ensures after.jobs == s.jobs && after.active == s.active && after.records == s.records
    ensures after.accepting == s.accepting && after.exited == s.exited
  {
    if w !in s.settling then s
    else SetPromise(s.(settling := s.settling - {w}), s.settling[w])
  }

  function WorkerExitStep(s: State, w: Worker): (after: State)
    ensures after.options == s.options && after.nextTicket == s.nextTicket
    ensures after.jobs == s.jobs && after.active == s.active && after.records == s.records
    ensures after.accepting == s.accepting && (after.exited == s.exited || !s.accepting || s.shutdown.Joining?)
    ensures s.exited <= after.exited
  {
    if Idle(s, w) && NothingStartable(s) && (!s.accepting || s.shutdown.Joining?) then s.(exited := s.exited + {w})
    else s
  }

  // ---------------------------------------------------------------- runs

  /** One step of the whole system. An event that is not enabled changes nothing. */
  function Step(s: State, e: Event): (after: State)
    ensures after.options == s.options && after.nextTicket >= s.nextTicket
  {
    match e
    case Submit(job) => SubmitStep(s, job)
    case Pause(id) => PauseStep(s, id)
    case Resume(id) => ResumeStep(s, id)
    case StopBegin(caller, id) => StopBeginStep(s, caller, id)
    case StopFinish(caller) => StopFinishStep(s, caller)
    case RequestCancellation(t) => RequestCancellationStep(s, t)
    case ShutdownBegin(byWorker) => ShutdownBeginStep(s, byWorker)
    case ShutdownResolve => ShutdownResolveStep(s)
    case ShutdownCancel(t) => ShutdownCancelStep(s, t)
    case ShutdownRequestStop => ShutdownRequestStopStep(s)
    case ShutdownJoin => ShutdownJoinStep(s)
    case WorkerTake(w, index) => WorkerTakeStep(s, w, index)
    case WorkerReturn(w, outcome) => WorkerReturnStep(s, w, outcome)
    case WorkerComplete(w) => WorkerCompleteStep(s, w)
    case WorkerSettle(w) => WorkerSettleStep(s, w)
    case WorkerExit(w) => WorkerExitStep(s, w)
  }

  /** The state after a run of events. */
  function Run(options: Options, events: seq<Event>): (s: State)
    ensures s.options == options
  {
    if events == [] then Initial(options)
    else Step(Run(options, events[..|events| - 1]), events[|events| - 1])
  }
}
