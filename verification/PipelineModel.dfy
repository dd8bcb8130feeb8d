/** The command execution pipeline as a state machine. Every event is one critical section of
    a caller, a worker or the shutdown, so a sequence of events is an interleaving of them. */
module PipelineModel {
  import opened Basics
  import opened Commands
  import opened PipelineHistory

  type CommandId = nat

  /** An accepted execution; its sequence number gives its place in acceptance order. */
  datatype Entry = Entry(id: ExecutionId, command: CommandId, priority: nat, sequence: nat)

  /** A call of Submit between its critical sections. */
  datatype Submission = Deciding(command: CommandId, priority: nat) | Refusing(status: Status)

  datatype Metrics = Metrics(accepted: nat, started: nat, completed: nat, cancelled: nat, timedOut: nat, failed: nat,
    rejected: nat)

  /** Shutdown moves from Open to Draining when it takes the queue, and to Closed when it has
      joined the workers. Only Open accepts submissions. */
  datatype Phase = Open | Draining | Closed

  datatype Options = Options(maximumQueueSize: nat, workerCount: nat, maximumHistorySize: nat) {
    predicate Valid() { maximumQueueSize > 0 && workerCount > 0 && maximumHistorySize > 0 }
  }

  /** A promise is set after the critical section that completes the execution. In between,
      `answering` holds the executions whose caller, of Cancel or of a refused Submit, still has to
      set it, `reporting` those whose worker has to, and `settling` the one Shutdown has to.

      `outcomes`, `refused`, `doubled`, `windowCancels` and `orphaned` are auxiliary: no step reads
      them. `outcomes` is the status each finished execution was first completed with. The counts
      are of the submissions that were not accepted, of the completions of executions that were
      complete before, and of the cancellations between Shutdown taking the queue and completing
      the entry; `orphaned` holds the executions whose record came back after its eviction. */
  datatype State = State(
    options: Options,
    nextId: ExecutionId,
    nextSequence: nat,
    submissions: map<ExecutionId, Submission>,
    queue: seq<Entry>,
    executions: map<ExecutionId, Entry>,
    commands: map<CommandId, ExecutionId>,
    history: History,
    running: set<ExecutionId>,
    runningCount: nat,
    metrics: Metrics,
    drained: seq<Entry>,
    phase: Phase,
    promises: map<ExecutionId, Status>,
    answering: map<ExecutionId, Status>,
    reporting: map<ExecutionId, Status>,
    settling: Option<ExecutionId>,
    outcomes: map<ExecutionId, Status>,
    refused: nat,
    doubled: nat,
    windowCancels: nat,
    orphaned: set<ExecutionId>)

  datatype Event =
    | Allocate(command: CommandId, priority: nat, verdict: Option<Status>)
    | Decide(id: ExecutionId)
    | Refuse(id: ExecutionId)
    | Cancel(id: ExecutionId)
    | Take
    | Complete(id: ExecutionId, status: Status)
    | BeginShutdown
    | DrainOne
    | Answer(id: ExecutionId)
    | Report(id: ExecutionId)
    | SettleDrained
    | EndShutdown

  function Initial(options: Options): State {
    State(options, 1, 0, map[], [], map[], map[], History(map[], []), {}, 0, Metrics(0, 0, 0, 0, 0, 0, 0), [], Open,
          map[], map[], map[], None, map[], 0, 0, 0, {})
  }

  /** The metric that a final status is counted in. */
  function Tally(m: Metrics, status: Status): Metrics {
    match status
    case Completed => m.(completed := m.completed + 1)
    case Cancelled => m.(cancelled := m.cancelled + 1)
    case Timeout => m.(timedOut := m.timedOut + 1)
    case Rejected => m.(rejected := m.rejected + 1)
    case _ => m.(failed := m.failed + 1)
  }

  /** No final status was counted. */
  predicate SameResults(before: Metrics, after: Metrics) {
    after == before.(accepted := after.accepted, started := after.started)
  }

  /** A promise that is set stays as it is; so does the first outcome. */
  function Fulfil(promises: map<ExecutionId, Status>, id: ExecutionId, status: Status): map<ExecutionId, Status> {
    if id in promises then promises else promises[id := status]
  }

  /** Completing an execution, whoever does it. */
  function Finish(s: State, entry: Entry, status: Status): (after: State)
    ensures after.options == s.options && after.orphaned == s.orphaned && after.windowCancels == s.windowCancels
    ensures after.executions == s.executions - {entry.id} && after.running == s.running - {entry.id}
    ensures after == s.(executions := after.executions, commands := after.commands, running := after.running,
                        runningCount := after.runningCount, metrics := after.metrics, history := after.history,
                        outcomes := after.outcomes)
  {
    var live := s.executions - {entry.id};
    s.(executions := live,
       commands := s.commands - {entry.command},
       runningCount := if entry.id in s.running && s.runningCount > 0 then s.runningCount - 1 else s.runningCount,
       running := s.running - {entry.id},
       metrics := Tally(s.metrics, status),
       history := Prune(History(s.history.records[entry.id := status], s.history.order), live.Keys,
         s.options.maximumHistorySize),
       outcomes := Fulfil(s.outcomes, entry.id, status))
  }

  function AllocateStep(s: State, command: CommandId, priority: nat, verdict: Option<Status>): (after: State)
    ensures after.options == s.options && after.orphaned == s.orphaned && after.windowCancels == s.windowCancels
    ensures after.history == s.history && after.executions == s.executions
    ensures after.outcomes == s.outcomes && after.doubled == s.doubled && SameResults(s.metrics, after.metrics)
  {
    s.(nextId := s.nextId + 1,
       submissions := s.submissions[
         s.nextId := if verdict.Some? then Refusing(verdict.value) else Deciding(command, priority)])
  }

  function AcceptStep(s: State, id: ExecutionId, command: CommandId, priority: nat): (after: State)
    ensures after.options == s.options && after.orphaned == s.orphaned && after.windowCancels == s.windowCancels
    ensures after.outcomes == s.outcomes && after.doubled == s.doubled && SameResults(s.metrics, after.metrics)
  {
    var entry := Entry(id, command, priority, s.nextSequence);
    s.(submissions := s.submissions - {id},
       nextSequence := s.nextSequence + 1,
       history := History(s.history.records[id := Queued], s.history.order + [id]),
       executions := s.executions[id := entry],
       commands := s.commands[command := id],
       queue := s.queue + [entry],
       metrics := s.metrics.(accepted := s.metrics.accepted + 1))
  }

  predicate CanAccept(s: State, command: CommandId) {
    s.phase == Open && command !in s.commands && |s.queue| < s.options.maximumQueueSize
  }

  function RefuseStep(s: State, id: ExecutionId, status: Status): (after: State)
    ensures after.options == s.options && after.orphaned == s.orphaned && after.windowCancels == s.windowCancels
  {
    s.(submissions := s.submissions - {id},
       history := Prune(History(s.history.records[id := status], s.history.order + [id]), s.executions.Keys,
         s.options.maximumHistorySize),
       metrics := Tally(s.metrics, status),
       outcomes := Fulfil(s.outcomes, id, status),
       answering := s.answering[id := status],
       refused := s.refused + 1)
  }

  function DecideStep(s: State, id: ExecutionId): (after: State)
    ensures after.options == s.options && after.orphaned == s.orphaned && after.windowCancels == s.windowCancels
    ensures after.outcomes == s.outcomes && after.doubled == s.doubled && SameResults(s.metrics, after.metrics)
  {
    if id !in s.submissions || !s.submissions[id].Deciding? then s
    else
      var submission := s.submissions[id];
      if CanAccept(s, submission.command) then AcceptStep(s, id, submission.command, submission.priority)
      else s.(submissions := s.submissions[id := Refusing(Rejected)])
  }

  /** An entry that its caller cancels leaves the queue; the caller sets the promise later. */
  function Withdrawn(s: State, entry: Entry): (after: State)
    ensures after.options == s.options && after.orphaned == s.orphaned
    ensures after.history == s.history && after.executions == s.executions
  {
    s.(queue := RemoveFirst(s.queue, entry),
       windowCancels := s.windowCancels + (if entry in s.drained then 1 else 0),
       answering := s.answering[entry.id := Cancelled])
  }

  function CancelStep(s: State, id: ExecutionId): (after: State)
    ensures after.options == s.options && after.orphaned == s.orphaned
  {
    if id !in s.executions || id in s.running then s
    else Finish(Withdrawn(s, s.executions[id]), s.executions[id], Cancelled)
  }

  /** A higher priority, or an earlier acceptance at the same priority. */
  predicate Precedes(a: Entry, b: Entry) {
    a.priority > b.priority || (a.priority == b.priority && a.sequence < b.sequence)
  }

  /** The position std::max_element finds: a later entry replaces the best so far only if it
      precedes it. */
  function BestIndex(queue: seq<Entry>, best: nat, next: nat): (i: nat)
    requires best < next <= |queue|
    ensures i < |queue|
    decreases |queue| - next
  {
    if next == |queue| then best
    else BestIndex(queue, if Precedes(queue[next], queue[best]) then next else best, next + 1)
  }

  function TakeStep(s: State): (after: State)
    ensures after.options == s.options && after.orphaned == s.orphaned && after.windowCancels == s.windowCancels
    ensures after.outcomes == s.outcomes && after.doubled == s.doubled && SameResults(s.metrics, after.metrics)
  {
    if s.queue == [] || |s.running| + |s.reporting| >= s.options.workerCount then s
    else
      var i := BestIndex(s.queue, 0, 1);
      var entry := s.queue[i];
      s.(queue := s.queue[..i] + s.queue[i + 1..],
         running := s.running + {entry.id},
         runningCount := s.runningCount + 1,
         history := s.history.(records := s.history.records[entry.id := Running]),
         metrics := s.metrics.(started := s.metrics.started + 1))
  }

  function CompleteStep(s: State, id: ExecutionId, status: Status): (after: State)
    ensures after.options == s.options && after.orphaned == s.orphaned && after.windowCancels == s.windowCancels
  {
    if id in s.running && id in s.executions && IsTerminal(status)
    then Finish(s.(reporting := s.reporting[id := status]), s.executions[id], status)
    else s
  }

  function BeginShutdownStep(s: State): (after: State)
    ensures after.options == s.options && after.orphaned == s.orphaned && after.windowCancels == s.windowCancels
    ensures after.history == s.history && after.executions == s.executions
    ensures after.outcomes == s.outcomes && after.doubled == s.doubled && SameResults(s.metrics, after.metrics)
  {
    if s.phase != Open then s else s.(phase := Draining, drained := s.queue, queue := [])
  }

  /** Shutdown turns to the next entry it took, without looking whether somebody else has
      completed it, and sets its promise after the section. */
  function Drawn(s: State): (after: State)
    requires s.drained != []
    ensures after.options == s.options && after.windowCancels == s.windowCancels
    ensures after.history == s.history && after.executions == s.executions
  {
    var entry := s.drained[0];
    s.(drained := s.drained[1..],
       settling := Some(entry.id),
       doubled := s.doubled + (if entry.id in s.executions then 0 else 1),
       orphaned := if entry.id in s.history.records then s.orphaned else s.orphaned + {entry.id})
  }

  function DrainStep(s: State): (after: State)
    ensures after.options == s.options && after.windowCancels == s.windowCancels
  {
    if s.drained == [] || s.settling.Some? then s else Finish(Drawn(s), s.drained[0], Cancelled)
  }

  function AnswerStep(s: State, id: ExecutionId): (after: State)
    ensures after.options == s.options && after.orphaned == s.orphaned && after.windowCancels == s.windowCancels
    ensures after.history == s.history && after.executions == s.executions
    ensures after.outcomes == s.outcomes && after.doubled == s.doubled && SameResults(s.metrics, after.metrics)
  {
    if id !in s.answering then s
    else s.(promises := Fulfil(s.promises, id, s.answering[id]), answering := s.answering - {id})
  }

  function ReportStep(s: State, id: ExecutionId): (after: State)
    ensures after.options == s.options && after.orphaned == s.orphaned && after.windowCancels == s.windowCancels
    ensures after.history == s.history && after.executions == s.executions
    ensures after.outcomes == s.outcomes && after.doubled == s.doubled && SameResults(s.metrics, after.metrics)
  {
    if id !in s.reporting then s
    else s.(promises := Fulfil(s.promises, id, s.reporting[id]), reporting := s.reporting - {id})
  }

  function SettleStep(s: State): (after: State)
    ensures after.options == s.options && after.orphaned == s.orphaned && after.windowCancels == s.windowCancels
    ensures after.history == s.history && after.executions == s.executions
    ensures after.outcomes == s.outcomes && after.doubled == s.doubled && SameResults(s.metrics, after.metrics)
  {
    if s.settling.None? then s
    else s.(promises := Fulfil(s.promises, s.settling.value, Cancelled), settling := None)
  }

  function EndShutdownStep(s: State): (after: State)
    ensures after.options == s.options && after.orphaned == s.orphaned && after.windowCancels == s.windowCancels
    ensures after.outcomes == s.outcomes && after.doubled == s.doubled && SameResults(s.metrics, after.metrics)
  {
    if s.phase != Draining || s.drained != [] || s.settling.Some? || s.running != {} || s.reporting != map[] then s
    else s.(phase := Closed, history := Prune(s.history, s.executions.Keys, s.options.maximumHistorySize))
  }

  function Step(s: State, e: Event): State {
    match e
    case Allocate(command, priority, verdict) =>
      if verdict.Some? && !IsTerminal(verdict.value) then s else AllocateStep(s, command, priority, verdict)
    case Decide(id) => DecideStep(s, id)
    case Refuse(id) =>
      if id in s.submissions && s.submissions[id].Refusing? then RefuseStep(s, id, s.submissions[id].status) else s
    case Cancel(id) => CancelStep(s, id)
    case Take => TakeStep(s)
    case Complete(id, status) => CompleteStep(s, id, status)
    case BeginShutdown => BeginShutdownStep(s)
    case DrainOne => DrainStep(s)
    case Answer(id) => AnswerStep(s, id)
    case Report(id) => ReportStep(s, id)
    case SettleDrained => SettleStep(s)
    case EndShutdown => EndShutdownStep(s)
  }

  function Run(options: Options, events: seq<Event>): State {
    if events == [] then Initial(options) else Step(Run(options, events[..|events| - 1]), events[|events| - 1])
  }
}
