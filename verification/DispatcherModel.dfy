/** The command dispatcher as a state machine: callers that execute synchronously, the single
    worker of its queue, the two locks that protect the ids in flight, and the adapter lock. */
module DispatcherModel {
  import opened Basics
  import opened Commands
  import opened QueueModel

  datatype Actor = Caller(n: nat) | Worker

  /** Where a dispatch stands: before the adapter lock, holding it, with an accepting safety
      validation, inside the adapter call, or past it all. */
  datatype Pc =
    | Entered(id: CommandId)
    | Locked(id: CommandId)
    | Approved(id: CommandId)
    | Calling(id: CommandId)
    | Left(id: CommandId)

  predicate HoldsAdapter(pc: Pc) {
    pc.Locked? || pc.Approved? || pc.Calling?
  }

  /** Who holds the lock on the synchronous ids, and how far it has come. */
  datatype Holder =
    | Free
    | Checking(caller: nat, id: CommandId)
    | Inserting(caller: nat, id: CommandId)
    | Enqueuing(id: CommandId, priority: nat)

  /** Where a shutdown is called from: outside, or inside the adapter call of an actor. */
  datatype Origin = Outside | Inside(actor: Actor)

  datatype Phase =
    | Open
    | Closing(origin: Origin)
    | Joining(origin: Origin)
    | Waiting(origin: Origin)
    | Complete(origin: Origin)

  /** What happens under the adapter lock. */
  datatype Action = Accepted(actor: Actor, id: CommandId) | Denied(actor: Actor, id: CommandId) | Called(actor: Actor,
    id: CommandId) | Returned(actor: Actor, id: CommandId)

  datatype State = State(
    phase: Phase,
    synchronous: set<CommandId>,
    holder: Holder,
    q: Queue,
    dispatches: map<Actor, Pc>,
    exited: bool,
    adapter: Option<Actor>,
    log: seq<Action>)

  function Initial(capacity: nat): State {
    State(Open, {}, Free, Empty(capacity), map[], false, None, [])
  }

  datatype Event =
    | ExecuteLock(caller: nat, id: CommandId)
    | ExecuteCheck
    | ExecuteInsert
    | AsyncLock(id: CommandId, priority: nat)
    | AsyncEnqueue(verdict: Option<Status>)
    | CancelQueued(id: CommandId)
    | WorkerTake
    | Skip(actor: Actor)
    | Lock(actor: Actor)
    | Expire(actor: Actor)
    | Validate(actor: Actor, accepts: bool)
    | Call(actor: Actor)
    | Return(actor: Actor)
    | ExecuteReturn(caller: nat)
    | WorkerReport(status: Status)
    | WorkerExit
    | SetPromise(ticket: Ticket)
    | ShutdownCall(origin: Origin)
    | CloseQueue
    | Join
    | ShutdownEnd

  predicate At(s: State, actor: Actor) {
    actor in s.dispatches
  }

  function Move(s: State, actor: Actor, pc: Pc): State {
    s.(dispatches := s.dispatches[actor := pc])
  }

  /** Leaving the adapter lock. */
  function Leave(s: State, actor: Actor, id: CommandId): State {
    Move(s, actor, Left(id)).(adapter := None)
  }

  function LockStep(s: State, e: Event): State
    requires e.ExecuteLock? || e.ExecuteCheck? || e.ExecuteInsert? || e.AsyncLock?
  {
    match e
    case ExecuteLock(caller, id) =>
      if s.holder.Free? && s.phase.Open? && id !in s.synchronous && !At(s, Caller(caller))
      then s.(holder := Checking(caller, id))
      else s
    case ExecuteCheck =>
      if !s.holder.Checking? then s
      else if s.holder.id in s.q.tasks then s.(holder := Free)
      else s.(holder := Inserting(s.holder.caller, s.holder.id))
    case ExecuteInsert =>
      if !s.holder.Inserting? then s
      else
        s.(holder := Free,
           synchronous := s.synchronous + {s.holder.id},
           dispatches := s.dispatches[Caller(s.holder.caller) := Entered(s.holder.id)])
    case AsyncLock(id, priority) =>
      if s.holder.Free? && s.phase.Open? && id !in s.synchronous then s.(holder := Enqueuing(id, priority)) else s
  }

  /** The queue's part of an asynchronous execution: its own validation, then its section. */
  function EnqueueStep(s: State, verdict: Option<Status>): State {
    if !s.holder.Enqueuing? then s
    else s.(holder := Free,
      q := if verdict.Some? then Refuse(s.q, verdict.value) else Enqueue(s.q, s.holder.id, s.holder.priority))
  }

  function TakeStep(s: State): State {
    if At(s, Worker) || s.exited || s.q.queue == [] then s
    else
      var task := s.q.queue[FirstMaximum(s.q.queue, 0, 1)];
      s.(q := Take(s.q), dispatches := s.dispatches[Worker := Entered(task.id)])
  }

  function DispatchStep(s: State, actor: Actor, e: Event): State
    requires At(s, actor)
  {
    var pc := s.dispatches[actor];
    match e
    case Skip(_) => if pc.Entered? then Move(s, actor, Left(pc.id)) else s
    case Lock(_) => if pc.Entered? && s.adapter.None? then Move(s, actor, Locked(pc.id)).(adapter := Some(actor)) else s
    case Expire(_) => if pc.Locked? then Leave(s, actor, pc.id) else s
    case Validate(_, accepts) =>
      if !pc.Locked? then s
      else if accepts then Move(s, actor, Approved(pc.id)).(log := s.log + [Accepted(actor, pc.id)])
      else Leave(s, actor, pc.id).(log := s.log + [Denied(actor, pc.id)])
    case Call(_) => if pc.Approved? then Move(s, actor, Calling(pc.id)).(log := s.log + [Called(actor, pc.id)]) else s
    case Return(_) =>
      if pc.Calling? &&
        !ShuttingDown(s, actor) then Leave(s, actor, pc.id).(log := s.log + [Returned(actor, pc.id)]) else s
    case _ => s
  }

  /** The actor is inside a shutdown that it called from its adapter call. */
  predicate ShuttingDown(s: State, actor: Actor) {
    (s.phase.Closing? || s.phase.Joining? || s.phase.Waiting?) && s.phase.origin == Inside(actor)
  }

  function ExecuteReturnStep(s: State, caller: nat): State {
    if !At(s, Caller(caller)) || !s.dispatches[Caller(caller)].Left? || !s.holder.Free? then s
    else s.(synchronous := s.synchronous - {s.dispatches[Caller(caller)].id},
      dispatches := s.dispatches - {Caller(caller)})
  }

  function ReportStep(s: State, status: Status): State {
    if !At(s, Worker) || !s.dispatches[Worker].Left? then s
    else s.(q := Finish(s.q, s.dispatches[Worker].id, status), dispatches := s.dispatches - {Worker})
  }

  function ExitStep(s: State): State {
    if At(s, Worker) || s.q.queue != [] || s.q.accepting then s else s.(exited := true)
  }

  /** A shutdown that the queue's own worker makes is refused by the queue, and goes on. */
  ghost function ShutdownStep(s: State, e: Event): State
    requires e.ShutdownCall? || e.CloseQueue? || e.Join? || e.ShutdownEnd?
  {
    match e
    case ShutdownCall(origin) =>
      if && s.phase.Open? && s.holder.Free?
         && (origin.Inside? ==> At(s, origin.actor) && s.dispatches[origin.actor].Calling?)
      then s.(phase := Closing(origin))
      else s
    case CloseQueue =>
      if !s.phase.Closing? then s
      else if s.phase.origin == Inside(Worker) then s.(phase := Waiting(s.phase.origin))
      else s.(phase := Joining(s.phase.origin), q := Close(s.q))
    case Join => if s.phase.Joining? && s.exited then s.(phase := Waiting(s.phase.origin)) else s
    case ShutdownEnd =>
      if s.phase.Waiting? && s.holder.Free? && s.synchronous == {} then s.(phase := Complete(s.phase.origin)) else s
  }

  ghost function Step(s: State, e: Event): State {
    match e
    case ExecuteLock(_, _) => LockStep(s, e)
    case ExecuteCheck => LockStep(s, e)
    case ExecuteInsert => LockStep(s, e)
    case AsyncLock(_, _) => LockStep(s, e)
    case AsyncEnqueue(verdict) => EnqueueStep(s, verdict)
    case CancelQueued(id) => s.(q := Cancel(s.q, id))
    case WorkerTake => TakeStep(s)
    case Skip(actor) => if At(s, actor) then DispatchStep(s, actor, e) else s
    case Lock(actor) => if At(s, actor) then DispatchStep(s, actor, e) else s
    case Expire(actor) => if At(s, actor) then DispatchStep(s, actor, e) else s
    case Validate(actor, _) => if At(s, actor) then DispatchStep(s, actor, e) else s
    case Call(actor) => if At(s, actor) then DispatchStep(s, actor, e) else s
    case Return(actor) => if At(s, actor) then DispatchStep(s, actor, e) else s
    case ExecuteReturn(caller) => ExecuteReturnStep(s, caller)
    case WorkerReport(status) => ReportStep(s, status)
    case WorkerExit => ExitStep(s)
    case SetPromise(ticket) => s.(q := Settle(s.q, ticket))
    case ShutdownCall(_) => ShutdownStep(s, e)
    case CloseQueue => ShutdownStep(s, e)
    case Join => ShutdownStep(s, e)
    case ShutdownEnd => ShutdownStep(s, e)
  }

  ghost function Run(s: State, events: seq<Event>): State {
    if events == [] then s else Step(Run(s, events[..|events| - 1]), events[|events| - 1])
  }
}
