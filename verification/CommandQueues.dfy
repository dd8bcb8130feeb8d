/** The command queue's runs and its critical sections as methods. */
module CommandQueues {
  import opened Basics
  import opened Commands
  import Model = QueueModel
  import opened QueueModel

  // ---------------------------------------------------------------- runs

  datatype Event =
    | Submit(id: CommandId, priority: nat, verdict: Option<Status>)
    | CancelCall(id: CommandId)
    | TakeNext
    | Report(id: CommandId, status: Status)
    | CloseCall
    | SetPromise(ticket: Ticket)
    | ShutdownReturn

  ghost function Step(q: Queue, workers: nat, e: Event): Queue {
    match e
    case Submit(id, priority, verdict) => if verdict.Some? then Refuse(q, verdict.value) else Enqueue(q, id, priority)
    case CancelCall(id) => Cancel(q, id)
    case TakeNext => if q.queue != [] && q.active < workers then Take(q) else q
    case Report(id, status) => Finish(q, id, status)
    case CloseCall => if q.accepting then Close(q) else q
    case SetPromise(ticket) => Settle(q, ticket)
    case ShutdownReturn => Return(q)
  }

  ghost function Run(capacity: nat, workers: nat, events: seq<Event>): Queue {
    if events == [] then Empty(capacity)
    else Step(Run(capacity, workers, events[..|events| - 1]), workers, events[|events| - 1])
  }

  lemma StepInv(q: Queue, workers: nat, e: Event)
    requires QueueInv(q)
    ensures QueueInv(Step(q, workers, e))
  {
    hide QueueInv, Refuse, Accept, Cancel, TakeAt, FirstMaximum, Finish, Close, Settle, Return;
    match e
    case Submit(id, priority, verdict) =>
      RefuseInv(q, if verdict.Some? then verdict.value else Rejected);
      if CanEnqueue(q, id) {
        AcceptInv(q, id, priority);
      }
    case CancelCall(id) => CancelInv(q, id);
    case TakeNext =>
      if q.queue != [] {
        TakeInv(q, FirstMaximum(q.queue, 0, 1));
      }
    case Report(id, status) => FinishInv(q, id, status);
    case CloseCall => CloseInv(q);
    case SetPromise(ticket) => SettleInv(q, ticket);
    case ShutdownReturn => ReturnInv(q);
  }

  lemma {:induction false} RunInv(capacity: nat, workers: nat, events: seq<Event>)
    ensures QueueInv(Run(capacity, workers, events))
  {
    hide QueueInv, Step;
    if events == [] {
      EmptyInv(capacity);
    } else {
      RunInv(capacity, workers, events[..|events| - 1]);
      StepInv(Run(capacity, workers, events[..|events| - 1]), workers, events[|events| - 1]);
    }
  }

  /** In every run: the statistics account for every accepted and every refused command, and each
      accepted command's promise is unset while it is outstanding or being settled and set
      exactly once afterwards. */
  lemma QueueConserves(capacity: nat, workers: nat, events: seq<Event>)
    ensures var q := Run(capacity, workers, events);
      && Total(q.statistics) + |q.tasks| == q.statistics.accepted + q.refused
      && |q.queue| <= capacity
      && forall t: Ticket :: t < q.statistics.accepted ==>
           q.resolved[t] == if Outstanding(t, q.tasks) || t in q.settling then 0 else 1
  {
    hide LineInv, PlaceInv, Run, Outstanding;
    RunInv(capacity, workers, events);
    CapacityKept(capacity, workers, events);
    var q := Run(capacity, workers, events);
    forall t: Ticket | t < q.next
      ensures q.resolved[t] == if Outstanding(t, q.tasks) || t in q.settling then 0 else 1
    {
      if Outstanding(t, q.tasks) {
        OutstandingUnresolved(q, t);
      }
    }
  }

  lemma OutstandingUnresolved(q: Queue, t: Ticket)
    requires QueueInv(q) && Outstanding(t, q.tasks)
    ensures t !in q.resolved
  {
  }

  lemma {:induction false} CapacityKept(capacity: nat, workers: nat, events: seq<Event>)
    ensures Run(capacity, workers, events).capacity == capacity
  {
    hide FirstMaximum, RemoveFirst, IdsOf, TicketsOf, Record;
    if events != [] {
      CapacityKept(capacity, workers, events[..|events| - 1]);
    }
  }

  /** Once Shutdown has returned nothing is outstanding, and every accepted command's promise is
      set, but for a Cancel that has yet to set it. */
  lemma ShutdownSettlesAll(capacity: nat, workers: nat, events: seq<Event>)
    requires Run(capacity, workers, events).complete
    ensures var q := Run(capacity, workers, events);
      && q.tasks == map[] && q.queue == [] && q.active == 0
      && (forall t: Ticket :: t < q.statistics.accepted ==> q.resolved[t] == if t in q.cancelling then 0 else 1)
      && (q.cancelling == {} ==> forall t: Ticket :: t < q.statistics.accepted ==> q.resolved[t] == 1)
  {
    hide Run, QueueInv;
    RunInv(capacity, workers, events);
    ReturnedIsSettled(Run(capacity, workers, events));
  }

  lemma ReturnedIsSettled(q: Queue)
    requires QueueInv(q) && q.complete
    ensures q.tasks == map[] && q.queue == [] && q.active == 0
    ensures forall t: Ticket :: t < q.statistics.accepted ==> q.resolved[t] == if t in q.cancelling then 0 else 1
  {
    assert forall id :: id in q.tasks ==> Placed(id, q.queue, q.tasks, q.running);
    assert q.tasks.Keys == {};
    assert q.settling == q.cancelling;
  }

  // ---------------------------------------------------------------- no deadlock

  lemma Appended(capacity: nat, workers: nat, events: seq<Event>, e: Event)
    ensures Run(capacity, workers, events + [e]) == Step(Run(capacity, workers, events), workers, e)
  {
    hide Step;
    assert (events + [e])[..|events + [e]| - 1] == events;
  }

  /** The tasks that run end, and every promise is set. */
  lemma {:induction false} Ends(capacity: nat, workers: nat, events: seq<Event>) returns (all: seq<Event>)
    requires !Run(capacity, workers, events).accepting
    ensures events <= all
    ensures var q := Run(capacity, workers, all); !q.accepting && q.running == {} && q.settling == {}
    decreases Run(capacity, workers, events).running, Run(capacity, workers, events).settling
  {
    hide Run, QueueInv, FirstMaximum, IdsOf, TicketsOf, Record, RemoveFirst;
    RunInv(capacity, workers, events);
    var q := Run(capacity, workers, events);
    RunningIsTask(q);
    if id :| id in q.running {
      Appended(capacity, workers, events, Report(id, Failed));
      all := Ends(capacity, workers, events + [Report(id, Failed)]);
    } else if ticket :| ticket in q.settling {
      Appended(capacity, workers, events, SetPromise(ticket));
      all := Ends(capacity, workers, events + [SetPromise(ticket)]);
    } else {
      all := events;
    }
  }

  /** Whatever has happened, some continuation has Shutdown return with every promise set. */
  lemma ShutdownCanReturn(capacity: nat, workers: nat, events: seq<Event>) returns (all: seq<Event>)
    ensures events <= all
    ensures var q := Run(capacity, workers, all);
      q.complete && q.tasks == map[] && forall t: Ticket :: t < q.statistics.accepted ==> q.resolved[t] == 1
  {
    hide Run, QueueInv, IdsOf, TicketsOf;
    all := events;
    if Run(capacity, workers, events).accepting {
      Appended(capacity, workers, events, CloseCall);
      all := events + [CloseCall];
    }
    all := Ends(capacity, workers, all);
    Appended(capacity, workers, all, ShutdownReturn);
    CancellingSettles(capacity, workers, all);
    all := all + [ShutdownReturn];
    ShutdownSettlesAll(capacity, workers, all);
  }

  lemma CancellingSettles(capacity: nat, workers: nat, events: seq<Event>)
    requires Run(capacity, workers, events).settling == {}
    ensures Run(capacity, workers, events).cancelling == {}
  {
    hide Run;
    RunInv(capacity, workers, events);
  }

  // ---------------------------------------------------------------- which task runs next

  lemma {:induction false} FirstMaximumIsBest(queue: seq<Task>, best: nat, next: nat)
    requires best < next <= |queue|
    requires forall j :: 0 <= j < next ==>
      queue[j].priority < queue[best].priority || (queue[j].priority == queue[best].priority && best <= j)
    ensures var i := FirstMaximum(queue, best, next);
      forall j :: 0 <= j < |queue| ==>
        queue[j].priority < queue[i].priority || (queue[j].priority == queue[i].priority && i <= j)
    decreases |queue| - next
  {
    if next < |queue| {
      FirstMaximumIsBest(queue, if queue[best].priority < queue[next].priority then next else best, next + 1);
    }
  }

  /** A task of highest priority and, among those, the one accepted first. */
  ghost predicate RunsFirst(queue: seq<Task>, task: Task) {
    task in queue && forall other :: other in queue && other != task ==>
      other.priority < task.priority || (other.priority == task.priority && task.ticket < other.ticket)
  }

  lemma FirstMaximumRunsFirst(q: Queue)
    requires QueueInv(q) && q.queue != []
    ensures RunsFirst(q.queue, q.queue[FirstMaximum(q.queue, 0, 1)])
  {
    hide FirstMaximum, PlaceInv, TicketInv, Holds;
    FirstMaximumIsBest(q.queue, 0, 1);
    var i := FirstMaximum(q.queue, 0, 1);
    forall other | other in q.queue && other != q.queue[i]
      ensures other.priority < q.queue[i].priority ||
        (other.priority == q.queue[i].priority && q.queue[i].ticket < other.ticket)
    {
      var j :| 0 <= j < |q.queue| && q.queue[j] == other;
      assert j != i;
    }
  }

  // ---------------------------------------------------------------- methods

  /** One counter went up: the one for the status, where an unfinished one counts as failed. */
  predicate CountsOne(before: Statistics, after: Statistics, status: Status) {
    && after.accepted == before.accepted
    && after.completed == before.completed + (if status == Completed then 1 else 0)
    && after.cancelled == before.cancelled + (if status == Cancelled then 1 else 0)
    && after.timedOut == before.timedOut + (if status == Timeout then 1 else 0)
    && after.rejected == before.rejected + (if status == Rejected then 1 else 0)
    && after.failed == before.failed + (if status in {Failed, Pending, Queued, Running} then 1 else 0)
  }

  class CommandQueue {
    /** The queue's data members, with the promises that callers and workers still have to set. */
    var q: Queue

    constructor (capacity: nat)
      requires capacity > 0
      ensures QueueInv(q) && q == Empty(capacity)
    {
      q := Empty(capacity);
      new;
      EmptyInv(capacity);
    }

    method RecordResult(status: Status)
      modifies this
      ensures q == old(q).(statistics := Record(old(q).statistics, status))
      ensures CountsOne(old(q.statistics), q.statistics, status)
    {
      var counts := q.statistics;
      match status {
        case Completed => counts := counts.(completed := counts.completed + 1);
        case Cancelled => counts := counts.(cancelled := counts.cancelled + 1);
        case Timeout => counts := counts.(timedOut := counts.timedOut + 1);
        case Rejected => counts := counts.(rejected := counts.rejected + 1);
        case _ => counts := counts.(failed := counts.failed + 1);
      }
      q := q.(statistics := counts);
    }

    method Enqueue(id: CommandId, priority: nat) returns (accepted: bool)
      requires QueueInv(q)
      modifies this
      ensures QueueInv(q) && q == Model.Enqueue(old(q), id, priority)
      ensures accepted <==> old(q.accepting) && id !in old(q.tasks) && |old(q.queue)| < old(q.capacity)
      ensures accepted ==>
        && id in q.tasks && q.tasks[id] == Task(old(q.next), id, priority) && q.queue == old(q.queue) + [q.tasks[id]]
        && q.statistics == old(q.statistics).(accepted := old(q.statistics.accepted) + 1)
      ensures !accepted ==> q.tasks == old(q.tasks) && q.queue == old(q.queue)
      ensures !accepted ==> CountsOne(old(q.statistics), q.statistics, Rejected)
    {
      hide QueueInv;
      RefuseInv(q, Rejected);
      if CanEnqueue(q, id) {
        AcceptInv(q, id, priority);
      }
      if !q.accepting || id in q.tasks || |q.queue| >= q.capacity {
        RecordResult(Rejected);
        q := q.(refused := q.refused + 1);
        return false;
      }
      var task := Task(q.next, id, priority);
      q := q.(tasks := q.tasks[id := task]);
      q := q.(queue := q.queue + [task]);
      q := q.(next := q.next + 1, statistics := q.statistics.(accepted := q.statistics.accepted + 1));
      return true;
    }

    method Cancel(id: CommandId) returns (status: Status)
      requires QueueInv(q)
      modifies this
      ensures QueueInv(q) && q == Model.Cancel(old(q), id)
      ensures status == if id in old(q).tasks && id !in old(q).running then Cancelled else Rejected
      ensures status == Cancelled ==>
        && q.tasks == old(q.tasks) - {id} && q.queue == RemoveFirst(old(q.queue), old(q).tasks[id])
        && old(q).tasks[id].ticket in q.settling && CountsOne(old(q.statistics), q.statistics, Cancelled)
      ensures status == Rejected ==> q == old(q)
    {
      hide QueueInv;
      CancelInv(q, id);
      if id !in q.tasks || id in q.running {
        return Rejected;
      }
      var task := q.tasks[id];
      q := q.(tasks := q.tasks - {id});
      var rest := Erase(q.queue, task);
      q := q.(queue := rest);
      q := q.(statistics := q.statistics.(cancelled := q.statistics.cancelled + 1),
        settling := q.settling + {task.ticket});
      q := q.(cancelling := q.cancelling + {task.ticket});
      return Cancelled;
    }

    method TakeTask() returns (task: Task)
      requires QueueInv(q) && q.queue != []
      modifies this
      ensures QueueInv(q) && q == Take(old(q)) && RunsFirst(old(q).queue, task)
      ensures q.running == old(q.running) + {task.id} && |q.queue| == |old(q.queue)| - 1
      ensures forall other :: other in q.queue ==> other in old(q.queue)
    {
      hide QueueInv, FirstMaximum;
      FirstMaximumRunsFirst(q);
      TakeInv(q, FirstMaximum(q.queue, 0, 1));
      var i := HighestPriority(q.queue);
      task := q.queue[i];
      q := q.(queue := q.queue[..i] + q.queue[i + 1..]);
      q := q.(running := q.running + {task.id}, active := q.active + 1);
    }

    method Complete(
        id: CommandId, expiredBefore: bool, returned: Option<Status>, expiredAfter: bool) returns (status: Status)
      requires QueueInv(q) && id in q.running && id in q.tasks
      modifies this
      ensures status == FinalStatus(expiredBefore, returned, expiredAfter)
      ensures QueueInv(q) && q == Finish(old(q), id, status)
      ensures q.tasks == old(q.tasks) - {id} && q.running == old(q.running) - {id}
      ensures old(q).tasks[id].ticket in q.settling && CountsOne(old(q.statistics), q.statistics, status)
    {
      hide QueueInv, Record, FinalStatus;
      status := Conclude(expiredBefore, returned, expiredAfter);
      FinishInv(q, id, status);
      ActivePositive(q, id);
      var ticket := q.tasks[id].ticket;
      q := q.(tasks := q.tasks - {id}, running := q.running - {id}, settling := q.settling + {ticket});
      q := q.(active := q.active - 1);
      RecordResult(status);
    }

    /** The section of Shutdown that empties the queue. */
    method CloseLocked() returns (cancelled: seq<Task>)
      requires QueueInv(q) && q.accepting
      modifies this
      ensures QueueInv(q) && q == Close(old(q)) && cancelled == old(q).queue
      ensures !q.accepting && q.queue == []
      ensures q.statistics.cancelled == old(q.statistics.cancelled) + |cancelled|
    {
      hide QueueInv, IdsOf, TicketsOf;
      CloseInv(q);
      cancelled := q.queue;
      q := q.(accepting := false, queue := []);
      ghost var closed := q;
      assert cancelled[..0] == [];
      NoTasks(closed.tasks, closed.settling);
      for i := 0 to |cancelled|
        invariant q == closed.(
          tasks := closed.tasks - IdsOf(cancelled[..i]),
          statistics := closed.statistics.(cancelled := closed.statistics.cancelled + i),
          settling := closed.settling + TicketsOf(cancelled[..i]))
      {
        assert cancelled[..i + 1][..i] == cancelled[..i];
        IdsOfSplit(cancelled[..i + 1], i);
        OneMore(closed.tasks, IdsOf(cancelled[..i]), cancelled[i].id);
        q := q.(tasks := q.tasks - {cancelled[i].id});
        q := q.(statistics := q.statistics.(cancelled := q.statistics.cancelled + 1));
        q := q.(settling := q.settling + {cancelled[i].ticket});
      }
      assert cancelled[..|cancelled|] == cancelled;
    }
  }

  lemma ActivePositive(q: Queue, id: CommandId)
    requires QueueInv(q) && id in q.running
    ensures q.active > 0
  {
  }

  lemma NoTasks(tasks: map<CommandId, Task>, settling: set<Ticket>)
    ensures tasks - IdsOf([]) == tasks && settling + TicketsOf([]) == settling
  {
  }

  lemma OneMore(tasks: map<CommandId, Task>, ids: set<CommandId>, id: CommandId)
    ensures tasks - ids - {id} == tasks - (ids + {id})
  {
  }

  /** The scan for the first task of highest priority. */
  method HighestPriority(queue: seq<Task>) returns (best: nat)
    requires queue != []
    ensures best == FirstMaximum(queue, 0, 1)
  {
    best := 0;
    for next := 1 to |queue|
      invariant best < next && FirstMaximum(queue, 0, 1) == FirstMaximum(queue, best, next)
    {
      if queue[best].priority < queue[next].priority {
        best := next;
      }
    }
  }
}
