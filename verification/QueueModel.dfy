/** The bounded command queue as a state machine of its critical sections. */
module QueueModel {
  import opened Basics
  import opened Commands

  type CommandId = nat

  /** The place of an accepted command in acceptance order; it identifies its promise. */
  type Ticket = nat

  datatype Task = Task(ticket: Ticket, id: CommandId, priority: nat)

  datatype Statistics = Statistics(accepted: nat, completed: nat, cancelled: nat, failed: nat, timedOut: nat,
    rejected: nat)

  /** `running` holds the ids of the tasks in the running state. `settling` are the tasks that
      left the queue's books and whose promise is still to be set: by a caller of Cancel for those
      in `cancelling`, and by the worker or by Shutdown for the others. `resolved` counts how often
      a promise was set. `refused` counts immediate results; no step reads it. */
  datatype Queue = Queue(
    capacity: nat,
    queue: seq<Task>,
    tasks: map<CommandId, Task>,
    running: set<CommandId>,
    active: nat,
    statistics: Statistics,
    accepting: bool,
    next: Ticket,
    settling: set<Ticket>,
    cancelling: set<Ticket>,
    complete: bool,
    resolved: multiset<Ticket>,
    refused: nat)

  function Empty(capacity: nat): Queue {
    Queue(capacity, [], map[], {}, 0, Statistics(0, 0, 0, 0, 0, 0), true, 0, {}, {}, false, multiset{}, 0)
  }

  function Record(s: Statistics, status: Status): Statistics {
    match status
    case Completed => s.(completed := s.completed + 1)
    case Cancelled => s.(cancelled := s.cancelled + 1)
    case Timeout => s.(timedOut := s.timedOut + 1)
    case Rejected => s.(rejected := s.rejected + 1)
    case _ => s.(failed := s.failed + 1)
  }

  predicate CanEnqueue(q: Queue, id: CommandId) {
    q.accepting && id !in q.tasks && |q.queue| < q.capacity
  }

  /** A command that failed validation or is not accepted has an immediate result. */
  function Refuse(q: Queue, status: Status): Queue {
    q.(statistics := Record(q.statistics, status), refused := q.refused + 1)
  }

  function Accept(q: Queue, id: CommandId, priority: nat): Queue {
    var task := Task(q.next, id, priority);
    q.(next := q.next + 1,
       tasks := q.tasks[id := task],
       queue := q.queue + [task],
       statistics := q.statistics.(accepted := q.statistics.accepted + 1))
  }

  function Enqueue(q: Queue, id: CommandId, priority: nat): Queue {
    if CanEnqueue(q, id) then Accept(q, id, priority) else Refuse(q, Rejected)
  }

  function Cancel(q: Queue, id: CommandId): Queue {
    if id !in q.tasks || id in q.running then q
    else
      var task := q.tasks[id];
      q.(tasks := q.tasks - {id},
         queue := RemoveFirst(q.queue, task),
         statistics := q.statistics.(cancelled := q.statistics.cancelled + 1),
         settling := q.settling + {task.ticket},
         cancelling := q.cancelling + {task.ticket})
  }

  /** The position std::max_element finds: a later task replaces the best so far only if its
      priority is higher. */
  function FirstMaximum(queue: seq<Task>, best: nat, next: nat): (i: nat)
    requires best < next <= |queue|
    ensures i < |queue|
    decreases |queue| - next
  {
    if next == |queue| then best
    else FirstMaximum(queue, if queue[best].priority < queue[next].priority then next else best, next + 1)
  }

  function TakeAt(q: Queue, i: nat): Queue
    requires i < |q.queue|
  {
    q.(queue := q.queue[..i] + q.queue[i + 1..], running := q.running + {q.queue[i].id}, active := q.active + 1)
  }

  function Take(q: Queue): Queue
    requires q.queue != []
  {
    TakeAt(q, FirstMaximum(q.queue, 0, 1))
  }

  function Finish(q: Queue, id: CommandId, status: Status): Queue {
    if id !in q.running || id !in q.tasks then q
    else
      q.(tasks := q.tasks - {id},
         running := q.running - {id},
         active := if q.active > 0 then q.active - 1 else 0,
         statistics := Record(q.statistics, status),
         settling := q.settling + {q.tasks[id].ticket})
  }

  ghost function IdsOf(queue: seq<Task>): set<CommandId> {
    set i | 0 <= i < |queue| :: queue[i].id
  }

  ghost function TicketsOf(queue: seq<Task>): set<Ticket> {
    set i | 0 <= i < |queue| :: queue[i].ticket
  }

  /** Shutdown's first section: nothing is accepted any more and what is queued is cancelled. */
  ghost function Close(q: Queue): Queue {
    q.(accepting := false,
       queue := [],
       tasks := q.tasks - IdsOf(q.queue),
       statistics := q.statistics.(cancelled := q.statistics.cancelled + |q.queue|),
       settling := q.settling + TicketsOf(q.queue))
  }

  function Settle(q: Queue, ticket: Ticket): Queue {
    if ticket !in q.settling then q
    else q.(settling := q.settling - {ticket}, cancelling := q.cancelling - {ticket},
      resolved := q.resolved + multiset{ticket})
  }

  /** Shutdown returns once it has set its promises and joined the workers, which have set theirs. */
  function Return(q: Queue): Queue {
    if q.accepting || q.running != {} || !(q.settling <= q.cancelling) then q else q.(complete := true)
  }

  // ---------------------------------------------------------------- invariant

  predicate Holds(tasks: map<CommandId, Task>, task: Task) {
    task.id in tasks && tasks[task.id] == task
  }

  ghost predicate LineInv(queue: seq<Task>, tasks: map<CommandId, Task>, running: set<CommandId>) {
    && (forall i :: 0 <= i < |queue| ==> Holds(tasks, queue[i]) && queue[i].id !in running)
    && (forall i, j :: 0 <= i < j < |queue| ==> queue[i].id != queue[j].id && queue[i].ticket < queue[j].ticket)
  }

  ghost predicate Placed(id: CommandId, queue: seq<Task>, tasks: map<CommandId, Task>, running: set<CommandId>)
    requires id in tasks
  {
    tasks[id].id == id && (id in running || tasks[id] in queue)
  }

  ghost predicate PlaceInv(queue: seq<Task>, tasks: map<CommandId, Task>, running: set<CommandId>) {
    running <= tasks.Keys && forall id :: id in tasks ==> Placed(id, queue, tasks, running)
  }

  /** Every ticket below `next` is outstanding, about to be settled, or settled: exactly one of
      them, and settled once. */
  ghost predicate TicketInv(
      next: Ticket, tasks: map<CommandId, Task>, settling: set<Ticket>, resolved: multiset<Ticket>) {
    && (forall id :: id in tasks ==>
      tasks[id].ticket < next && tasks[id].ticket !in settling && tasks[id].ticket !in resolved)
    && (forall a, b :: a in tasks && b in tasks && tasks[a].ticket == tasks[b].ticket ==> a == b)
    && (forall t :: t in settling ==> t < next && t !in resolved)
    && (forall t :: t in resolved ==> t < next && resolved[t] == 1)
    && (forall t: Ticket :: t < next ==> Outstanding(t, tasks) || t in settling || t in resolved)
  }

  ghost predicate Outstanding(t: Ticket, tasks: map<CommandId, Task>) {
    exists id :: id in tasks && tasks[id].ticket == t
  }

  function Total(s: Statistics): nat {
    s.completed + s.cancelled + s.failed + s.timedOut + s.rejected
  }

  ghost predicate CountInv(q: Queue) {
    && Total(q.statistics) + |q.tasks| == q.statistics.accepted + q.refused
    && q.statistics.accepted == q.next
    && q.active == |q.running|
    && |q.queue| <= q.capacity
    && (!q.accepting ==> q.queue == [])
  }

  ghost predicate QueueInv(q: Queue) {
    && LineInv(q.queue, q.tasks, q.running)
    && PlaceInv(q.queue, q.tasks, q.running)
    && TicketInv(q.next, q.tasks, q.settling, q.resolved)
    && CountInv(q)
    && q.cancelling <= q.settling
    && (q.complete ==> !q.accepting && q.running == {} && q.settling <= q.cancelling)
  }

  lemma EmptyInv(capacity: nat)
    ensures QueueInv(Empty(capacity))
  {
  }

  lemma RecordTotals(s: Statistics, status: Status)
    ensures Total(Record(s, status)) == Total(s) + 1 && Record(s, status).accepted == s.accepted
  {
  }

  lemma RefuseInv(q: Queue, status: Status)
    requires QueueInv(q)
    ensures QueueInv(Refuse(q, status))
  {
    hide LineInv, PlaceInv, TicketInv, Record, Total;
    RecordTotals(q.statistics, status);
  }

  lemma AcceptInv(q: Queue, id: CommandId, priority: nat)
    requires QueueInv(q) && CanEnqueue(q, id)
    ensures QueueInv(Accept(q, id, priority))
  {
    hide LineInv, PlaceInv, TicketInv;
    var task := Task(q.next, id, priority);
    AcceptLine(q.queue, q.tasks, q.running, q.next, q.settling, q.resolved, task);
    AcceptTicket(q.next, q.tasks, q.settling, q.resolved, task);
    assert |q.tasks[id := task]| == |q.tasks| + 1;
  }

  lemma AcceptLine(
      queue: seq<Task>, tasks: map<CommandId, Task>, running: set<CommandId>, next: Ticket, settling: set<Ticket>,
      resolved: multiset<Ticket>, task: Task)
    requires LineInv(queue, tasks, running) && PlaceInv(queue, tasks, running)
    requires TicketInv(next, tasks, settling, resolved)
    requires task.id !in tasks && task.ticket == next
    ensures LineInv(queue + [task], tasks[task.id := task], running)
    ensures PlaceInv(queue + [task], tasks[task.id := task], running)
  {
    var after := tasks[task.id := task];
    forall i | 0 <= i < |queue|
      ensures Holds(after, queue[i]) && queue[i].ticket < task.ticket
    {
      assert Holds(tasks, queue[i]);
    }
    forall id | id in after
      ensures Placed(id, queue + [task], after, running)
    {
      assert id in tasks ==> Placed(id, queue, tasks, running);
      assert (queue + [task])[|queue|] == task;
    }
  }

  lemma AcceptTicket(
      next: Ticket, tasks: map<CommandId, Task>, settling: set<Ticket>, resolved: multiset<Ticket>, task: Task)
    requires TicketInv(next, tasks, settling, resolved) && task.id !in tasks && task.ticket == next
    ensures TicketInv(next + 1, tasks[task.id := task], settling, resolved)
  {
    hide Outstanding;
    var after := tasks[task.id := task];
    forall t: Ticket | t < next + 1
      ensures Outstanding(t, after) || t in settling || t in resolved
    {
      if Outstanding(t, tasks) || t == next {
        OutstandingAfter(t, tasks, task);
      }
    }
  }

  lemma OutstandingAfter(t: Ticket, tasks: map<CommandId, Task>, task: Task)
    requires task.id !in tasks && (Outstanding(t, tasks) || t == task.ticket)
    ensures Outstanding(t, tasks[task.id := task])
  {
    var after := tasks[task.id := task];
    if t == task.ticket {
      assert after[task.id].ticket == t;
    } else {
      var id :| id in tasks && tasks[id].ticket == t;
      assert id in after && after[id].ticket == t;
    }
  }

  // ---------------------------------------------------------------- leaving the books

  /** The tickets of some outstanding commands. */
  ghost predicate AreTickets(tasks: map<CommandId, Task>, ids: set<CommandId>, tickets: set<Ticket>) {
    && (forall id :: id in ids ==> id in tasks && tasks[id].ticket in tickets)
    && (forall t :: t in tickets ==> exists id :: id in ids && id in tasks && tasks[id].ticket == t)
  }

  lemma TicketMove(
      next: Ticket, tasks: map<CommandId, Task>, settling: set<Ticket>, resolved: multiset<Ticket>,
      ids: set<CommandId>, tickets: set<Ticket>)
    requires TicketInv(next, tasks, settling, resolved) && AreTickets(tasks, ids, tickets)
    ensures TicketInv(next, tasks - ids, settling + tickets, resolved)
  {
    hide Outstanding;
    var after := tasks - ids;
    forall t: Ticket | t < next
      ensures Outstanding(t, after) || t in settling + tickets || t in resolved
    {
      if Outstanding(t, tasks) {
        OutstandingLess(t, tasks, ids, tickets);
      }
    }
  }

  lemma OutstandingLess(t: Ticket, tasks: map<CommandId, Task>, ids: set<CommandId>, tickets: set<Ticket>)
    requires Outstanding(t, tasks) && AreTickets(tasks, ids, tickets)
    ensures Outstanding(t, tasks - ids) || t in tickets
  {
    var id :| id in tasks && tasks[id].ticket == t;
    assert id !in ids ==> id in tasks - ids;
  }

  lemma OneTicket(tasks: map<CommandId, Task>, id: CommandId)
    requires id in tasks
    ensures AreTickets(tasks, {id}, {tasks[id].ticket})
  {
  }

  lemma TasksLess(tasks: map<CommandId, Task>, ids: set<CommandId>)
    requires ids <= tasks.Keys
    ensures |tasks - ids| == |tasks| - |ids|
  {
    var after := tasks - ids;
    assert after.Keys == tasks.Keys - ids;
    assert |after| == |after.Keys| && |tasks| == |tasks.Keys|;
  }

  lemma RemovedLine(queue: seq<Task>, tasks: map<CommandId, Task>, running: set<CommandId>, i: nat)
    requires LineInv(queue, tasks, running) && i < |queue|
    ensures LineInv(RemoveAt(queue, i), tasks, running)
    ensures forall j :: 0 <= j < |RemoveAt(queue, i)| ==> RemoveAt(queue, i)[j].id != queue[i].id
  {
    hide RemoveAt, Holds;
    RemoveAtIs(queue, i);
  }

  lemma LineLess(queue: seq<Task>, tasks: map<CommandId, Task>, running: set<CommandId>, id: CommandId)
    requires LineInv(queue, tasks, running) && forall j :: 0 <= j < |queue| ==> queue[j].id != id
    ensures LineInv(queue, tasks - {id}, running - {id}) && LineInv(queue, tasks - {id}, running)
  {
  }

  lemma PlaceLess(
      queue: seq<Task>, tasks: map<CommandId, Task>, running: set<CommandId>, after: seq<Task>, id: CommandId)
    requires PlaceInv(queue, tasks, running) && forall task :: task in queue && task.id != id ==> task in after
    ensures PlaceInv(after, tasks - {id}, running - {id})
  {
    forall other | other in tasks - {id}
      ensures Placed(other, after, tasks - {id}, running - {id})
    {
      assert Placed(other, queue, tasks, running);
    }
  }

  lemma CancelInv(q: Queue, id: CommandId)
    requires QueueInv(q)
    ensures QueueInv(Cancel(q, id))
  {
    hide LineInv, PlaceInv, TicketInv, RemoveAt, RemoveFirst;
    if id in q.tasks && id !in q.running {
      var task := q.tasks[id];
      TaskPlaced(q, id);
      var i := RemoveFirstFinds(q.queue, task);
      RemovedLine(q.queue, q.tasks, q.running, i);
      RemoveAtIs(q.queue, i);
      LineLess(RemoveAt(q.queue, i), q.tasks, q.running, id);
      PlaceLess(q.queue, q.tasks, q.running, RemoveAt(q.queue, i), id);
      assert q.running - {id} == q.running;
      OneTicket(q.tasks, id);
      TicketMove(q.next, q.tasks, q.settling, q.resolved, {id}, {task.ticket});
      TasksLess(q.tasks, {id});
    }
  }

  lemma TaskPlaced(q: Queue, id: CommandId)
    requires QueueInv(q) && id in q.tasks
    ensures q.tasks[id].id == id && (id in q.running || q.tasks[id] in q.queue)
  {
    assert Placed(id, q.queue, q.tasks, q.running);
  }

  lemma TakeInv(q: Queue, i: nat)
    requires QueueInv(q) && i < |q.queue|
    ensures QueueInv(TakeAt(q, i))
  {
    hide LineInv, PlaceInv, TicketInv, RemoveAt, Total;
    var id := q.queue[i].id;
    RemovedLine(q.queue, q.tasks, q.running, i);
    RemoveAtIs(q.queue, i);
    TakeLine(RemoveAt(q.queue, i), q.tasks, q.running, id);
    QueuedTask(q, i);
    TakePlace(q.queue, q.tasks, q.running, i);
    assert |q.running + {id}| == |q.running| + 1;
  }

  lemma QueuedTask(q: Queue, i: nat)
    requires QueueInv(q) && i < |q.queue|
    ensures Holds(q.tasks, q.queue[i]) && q.queue[i].id !in q.running
  {
  }

  lemma TakeLine(queue: seq<Task>, tasks: map<CommandId, Task>, running: set<CommandId>, id: CommandId)
    requires LineInv(queue, tasks, running) && forall j :: 0 <= j < |queue| ==> queue[j].id != id
    ensures LineInv(queue, tasks, running + {id})
  {
  }

  lemma TakePlace(queue: seq<Task>, tasks: map<CommandId, Task>, running: set<CommandId>, i: nat)
    requires PlaceInv(queue, tasks, running) && i < |queue| && Holds(tasks, queue[i])
    ensures PlaceInv(RemoveAt(queue, i), tasks, running + {queue[i].id})
  {
    hide RemoveAt;
    RemoveAtIs(queue, i);
    forall id | id in tasks
      ensures Placed(id, RemoveAt(queue, i), tasks, running + {queue[i].id})
    {
      assert Placed(id, queue, tasks, running);
    }
  }

  lemma FinishInv(q: Queue, id: CommandId, status: Status)
    requires QueueInv(q)
    ensures QueueInv(Finish(q, id, status))
  {
    hide LineInv, PlaceInv, TicketInv, Record, Total;
    if id in q.running && id in q.tasks {
      RunningNotQueued(q, id);
      LineLess(q.queue, q.tasks, q.running, id);
      PlaceLess(q.queue, q.tasks, q.running, q.queue, id);
      OneTicket(q.tasks, id);
      TicketMove(q.next, q.tasks, q.settling, q.resolved, {id}, {q.tasks[id].ticket});
      TasksLess(q.tasks, {id});
      RecordTotals(q.statistics, status);
      assert |q.running - {id}| == |q.running| - 1;
    }
  }

  lemma RunningNotQueued(q: Queue, id: CommandId)
    requires QueueInv(q) && id in q.running
    ensures forall i :: 0 <= i < |q.queue| ==> q.queue[i].id != id
  {
  }

  lemma {:induction false} DistinctIds(queue: seq<Task>)
    requires forall i, j :: 0 <= i < j < |queue| ==> queue[i].id != queue[j].id
    ensures |IdsOf(queue)| == |queue|
  {
    if queue != [] {
      var last := |queue| - 1;
      DistinctIds(queue[..last]);
      assert IdsOf(queue) == IdsOf(queue[..last]) + {queue[last].id} by { IdsOfSplit(queue, last); }
      assert queue[last].id !in IdsOf(queue[..last]);
    }
  }

  lemma IdsOfSplit(queue: seq<Task>, last: nat)
    requires |queue| == last + 1
    ensures IdsOf(queue) == IdsOf(queue[..last]) + {queue[last].id}
    ensures TicketsOf(queue) == TicketsOf(queue[..last]) + {queue[last].ticket}
  {
    forall i | 0 <= i < last
      ensures queue[i] == queue[..last][i]
    {
    }
    forall id | id in IdsOf(queue[..last])
      ensures id in IdsOf(queue)
    {
      var i :| 0 <= i < last && queue[..last][i].id == id;
      assert queue[i].id == id;
    }
    forall t | t in TicketsOf(queue[..last])
      ensures t in TicketsOf(queue)
    {
      var i :| 0 <= i < last && queue[..last][i].ticket == t;
      assert queue[i].ticket == t;
    }
  }

  lemma CloseTickets(queue: seq<Task>, tasks: map<CommandId, Task>, running: set<CommandId>)
    requires LineInv(queue, tasks, running)
    ensures AreTickets(tasks, IdsOf(queue), TicketsOf(queue)) && IdsOf(queue) <= tasks.Keys && IdsOf(queue) !! running
  {
    forall id | id in IdsOf(queue)
      ensures id in tasks && tasks[id].ticket in TicketsOf(queue) && id !in running
    {
      var i :| 0 <= i < |queue| && queue[i].id == id;
      assert Holds(tasks, queue[i]);
    }
    forall t | t in TicketsOf(queue)
      ensures exists id :: id in IdsOf(queue) && id in tasks && tasks[id].ticket == t
    {
      var i :| 0 <= i < |queue| && queue[i].ticket == t;
      assert Holds(tasks, queue[i]);
    }
  }

  lemma ClosePlaces(queue: seq<Task>, tasks: map<CommandId, Task>, running: set<CommandId>)
    requires PlaceInv(queue, tasks, running) && IdsOf(queue) !! running
    ensures PlaceInv([], tasks - IdsOf(queue), running)
  {
    var after := tasks - IdsOf(queue);
    forall id | id in after
      ensures Placed(id, [], after, running)
    {
      assert Placed(id, queue, tasks, running);
    }
  }

  lemma CloseInv(q: Queue)
    requires QueueInv(q)
    ensures QueueInv(Close(q))
  {
    hide LineInv, PlaceInv, TicketInv, AreTickets, IdsOf, TicketsOf;
    CloseTickets(q.queue, q.tasks, q.running);
    ClosePlaces(q.queue, q.tasks, q.running);
    TicketMove(q.next, q.tasks, q.settling, q.resolved, IdsOf(q.queue), TicketsOf(q.queue));
    TasksLess(q.tasks, IdsOf(q.queue));
    CloseLine(q.queue, q.tasks, q.running);
  }

  lemma CloseLine(queue: seq<Task>, tasks: map<CommandId, Task>, running: set<CommandId>)
    requires LineInv(queue, tasks, running)
    ensures |IdsOf(queue)| == |queue| && LineInv([], tasks - IdsOf(queue), running)
  {
    DistinctIds(queue);
  }

  lemma SettleInv(q: Queue, ticket: Ticket)
    requires QueueInv(q)
    ensures QueueInv(Settle(q, ticket))
  {
    hide LineInv, PlaceInv, Outstanding;
  }

  lemma ReturnInv(q: Queue)
    requires QueueInv(q)
    ensures QueueInv(Return(q))
  {
    hide LineInv, PlaceInv, TicketInv;
  }

  lemma RunningIsTask(q: Queue)
    requires QueueInv(q)
    ensures q.running <= q.tasks.Keys
  {
  }
}
