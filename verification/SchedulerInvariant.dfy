/** What every step of the scheduler keeps. The invariant is stated on the parts of the
    state, so that a step has to say something only about the parts it changes. */
module SchedulerInvariant {
  import opened Basics
  import opened SchedulerModel

  ghost predicate Increasing(q: seq<Ticket>) {
    forall i, j :: 0 <= i < j < |q| ==> q[i] < q[j]
  }

  /** `records` is the disjoint union of the outstanding jobs and a duplicate-free, bounded
      history of terminal ones. */
  ghost predicate RecordsOk(
      options: Options, outstanding: map<JobId, Ticket>, records: map<JobId, Snapshot>, completed: seq<JobId>) {
    && NoDuplicates(completed)
    && (forall id :: id in records <==> id in outstanding || id in completed)
    && (forall id :: id in completed ==> id !in outstanding && Terminal(records[id].state))
    && (options.maximumHistory > 0 ==> |completed| <= options.maximumHistory)
  }

  /** The outstanding jobs are the queued and the running ones, each under its own id. */
  ghost predicate OutstandingOk(
      jobs: map<Ticket, Job>, next: Ticket, outstanding: map<JobId, Ticket>, holders: map<Ticket, Holder>) {
    && (forall t :: t in jobs <==> 1 <= t < next)
    && (forall t :: t in holders <==> 1 <= t < next)
    && (forall id :: id in outstanding ==> outstanding[id] in jobs && jobs[outstanding[id]].id == id)
    && (forall id :: id in outstanding ==> holders[outstanding[id]].Queue? || holders[outstanding[id]].Running?)
    && (forall t :: t in holders && (holders[t].Queue? || holders[t].Running?) ==>
          jobs[t].id in outstanding && outstanding[jobs[t].id] == t)
  }

  ghost predicate TicketsOk(next: Ticket, records: map<JobId, Snapshot>) {
    forall id :: id in records ==> records[id].ticket < next
  }

  /** An outstanding record belongs to its job, and is not terminal while the job is queued. */
  ghost predicate LiveOk(outstanding: map<JobId, Ticket>, records: map<JobId, Snapshot>, holders: map<Ticket, Holder>) {
    forall id :: id in outstanding && id in records && outstanding[id] in holders ==>
      && records[id].ticket == outstanding[id]
      && (holders[outstanding[id]].Queue? ==> !Terminal(records[id].state))
  }

  ghost predicate StartedOk(holders: map<Ticket, Holder>, started: set<Ticket>) {
    && (forall t :: t in holders && holders[t].Queue? ==> t !in started)
    && (forall t :: t in holders && holders[t].Running? ==> t in started)
    && (forall t :: t in started ==> t in holders)
  }

  /** A promise has been set once exactly when nobody holds the job any more. */
  ghost predicate PromisesOk(holders: map<Ticket, Holder>, resolved: multiset<Ticket>) {
    forall t :: resolved[t] == if t in holders && holders[t].Nobody? then 1 else 0
  }

  ghost predicate QueueHolds(holders: map<Ticket, Holder>, queue: seq<Ticket>) {
    forall t :: t in queue <==> t in holders && holders[t].Queue?
  }

  ghost predicate ActiveHolds(holders: map<Ticket, Holder>, active: map<Worker, Task>) {
    && (forall w :: w in active ==> active[w].ticket in holders && holders[active[w].ticket] == Holder.Running(w))
    && (forall t :: t in holders && holders[t].Running? ==>
      holders[t].worker in active && active[holders[t].worker].ticket == t)
  }

  ghost predicate SettlingHolds(holders: map<Ticket, Holder>, settling: map<Worker, Ticket>) {
    && (forall w :: w in settling ==> settling[w] in holders && holders[settling[w]] == Holder.Settling(w))
    && (forall t :: t in holders && holders[t].Settling? ==>
      holders[t].worker in settling && settling[holders[t].worker] == t)
  }

  ghost predicate StopsHold(holders: map<Ticket, Holder>, stops: map<Caller, StopCall>) {
    && (forall c :: c in stops && stops[c].wasQueued ==>
      stops[c].ticket in holders && holders[stops[c].ticket] == Stopping(c))
    && (forall t :: t in holders && holders[t].Stopping? ==>
      holders[t].caller in stops && stops[holders[t].caller] == StopCall(t, true))
  }

  ghost predicate ShutdownHolds(holders: map<Ticket, Holder>, shutdown: ShutdownPhase) {
    && (shutdown.Resolving? ==> NoDuplicates(shutdown.queued))
    && (forall t :: t in holders && holders[t].Draining? <==> shutdown.Resolving? && t in shutdown.queued)
  }

  ghost predicate QueueOk(options: Options, queue: seq<Ticket>, accepting: bool, shutdown: ShutdownPhase) {
    && Increasing(queue)
    && |queue| <= options.maximumQueueSize
    && (!shutdown.NotStarted? ==> !accepting)
  }

  ghost predicate WorkersOk(
      options: Options, active: map<Worker, Task>, settling: map<Worker, Ticket>, exited: set<Worker>,
      shutdown: ShutdownPhase) {
    && (forall w :: w in active ==> w < options.workerCount && w !in exited && w !in settling)
    && (forall w :: w in settling ==> w < options.workerCount && w !in exited)
    && (shutdown.Complete? ==> forall w :: 0 <= w < options.workerCount ==> w in exited)
  }

  /** A sequential job runs alone, and a finished callback has a terminal verdict. */
  ghost predicate RunningOk(
      jobs: map<Ticket, Job>, active: map<Worker, Task>, sequentialRunning: bool, runningCount: nat) {
    && runningCount == |active|
    && (forall w :: w in active ==> active[w].ticket in jobs)
    && (sequentialRunning ==> runningCount == 1)
    && (forall w :: w in active ==> jobs[active[w].ticket].mode.Sequential? == sequentialRunning)
    && (forall w :: w in active && active[w].verdict.Decided? ==> Terminal(active[w].verdict.state))
  }

  /** Conservation: nothing accepted is lost or counted twice. */
  ghost predicate CountsOk(options: Options, statistics: Statistics, next: Ticket, queued: nat, running: nat) {
    && statistics.accepted + 1 == next
    && statistics.accepted == statistics.completed + statistics.failed + statistics.cancelled + queued + running
    && running <= statistics.maximumConcurrentRunning <= options.workerCount
    && queued <= statistics.highWatermark <= options.maximumQueueSize
  }

  ghost predicate HoldersOk(s: State) {
    && QueueHolds(s.holders, s.queue) && ActiveHolds(s.holders, s.active) && SettlingHolds(s.holders, s.settling)
    && StopsHold(s.holders, s.stops) && ShutdownHolds(s.holders, s.shutdown)
    && StartedOk(s.holders, s.started) && PromisesOk(s.holders, s.resolved)
  }

  ghost predicate TablesOk(s: State) {
    && !s.missed
    && RecordsOk(s.options, s.outstanding, s.records, s.completedOrder)
    && TicketsOk(s.nextTicket, s.records)
    && LiveOk(s.outstanding, s.records, s.holders)
    && OutstandingOk(s.jobs, s.nextTicket, s.outstanding, s.holders)
  }

  ghost predicate CountersOk(s: State) {
    && QueueOk(s.options, s.queue, s.accepting, s.shutdown)
    && WorkersOk(s.options, s.active, s.settling, s.exited, s.shutdown)
    && RunningOk(s.jobs, s.active, s.sequentialRunning, s.runningCount)
    && CountsOk(s.options, s.statistics, s.nextTicket, |s.queue|, s.runningCount)
  }

  /** What also holds in the middle of the shutdown's critical section. */
  ghost predicate Core(s: State) {
    s.options.Valid() && TablesOk(s) && HoldersOk(s) && CountersOk(s)
  }

  ghost predicate Inv(s: State) {
    Core(s) && (!s.shutdown.NotStarted? ==> s.queue == [])
  }

  lemma InitialInv(options: Options)
    requires options.Valid()
    ensures Inv(Initial(options))
  {
  }

  // ---------------------------------------------------------------- one part at a time

  lemma RecordsInsert(options: Options, outstanding: map<JobId, Ticket>, records: map<JobId, Snapshot>,
      completed: seq<JobId>,
      id: JobId, t: Ticket, snapshot: Snapshot)
    requires RecordsOk(options, outstanding, records, completed) && id !in records
    ensures RecordsOk(options, outstanding[id := t], records[id := snapshot], completed)
  {
  }

  lemma RecordsUpdate(options: Options, outstanding: map<JobId, Ticket>, records: map<JobId, Snapshot>,
      completed: seq<JobId>,
      id: JobId, state: ExecutionState)
    requires RecordsOk(options, outstanding, records, completed) && id in outstanding && id in records
    ensures RecordsOk(options, outstanding, records[id := records[id].(state := state)], completed)
  {
  }

  /** Completing an outstanding job moves its record to the history; the oldest entries over
      the limit leave, and only those. */
  lemma RecordsComplete(options: Options, outstanding: map<JobId, Ticket>, records: map<JobId, Snapshot>,
      completed: seq<JobId>,
      id: JobId, state: ExecutionState)
    requires RecordsOk(options, outstanding, records, completed) && id in outstanding && Terminal(state)
    ensures
      var left := outstanding - {id};
      var longer := completed + [id];
      var kept := KeptRecords(options, longer, left, records[id := records[id].(state := state)]);
      && RecordsOk(options, left, kept, KeptOrder(options, longer))
      && (forall x :: x in left ==> x in records && x in kept && kept[x] == records[x])
      && (forall x :: x in kept ==> x in records && kept[x].ticket == records[x].ticket)
  {
    var longer := completed + [id];
    var k := Excess(options, longer);
    assert forall x :: x in longer <==> x in completed || x == id;
    NoDuplicatesSplit(longer, k);
    var left := outstanding - {id};
    var marked := records[id := records[id].(state := state)];
    var kept := KeptRecords(options, longer, left, marked);
    assert forall x :: x in kept <==> x in marked && !(x in longer[..k] && x !in left);
  }

  lemma NoDuplicatesSplit<T>(q: seq<T>, k: nat)
    requires NoDuplicates(q) && k <= |q|
    ensures NoDuplicates(q[k..])
    ensures forall x :: x in q[k..] ==> x !in q[..k]
    ensures forall x :: x in q <==> x in q[..k] || x in q[k..]
  {
    assert q == q[..k] + q[k..];
  }

  lemma OutstandingInsert(
      jobs: map<Ticket, Job>, next: Ticket, outstanding: map<JobId, Ticket>, holders: map<Ticket, Holder>, job: Job)
    requires OutstandingOk(jobs, next, outstanding, holders) && next >= 1 && job.id !in outstanding
    ensures OutstandingOk(jobs[next := job], next + 1, outstanding[job.id := next], holders[next := Queue])
  {
  }

  /** A job that is no longer queued or running is no longer outstanding. */
  lemma OutstandingRemove(jobs: map<Ticket, Job>, next: Ticket, outstanding: map<JobId, Ticket>, holders: map<Ticket,
      Holder>,
                          t: Ticket, holder: Holder)
    requires OutstandingOk(jobs, next, outstanding, holders)
    requires t in holders && (holders[t].Queue? || holders[t].Running?)
    requires !holder.Queue? && !holder.Running?
    ensures OutstandingOk(jobs, next, outstanding - {jobs[t].id}, holders[t := holder])
  {
  }

  lemma OutstandingKeep(jobs: map<Ticket, Job>, next: Ticket, outstanding: map<JobId, Ticket>, holders: map<Ticket,
      Holder>,
                        t: Ticket, holder: Holder)
    requires OutstandingOk(jobs, next, outstanding, holders) && t in holders
    requires (holders[t].Queue? || holders[t].Running?) == (holder.Queue? || holder.Running?)
    ensures OutstandingOk(jobs, next, outstanding, holders[t := holder])
  {
  }

  lemma LiveUpdate(outstanding: map<JobId, Ticket>, records: map<JobId, Snapshot>, holders: map<Ticket, Holder>,
      id: JobId, state: ExecutionState)
    requires LiveOk(outstanding, records, holders) && id in records && id in outstanding
    requires outstanding[id] in holders && holders[outstanding[id]].Queue? ==> !Terminal(state)
    ensures LiveOk(outstanding, records[id := records[id].(state := state)], holders)
  {
  }

  lemma LiveInsert(outstanding: map<JobId, Ticket>, records: map<JobId, Snapshot>, holders: map<Ticket, Holder>,
      id: JobId, t: Ticket, snapshot: Snapshot)
    requires LiveOk(outstanding, records, holders) && snapshot.ticket == t && !Terminal(snapshot.state) && t !in holders
    requires forall x :: x in outstanding ==> outstanding[x] in holders
    ensures LiveOk(outstanding[id := t], records[id := snapshot], holders[t := Queue])
  {
  }

  /** Dropping an outstanding id, changing a holder and forgetting other records keeps the rest live. */
  lemma LiveRemove(outstanding: map<JobId, Ticket>, records: map<JobId, Snapshot>, holders: map<Ticket, Holder>,
      outstanding': map<JobId, Ticket>, records': map<JobId, Snapshot>, t: Ticket, holder: Holder)
    requires LiveOk(outstanding, records, holders) && t in holders && !holder.Queue?
    requires forall x :: x in outstanding' ==> x in outstanding && outstanding'[x] == outstanding[x]
    requires forall x :: x in outstanding' ==> x in records && x in records' && records'[x] == records[x]
    ensures LiveOk(outstanding', records', holders[t := holder])
  {
  }

  lemma RecordedIds(
      options: Options, outstanding: map<JobId, Ticket>, records: map<JobId, Snapshot>, completed: seq<JobId>,
      id: JobId)
    requires RecordsOk(options, outstanding, records, completed)
    ensures id in outstanding ==> id in records
  {
  }

  lemma HeldIsOutstanding(
      jobs: map<Ticket, Job>, next: Ticket, outstanding: map<JobId, Ticket>, holders: map<Ticket, Holder>, t: Ticket)
    requires OutstandingOk(jobs, next, outstanding, holders)
    requires t in holders && (holders[t].Queue? || holders[t].Running?)
    ensures t in jobs && jobs[t].id in outstanding && outstanding[jobs[t].id] == t
  {
  }

  lemma OutstandingIsHeld(
      jobs: map<Ticket, Job>, next: Ticket, outstanding: map<JobId, Ticket>, holders: map<Ticket, Holder>, id: JobId)
    requires OutstandingOk(jobs, next, outstanding, holders) && id in outstanding
    ensures outstanding[id] in jobs && outstanding[id] in holders && jobs[outstanding[id]].id == id
    ensures holders[outstanding[id]].Queue? || holders[outstanding[id]].Running?
  {
  }

  // ---------------------------------------------------------------- holders

  /** Handing a job over touches only the old and the new place. */
  lemma OtherPlaces(s: State, t: Ticket, holder: Holder)
    requires t in s.holders
    ensures QueueHolds(s.holders, s.queue) && !s.holders[t].Queue? && !holder.Queue? ==>
      QueueHolds(s.holders[t := holder], s.queue)
    ensures ActiveHolds(s.holders, s.active) && !s.holders[t].Running? && !holder.Running? ==>
      ActiveHolds(s.holders[t := holder], s.active)
    ensures SettlingHolds(s.holders, s.settling) && !s.holders[t].Settling? && !holder.Settling? ==>
      SettlingHolds(s.holders[t := holder], s.settling)
    ensures StopsHold(s.holders, s.stops) && !s.holders[t].Stopping? && !holder.Stopping? ==>
      StopsHold(s.holders[t := holder], s.stops)
    ensures ShutdownHolds(s.holders, s.shutdown) && !s.holders[t].Draining? && !holder.Draining? ==>
      ShutdownHolds(s.holders[t := holder], s.shutdown)
  {
  }

  /** A new job is queued; no other place knows it. */
  lemma NewPlaces(s: State, t: Ticket)
    requires HoldersOk(s) && t !in s.holders && t !in s.started
    ensures var holders := s.holders[t := Queue];
      && QueueHolds(holders, s.queue + [t]) && ActiveHolds(holders, s.active) && SettlingHolds(holders, s.settling)
      && StopsHold(holders, s.stops) && ShutdownHolds(holders, s.shutdown)
      && StartedOk(holders, s.started) && PromisesOk(holders, s.resolved)
  {
  }

  lemma {:induction false} RemoveIncreasing(q: seq<Ticket>, t: Ticket)
    requires Increasing(q) && t in q
    ensures Increasing(RemoveFirst(q, t)) && |RemoveFirst(q, t)| == |q| - 1
    ensures forall x :: x in RemoveFirst(q, t) <==> x in q && x != t
  {
    if q[0] != t {
      var rest := RemoveFirst(q[1..], t);
      RemoveIncreasing(q[1..], t);
      forall i | 0 <= i < |rest|
        ensures q[0] < rest[i]
      {
        assert rest[i] in q[1..];
      }
    }
  }

  lemma RemoveIndexed(q: seq<Ticket>, i: nat)
    requires Increasing(q) && i < |q|
    ensures q[..i] + q[i + 1..] == RemoveFirst(q, q[i])
  {
    RemoveFirstIs(q, q[i], i);
  }

  lemma QueueRemove(holders: map<Ticket, Holder>, queue: seq<Ticket>, t: Ticket, holder: Holder)
    requires QueueHolds(holders, queue) && Increasing(queue) && t in holders && holders[t].Queue? && !holder.Queue?
    ensures QueueHolds(holders[t := holder], RemoveFirst(queue, t))
    ensures Increasing(RemoveFirst(queue, t)) && |RemoveFirst(queue, t)| == |queue| - 1
  {
    RemoveIncreasing(queue, t);
  }

  lemma ActiveAdd(holders: map<Ticket, Holder>, active: map<Worker, Task>, w: Worker, t: Ticket, verdict: Verdict)
    requires ActiveHolds(holders, active) && w !in active && t in holders && !holders[t].Running?
    ensures ActiveHolds(holders[t := Holder.Running(w)], active[w := Task(t, verdict)])
  {
  }

  lemma ActiveDrop(holders: map<Ticket, Holder>, active: map<Worker, Task>, w: Worker, holder: Holder)
    requires ActiveHolds(holders, active) && w in active && !holder.Running?
    ensures active[w].ticket in holders && holders[active[w].ticket] == Holder.Running(w)
    ensures ActiveHolds(holders[active[w].ticket := holder], active - {w})
  {
  }

  lemma SettlingAdd(holders: map<Ticket, Holder>, settling: map<Worker, Ticket>, w: Worker, t: Ticket)
    requires SettlingHolds(holders, settling) && w !in settling && t in holders && !holders[t].Settling?
    ensures SettlingHolds(holders[t := Holder.Settling(w)], settling[w := t])
  {
  }

  lemma SettlingDrop(holders: map<Ticket, Holder>, settling: map<Worker, Ticket>, w: Worker)
    requires SettlingHolds(holders, settling) && w in settling
    ensures settling[w] in holders && holders[settling[w]] == Holder.Settling(w)
    ensures SettlingHolds(holders[settling[w] := Nobody], settling - {w})
  {
  }

  lemma StopsAdd(holders: map<Ticket, Holder>, stops: map<Caller, StopCall>, c: Caller, t: Ticket)
    requires StopsHold(holders, stops) && c !in stops && t in holders && !holders[t].Stopping?
    ensures StopsHold(holders[t := Stopping(c)], stops[c := StopCall(t, true)])
    ensures StopsHold(holders, stops[c := StopCall(t, false)])
  {
  }

  lemma StopsDrop(holders: map<Ticket, Holder>, stops: map<Caller, StopCall>, c: Caller)
    requires StopsHold(holders, stops) && c in stops
    ensures stops[c].wasQueued ==>
      && stops[c].ticket in holders && holders[stops[c].ticket] == Stopping(c)
      && StopsHold(holders[stops[c].ticket := Nobody], stops - {c})
    ensures !stops[c].wasQueued ==> StopsHold(holders, stops - {c})
  {
  }

  lemma ShutdownAdd(holders: map<Ticket, Holder>, shutdown: ShutdownPhase, t: Ticket)
    requires ShutdownHolds(holders, shutdown) && shutdown.Resolving? && t in holders && !holders[t].Draining?
    ensures ShutdownHolds(holders[t := Holder.Draining], shutdown.(queued := shutdown.queued + [t]))
  {
    assert t !in shutdown.queued;
  }

  lemma ShutdownDrop(holders: map<Ticket, Holder>, shutdown: ShutdownPhase)
    requires ShutdownHolds(holders, shutdown) && shutdown.Resolving? && shutdown.queued != []
    ensures var t := shutdown.queued[0];
      && t in holders && holders[t].Draining?
      && ShutdownHolds(holders[t := Nobody], shutdown.(queued := shutdown.queued[1..]))
  {
    var t := shutdown.queued[0];
    assert t in shutdown.queued;
    assert forall x :: x in shutdown.queued <==> x == t || x in shutdown.queued[1..];
  }

  lemma StartedSame(holders: map<Ticket, Holder>, started: set<Ticket>, t: Ticket, holder: Holder)
    requires StartedOk(holders, started) && t in holders && !holder.Queue? && !holder.Running?
    ensures StartedOk(holders[t := holder], started)
  {
  }

  lemma StartedNow(holders: map<Ticket, Holder>, started: set<Ticket>, t: Ticket, w: Worker)
    requires StartedOk(holders, started) && t in holders
    ensures StartedOk(holders[t := Holder.Running(w)], started + {t})
  {
  }

  lemma PromisesSame(holders: map<Ticket, Holder>, resolved: multiset<Ticket>, t: Ticket, holder: Holder)
    requires PromisesOk(holders, resolved) && t in holders && !holders[t].Nobody? && !holder.Nobody?
    ensures PromisesOk(holders[t := holder], resolved)
  {
  }

  lemma PromiseOnce(holders: map<Ticket, Holder>, resolved: multiset<Ticket>, t: Ticket)
    requires PromisesOk(holders, resolved) && t in holders && !holders[t].Nobody?
    ensures PromisesOk(holders[t := Nobody], resolved + multiset{t})
  {
  }

  // ---------------------------------------------------------------- counters

  lemma RunningNewJob(
      jobs: map<Ticket, Job>, active: map<Worker, Task>, sequentialRunning: bool, runningCount: nat, t: Ticket,
      job: Job)
    requires RunningOk(jobs, active, sequentialRunning, runningCount) && t !in jobs
    ensures RunningOk(jobs[t := job], active, sequentialRunning, runningCount)
  {
  }

  lemma RunningAdd(
      jobs: map<Ticket, Job>, active: map<Worker, Task>, sequentialRunning: bool, runningCount: nat, w: Worker,
      t: Ticket)
    requires RunningOk(jobs, active, sequentialRunning, runningCount) && w !in active && t in jobs
    requires !sequentialRunning && (jobs[t].mode.Sequential? ==> runningCount == 0)
    ensures RunningOk(jobs, active[w := Task(t, Pending)], jobs[t].mode.Sequential?, runningCount + 1)
  {
    if jobs[t].mode.Sequential? {
      assert active.Keys == {};
    }
  }

  lemma RunningDecide(
      jobs: map<Ticket, Job>, active: map<Worker, Task>, sequentialRunning: bool, runningCount: nat, w: Worker,
      state: ExecutionState)
    requires RunningOk(jobs, active, sequentialRunning, runningCount) && w in active && Terminal(state)
    ensures RunningOk(jobs, active[w := active[w].(verdict := Decided(state))], sequentialRunning, runningCount)
  {
    assert active[w := active[w].(verdict := Decided(state))].Keys == active.Keys;
  }

  lemma RunningDrop(
      jobs: map<Ticket, Job>, active: map<Worker, Task>, sequentialRunning: bool, runningCount: nat, w: Worker)
    requires RunningOk(jobs, active, sequentialRunning, runningCount) && w in active
    ensures active[w].ticket in jobs && runningCount > 0
    ensures active[w].verdict.Decided? ==> Terminal(active[w].verdict.state)
    ensures RunningOk(jobs, active - {w},
      if jobs[active[w].ticket].mode.Sequential? then false else sequentialRunning, runningCount - 1)
  {
    assert (active - {w}).Keys == active.Keys - {w};
    if sequentialRunning {
      assert (active - {w}).Keys == {};
    }
  }

  /** The workers that exist bound the number of running jobs. */
  lemma {:induction false} WorkersBelow(n: nat) returns (all: set<Worker>)
    ensures |all| == n
    ensures forall w: Worker :: w in all <==> w < n
  {
    if n == 0 {
      all := {};
    } else {
      var fewer := WorkersBelow(n - 1);
      all := fewer + {n - 1};
    }
  }

  lemma ActiveBound(
      options: Options, active: map<Worker, Task>, settling: map<Worker, Ticket>, exited: set<Worker>,
      shutdown: ShutdownPhase)
    requires WorkersOk(options, active, settling, exited, shutdown)
    ensures |active| <= options.workerCount
  {
    var all := WorkersBelow(options.workerCount);
    assert all == active.Keys + (all - active.Keys);
  }

  lemma QueueAppend(options: Options, queue: seq<Ticket>, accepting: bool, shutdown: ShutdownPhase, next: Ticket)
    requires QueueOk(options, queue, accepting, shutdown) && |queue| < options.maximumQueueSize
    requires forall t :: t in queue ==> t < next
    ensures QueueOk(options, queue + [next], accepting, shutdown)
  {
    forall i | 0 <= i < |queue|
      ensures queue[i] < next
    {
      assert queue[i] in queue;
    }
  }
}
