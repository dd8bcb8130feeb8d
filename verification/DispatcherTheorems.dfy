/** What holds of the dispatcher over whole runs. */
module DispatcherTheorems {
  import opened Basics
  import opened Commands
  import opened QueueModel
  import opened DispatcherModel
  import opened DispatcherInvariant

  /** No id is both synchronously in flight and outstanding in the queue, and no two dispatches
      under way carry the same id. */
  lemma IdsInFlightOnce(capacity: nat, events: seq<Event>)
    ensures var s := Run(Initial(capacity), events);
      && s.synchronous !! s.q.tasks.Keys
      && forall a, b :: a in s.dispatches && b in s.dispatches && s.dispatches[a].id == s.dispatches[b].id ==> a == b
  {
    hide Run, QueueInv, AdapterInv, Orderly, LastInv, PhaseInv;
    InitialInv(capacity);
    RunInv(Initial(capacity), events);
    RunningIsTask(Run(Initial(capacity), events).q);
  }

  /** Adapter calls are serialized: each one directly follows an accepting validation of its own
      command and is directly followed by its own return, and at most one is under way. */
  lemma AdapterCallsAreOrderly(capacity: nat, events: seq<Event>)
    ensures var s := Run(Initial(capacity), events);
      && Orderly(s.log)
      && forall a, b ::
           a in s.dispatches && b in s.dispatches && s.dispatches[a].Calling? && s.dispatches[b].Calling? ==> a == b
  {
    hide Run, QueueInv, IdInv, CallerInv, WorkerInv, Orderly, LastInv, PhaseInv;
    InitialInv(capacity);
    RunInv(Initial(capacity), events);
  }

  // ---------------------------------------------------------------- after a shutdown

  predicate ShutDownBy(s: State, origin: Origin) {
    s.phase.Complete? && s.phase.origin == origin
  }

  /** Shut down by anybody but the queue's worker. */
  predicate ShutDown(s: State) {
    s.phase.Complete? && s.phase.origin != Inside(Worker)
  }

  lemma NobodyDispatches(s: State)
    requires Inv(s) && ShutDown(s)
    ensures s.dispatches == map[] && s.exited
  {
    hide QueueInv, AdapterInv, Orderly, LastInv, IdInv;
    NoCallers(s.synchronous, s.dispatches);
  }

  lemma StepStaysQuiet(s: State, e: Event)
    requires Inv(s) && ShutDown(s)
    ensures ShutDown(Step(s, e)) && Step(s, e).log == s.log
  {
    hide QueueInv, AdapterInv, Orderly, LastInv, CallerInv, RemoveFirst, FirstMaximum, IdsOf, TicketsOf, Record;
    NobodyDispatches(s);
  }

  /** After a shutdown that the queue's worker did not make, nothing is dispatched, and no
      continuation of the run ever starts an adapter call. */
  lemma {:induction false} QuietAfterShutdown(capacity: nat, events: seq<Event>, more: seq<Event>)
    requires ShutDown(Run(Initial(capacity), events))
    ensures var s, t := Run(Initial(capacity), events), Run(Initial(capacity), events + more);
      && s.dispatches == map[] && t.dispatches == map[] && t.log == s.log && ShutDown(t)
    decreases |more|
  {
    hide Inv, Step, ShutDown;
    InitialInv(capacity);
    RunInv(Initial(capacity), events);
    NobodyDispatches(Run(Initial(capacity), events));
    if more == [] {
      assert events + more == events;
    } else {
      var before := more[..|more| - 1];
      QuietAfterShutdown(capacity, events, before);
      var u := Run(Initial(capacity), events + before);
      assert (events + more)[..|events + more| - 1] == events + before;
      RunInv(Initial(capacity), events + before);
      StepStaysQuiet(u, more[|more| - 1]);
      StepInv(u, more[|more| - 1]);
      NobodyDispatches(Step(u, more[|more| - 1]));
    }
  }

  /** The condition is exact: when a shutdown completes, an adapter call is under way if and
      only if the shutdown was made by the queue's worker, from inside that call. */
  lemma ShutdownEndsQuietly(capacity: nat, events: seq<Event>)
    requires var s := Run(Initial(capacity), events); !s.phase.Complete? && Step(s, ShutdownEnd).phase.Complete?
    ensures var t := Step(Run(Initial(capacity), events), ShutdownEnd);
      (exists a :: a in t.dispatches && t.dispatches[a].Calling?) <==> t.phase.origin == Inside(Worker)
  {
    hide Run, QueueInv, AdapterInv, Orderly, LastInv, IdInv, CallerInv;
    var s := Run(Initial(capacity), events);
    InitialInv(capacity);
    RunInv(Initial(capacity), events);
    NoCallers(s.synchronous, s.dispatches);
    if s.phase.origin == Inside(Worker) {
      assert ShuttingDown(s, Worker);
      assert s.dispatches[Worker].Calling?;
    }
  }

  /** A shutdown made inside a caller's own adapter call never completes: it waits for that call. */
  lemma CallerCannotShutDown(capacity: nat, events: seq<Event>, n: nat)
    ensures !ShutDownBy(Run(Initial(capacity), events), Inside(Caller(n)))
  {
    hide Run, QueueInv, AdapterInv, Orderly, LastInv, IdInv, CallerInv, WorkerInv;
    InitialInv(capacity);
    RunInv(Initial(capacity), events);
  }

  /** The four steps that take an idle worker into an adapter call. */
  function ToAdapter(): seq<Event> {
    [WorkerTake, Lock(Worker), Validate(Worker, true), Call(Worker)]
  }

  lemma WorkerTakes(s: State)
    requires !At(s, Worker) && !s.exited && s.q.queue != []
    ensures var t, id := Step(s, WorkerTake), s.q.queue[FirstMaximum(s.q.queue, 0, 1)].id;
      t == s.(q := t.q, dispatches := s.dispatches[Worker := Entered(id)])
  {
    hide FirstMaximum;
  }

  lemma WorkerLocks(s: State, id: CommandId)
    requires At(s, Worker) && s.dispatches[Worker] == Entered(id) && s.adapter.None?
    ensures Step(s, Lock(Worker)) == s.(dispatches := s.dispatches[Worker := Locked(id)], adapter := Some(Worker))
  {
  }

  lemma WorkerCalls(s: State, id: CommandId)
    requires At(s, Worker) && s.dispatches[Worker] == Locked(id)
    ensures Step(Step(s, Validate(Worker, true)), Call(Worker)) ==
      s.(dispatches := s.dispatches[Worker := Calling(id)], log := s.log + [Accepted(Worker, id), Called(Worker, id)])
  {
    var t := Step(s, Validate(Worker, true));
    assert t == s.(dispatches := s.dispatches[Worker := Approved(id)], log := s.log + [Accepted(Worker, id)]);
    assert t.dispatches[Worker := Calling(id)] == s.dispatches[Worker := Calling(id)];
    assert s.log + [Accepted(Worker, id)] + [Called(Worker, id)] == s.log + [Accepted(Worker, id), Called(Worker, id)];
  }

  lemma WorkerReachesAdapter(s: State)
    requires !At(s, Worker) && !s.exited && s.q.queue != [] && s.adapter.None?
    ensures var t, id := Run(s, ToAdapter()), s.q.queue[FirstMaximum(s.q.queue, 0, 1)].id;
      && At(t, Worker) && t.dispatches[Worker] == Calling(id)
      && t.log == s.log + [Accepted(Worker, id), Called(Worker, id)]
      && t.phase == s.phase && t.holder == s.holder && t.synchronous == s.synchronous
  {
    hide Step, Run, FirstMaximum;
    var id := s.q.queue[FirstMaximum(s.q.queue, 0, 1)].id;
    RunFour(s, WorkerTake, Lock(Worker), Validate(Worker, true), Call(Worker));
    WorkerTakes(s);
    WorkerLocks(Step(s, WorkerTake), id);
    WorkerCalls(Step(Step(s, WorkerTake), Lock(Worker)), id);
  }

  /** After a shutdown made by the worker the queue still runs: whenever the worker is idle, a
      queued command reaches the adapter, although every later shutdown reports completion. */
  lemma WorkerShutdownLeavesQueueRunning(s: State)
    requires Inv(s) && ShutDownBy(s, Inside(Worker)) && !At(s, Worker) && s.q.queue != [] && s.adapter.None?
    ensures exists id ::
      id in s.q.tasks && Run(s, ToAdapter()).log == s.log + [Accepted(Worker, id), Called(Worker, id)]
  {
    hide QueueInv, AdapterInv, Orderly, LastInv, IdInv, CallerInv, FirstMaximum, Run;
    QueuedTask(s.q, FirstMaximum(s.q.queue, 0, 1));
    WorkerReachesAdapter(s);
  }

  lemma RunFour(s: State, a: Event, b: Event, c: Event, d: Event)
    ensures Run(s, [a, b, c, d]) == Step(Step(Step(Step(s, a), b), c), d)
  {
    hide Step, Run;
    RunNone(s);
    RunSnoc(s, [], a);
    RunSnoc(s, [a], b);
    RunSnoc(s, [a, b], c);
    RunSnoc(s, [a, b, c], d);
    assert [] + [a] == [a] && [a] + [b] == [a, b] && [a, b] + [c] == [a, b, c] && [a, b, c] + [d] == [a, b, c, d];
  }

  lemma RunNone(s: State)
    ensures Run(s, []) == s
  {
  }

  lemma RunSnoc(s: State, events: seq<Event>, e: Event)
    ensures Run(s, events + [e]) == Step(Run(s, events), e)
  {
    hide Step;
    assert (events + [e])[..|events + [e]| - 1] == events;
  }

  lemma {:induction false} RunConcat(s: State, a: seq<Event>, b: seq<Event>)
    ensures Run(s, a + b) == Run(Run(s, a), b)
  {
    hide Step;
    if b == [] {
      assert a + b == a;
    } else {
      assert (a + b)[..|a + b| - 1] == a + b[..|b| - 1];
      RunConcat(s, a, b[..|b| - 1]);
    }
  }

  lemma OneQueued()
    ensures var s := Run(Initial(1), [AsyncLock(7, 0), AsyncEnqueue(None)]);
      s == Initial(1).(q := s.q) && s.q.queue == [Task(0, 7, 0)]
  {
    hide Run;
    RunNone(Initial(1));
    RunSnoc(Initial(1), [], AsyncLock(7, 0));
    RunSnoc(Initial(1), [AsyncLock(7, 0)], AsyncEnqueue(None));
    assert [] + [AsyncLock(7, 0)] == [AsyncLock(7, 0)];
    assert [AsyncLock(7, 0)] + [AsyncEnqueue(None)] == [AsyncLock(7, 0), AsyncEnqueue(None)];
    var s := Step(Initial(1), AsyncLock(7, 0));
    assert s == Initial(1).(holder := Enqueuing(7, 0));
  }

  lemma WorkerShutsDown(s: State)
    requires At(s, Worker) && s.dispatches[Worker].Calling? && s.phase.Open? && s.holder.Free? && s.synchronous == {}
    ensures var t := Step(Step(Step(s, ShutdownCall(Inside(Worker))), CloseQueue), ShutdownEnd);
      ShutDownBy(t, Inside(Worker)) && t.dispatches == s.dispatches
  {
  }

  /** Such a shutdown happens: the worker's adapter call shuts the dispatcher down and is still
      under way when the shutdown is complete. */
  lemma WorkerShutdownHappens()
    ensures exists events :: var s := Run(Initial(1), events);
      ShutDownBy(s, Inside(Worker)) && At(s, Worker) && s.dispatches[Worker].Calling?
  {
    hide Step, Run, ToAdapter, FirstMaximum, ShutDownBy;
    var start := [AsyncLock(7, 0), AsyncEnqueue(None)] + ToAdapter();
    OneQueued();
    RunConcat(Initial(1), [AsyncLock(7, 0), AsyncEnqueue(None)], ToAdapter());
    WorkerReachesAdapter(Run(Initial(1), [AsyncLock(7, 0), AsyncEnqueue(None)]));
    var s := Run(Initial(1), start);
    RunSnoc(Initial(1), start, ShutdownCall(Inside(Worker)));
    RunSnoc(Initial(1), start + [ShutdownCall(Inside(Worker))], CloseQueue);
    RunSnoc(Initial(1), start + [ShutdownCall(Inside(Worker))] + [CloseQueue], ShutdownEnd);
    WorkerShutsDown(s);
  }
}
