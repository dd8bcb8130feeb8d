/** What every step of the dispatcher keeps. */
module DispatcherInvariant {
  import opened Basics
  import opened Commands
  import opened QueueModel
  import opened DispatcherModel

  /** No id is in flight on both sides, and a caller that is about to register one still may. */
  ghost predicate IdInv(
      synchronous: set<CommandId>, tasks: set<CommandId>, holder: Holder, open: bool, callers: set<Actor>) {
    && synchronous !! tasks
    && (!holder.Free? ==> open && holder.id !in synchronous)
    && (holder.Inserting? ==> holder.id !in tasks)
    && (holder.Checking? || holder.Inserting? ==> Caller(holder.caller) !in callers)
  }

  /** Each caller under way has its own synchronous id. */
  ghost predicate CallerInv(synchronous: set<CommandId>, dispatches: map<Actor, Pc>) {
    && (forall a: Actor :: a in dispatches && a.Caller? ==> dispatches[a].id in synchronous)
    && (forall a: Actor, b: Actor ::
          a in dispatches && b in dispatches && a.Caller? && b.Caller? && dispatches[a].id == dispatches[b].id ==>
            a == b)
    && (forall id :: id in synchronous ==> exists a: Actor :: a in dispatches && a.Caller? && dispatches[a].id == id)
  }

  /** The queue's running task is the one its worker dispatches. */
  ghost predicate WorkerInv(q: Queue, dispatches: map<Actor, Pc>, exited: bool) {
    && q.running == (if Worker in dispatches then {dispatches[Worker].id} else {})
    && (exited ==> Worker !in dispatches && !q.accepting)
  }

  /** The adapter lock is held by exactly the actor that is past it. */
  ghost predicate AdapterInv(dispatches: map<Actor, Pc>, adapter: Option<Actor>) {
    && (forall a :: a in dispatches ==> (HoldsAdapter(dispatches[a]) <==> adapter == Some(a)))
    && (adapter.Some? ==> adapter.value in dispatches)
  }

  /** Every call follows an accepting validation of the same command at once, and every call is
      followed by its own return at once. */
  ghost predicate Orderly(log: seq<Action>) {
    && (forall k :: 0 <= k < |log| && log[k].Called? ==> k > 0 && log[k - 1] == Accepted(log[k].actor, log[k].id))
    && (forall k :: 0 <= k < |log| && log[k].Returned? ==> k > 0 && log[k - 1] == Called(log[k].actor, log[k].id))
    && (forall k :: 0 <= k < |log| - 1 && log[k].Called? ==> log[k + 1] == Returned(log[k].actor, log[k].id))
  }

  /** What the lock holder has done last. */
  ghost predicate LastInv(dispatches: map<Actor, Pc>, adapter: Option<Actor>, log: seq<Action>) {
    && (log != [] && log[|log| - 1].Called? ==>
         adapter == Some(log[|log| - 1].actor) && adapter.value in dispatches && dispatches[adapter.value].Calling?)
    && (adapter.Some? && adapter.value in dispatches ==>
         match dispatches[adapter.value]
         case Approved(id) => log != [] && log[|log| - 1] == Accepted(adapter.value, id)
         case Calling(id) => log != [] && log[|log| - 1] == Called(adapter.value, id)
         case _ => true)
  }

  ghost predicate PhaseInv(s: State) {
    && s.q.accepting == (s.phase.Open? || s.phase.Closing? || s.phase.origin == Inside(Worker))
    && (s.phase.Joining? ==> s.phase.origin != Inside(Worker))
    && ((s.phase.Waiting? || s.phase.Complete?) && s.phase.origin != Inside(Worker) ==> s.exited)
    && (s.phase.Complete? ==> s.synchronous == {} && !(s.phase.origin.Inside? && s.phase.origin.actor.Caller?))
    && (forall a :: ShuttingDown(s, a) ==> a in s.dispatches && s.dispatches[a].Calling?)
  }

  ghost predicate Inv(s: State) {
    && QueueInv(s.q)
    && IdInv(s.synchronous, s.q.tasks.Keys, s.holder, s.phase.Open?, s.dispatches.Keys)
    && CallerInv(s.synchronous, s.dispatches)
    && WorkerInv(s.q, s.dispatches, s.exited)
    && AdapterInv(s.dispatches, s.adapter)
    && Orderly(s.log)
    && LastInv(s.dispatches, s.adapter, s.log)
    && PhaseInv(s)
  }

  lemma InitialInv(capacity: nat)
    ensures Inv(Initial(capacity))
  {
    EmptyInv(capacity);
  }

  // ---------------------------------------------------------------- the lock on the ids

  lemma LockInv(s: State, e: Event)
    requires Inv(s) && (e.ExecuteLock? || e.ExecuteCheck? || e.ExecuteInsert? || e.AsyncLock?)
    ensures Inv(LockStep(s, e))
  {
    hide QueueInv, Orderly, LastInv, CallerInv;
    if e.ExecuteInsert? && s.holder.Inserting? {
      InsertCaller(s.synchronous, s.dispatches, Caller(s.holder.caller), s.holder.id);
      InsertLast(s.dispatches, s.adapter, s.log, Caller(s.holder.caller), Entered(s.holder.id));
    }
  }

  lemma InsertCaller(synchronous: set<CommandId>, dispatches: map<Actor, Pc>, a: Actor, id: CommandId)
    requires CallerInv(synchronous, dispatches) && a !in dispatches && a.Caller? && id !in synchronous
    ensures CallerInv(synchronous + {id}, dispatches[a := Entered(id)])
  {
    var after := dispatches[a := Entered(id)];
    forall other | other in synchronous + {id}
      ensures exists b: Actor :: b in after && b.Caller? && after[b].id == other
    {
      if other == id {
        assert after[a].id == id;
      } else {
        var b: Actor :| b in dispatches && b.Caller? && dispatches[b].id == other;
        assert after[b].id == other;
      }
    }
  }

  lemma InsertLast(dispatches: map<Actor, Pc>, adapter: Option<Actor>, log: seq<Action>, a: Actor, pc: Pc)
    requires LastInv(dispatches, adapter, log) && AdapterInv(dispatches, adapter) && a !in dispatches
    requires !HoldsAdapter(pc)
    ensures LastInv(dispatches[a := pc], adapter, log) && AdapterInv(dispatches[a := pc], adapter)
  {
  }

  lemma RemoveLast(dispatches: map<Actor, Pc>, adapter: Option<Actor>, log: seq<Action>, a: Actor)
    requires LastInv(dispatches, adapter, log) && AdapterInv(dispatches, adapter) && a in dispatches
    requires !HoldsAdapter(dispatches[a])
    ensures LastInv(dispatches - {a}, adapter, log) && AdapterInv(dispatches - {a}, adapter)
  {
  }

  // ---------------------------------------------------------------- the queue's steps

  /** A queue step that adds at most the id being enqueued keeps what the dispatcher relies on. */
  lemma QueueChange(s: State, q: Queue, holder: Holder)
    requires Inv(s) && QueueInv(q) && q.running == s.q.running && q.accepting == s.q.accepting
    requires holder == s.holder || holder.Free?
    requires q.tasks.Keys <= s.q.tasks.Keys ||
      (s.holder.Enqueuing? && holder.Free? && q.tasks.Keys <= s.q.tasks.Keys + {s.holder.id})
    ensures Inv(s.(q := q, holder := holder))
  {
    hide QueueInv, Orderly, LastInv, CallerInv, AdapterInv;
  }

  lemma EnqueueInv(s: State, verdict: Option<Status>)
    requires Inv(s)
    ensures Inv(EnqueueStep(s, verdict))
  {
    hide Inv, QueueInv, Record;
    if s.holder.Enqueuing? {
      HasQueue(s);
      RefuseInv(s.q, if verdict.Some? then verdict.value else Rejected);
      if CanEnqueue(s.q, s.holder.id) {
        AcceptInv(s.q, s.holder.id, s.holder.priority);
      }
      QueueChange(s, EnqueueStep(s, verdict).q, Free);
    }
  }

  lemma HasQueue(s: State)
    requires Inv(s)
    ensures QueueInv(s.q)
  {
  }

  lemma QueueOnlyInv(s: State, e: Event)
    requires Inv(s) && (e.CancelQueued? || e.SetPromise?)
    ensures Inv(Step(s, e))
  {
    hide Inv, QueueInv, RemoveFirst;
    HasQueue(s);
    if e.CancelQueued? {
      CancelInv(s.q, e.id);
      QueueChange(s, Cancel(s.q, e.id), s.holder);
    } else {
      SettleInv(s.q, e.ticket);
      QueueChange(s, Settle(s.q, e.ticket), s.holder);
    }
  }

  lemma TakeStepInv(s: State)
    requires Inv(s)
    ensures Inv(TakeStep(s))
  {
    hide QueueInv, Orderly, LastInv, CallerInv, AdapterInv, FirstMaximum;
    if !At(s, Worker) && !s.exited && s.q.queue != [] {
      var i := FirstMaximum(s.q.queue, 0, 1);
      TakeInv(s.q, i);
      WorkerEnters(s.synchronous, s.dispatches, Entered(s.q.queue[i].id));
      InsertLast(s.dispatches, s.adapter, s.log, Worker, Entered(s.q.queue[i].id));
    }
  }

  lemma WorkerEnters(synchronous: set<CommandId>, dispatches: map<Actor, Pc>, pc: Pc)
    requires CallerInv(synchronous, dispatches)
    ensures CallerInv(synchronous, dispatches[Worker := pc]) && CallerInv(synchronous, dispatches - {Worker})
  {
    var entered, gone := dispatches[Worker := pc], dispatches - {Worker};
    forall id | id in synchronous
      ensures exists a: Actor :: a in entered && a.Caller? && entered[a].id == id
      ensures exists a: Actor :: a in gone && a.Caller? && gone[a].id == id
    {
      var a: Actor :| a in dispatches && a.Caller? && dispatches[a].id == id;
      assert entered[a].id == id && gone[a].id == id;
    }
  }

  lemma ReportInv(s: State, status: Status)
    requires Inv(s)
    ensures Inv(ReportStep(s, status))
  {
    hide QueueInv, Orderly, LastInv, CallerInv, AdapterInv, Record;
    if At(s, Worker) && s.dispatches[Worker].Left? {
      FinishInv(s.q, s.dispatches[Worker].id, status);
      RunningIsTask(s.q);
      WorkerEnters(s.synchronous, s.dispatches, Entered(0));
      RemoveLast(s.dispatches, s.adapter, s.log, Worker);
    }
  }

  lemma ExitInv(s: State)
    requires Inv(s)
    ensures Inv(ExitStep(s))
  {
    hide QueueInv, Orderly, LastInv, CallerInv, AdapterInv, IdInv;
  }

  // ---------------------------------------------------------------- dispatching

  lemma {:induction false} MoveCaller(synchronous: set<CommandId>, dispatches: map<Actor, Pc>, a: Actor, pc: Pc)
    requires CallerInv(synchronous, dispatches) && a in dispatches && pc.id == dispatches[a].id
    ensures CallerInv(synchronous, dispatches[a := pc])
  {
    var after := dispatches[a := pc];
    forall id | id in synchronous
      ensures exists b: Actor :: b in after && b.Caller? && after[b].id == id
    {
      var b: Actor :| b in dispatches && b.Caller? && dispatches[b].id == id;
      assert after[b].id == id;
    }
  }

  lemma Appended(log: seq<Action>, action: Action)
    requires Orderly(log)
    requires action.Called? ==> log != [] && log[|log| - 1] == Accepted(action.actor, action.id)
    requires action.Returned? ==> log != [] && log[|log| - 1] == Called(action.actor, action.id)
    requires log != [] && log[|log| - 1].Called? ==> action == Returned(log[|log| - 1].actor, log[|log| - 1].id)
    ensures Orderly(log + [action])
  {
  }

  lemma DispatchInv(s: State, actor: Actor, e: Event)
    requires Inv(s) && At(s, actor)
    ensures Inv(DispatchStep(s, actor, e))
  {
    hide QueueInv, Orderly, LastInv, CallerInv, AdapterInv;
    var t := DispatchStep(s, actor, e);
    DispatchSameId(s, actor, e);
    MoveCaller(s.synchronous, s.dispatches, actor, t.dispatches[actor]);
    DispatchLog(s, actor, e);
    assert t.dispatches == s.dispatches[actor := t.dispatches[actor]];
    assert t.dispatches.Keys == s.dispatches.Keys;
    assert forall a :: ShuttingDown(t, a) ==> a in t.dispatches && t.dispatches[a].Calling?;
  }

  lemma DispatchSameId(s: State, actor: Actor, e: Event)
    requires At(s, actor)
    ensures var t := DispatchStep(s, actor, e);
      && actor in t.dispatches && t.dispatches[actor].id == s.dispatches[actor].id
      && t.dispatches == s.dispatches[actor := t.dispatches[actor]]
      && t == s.(dispatches := t.dispatches, adapter := t.adapter, log := t.log)
      && (s.dispatches[actor].Calling? && ShuttingDown(s, actor) ==> t.dispatches[actor].Calling?)
  {
    assert s.dispatches == s.dispatches[actor := s.dispatches[actor]];
  }

  lemma DispatchLog(s: State, actor: Actor, e: Event)
    requires Inv(s) && At(s, actor)
    ensures var t := DispatchStep(s, actor, e);
      AdapterInv(t.dispatches, t.adapter) && Orderly(t.log) && LastInv(t.dispatches, t.adapter, t.log)
  {
    hide Inv, DispatchStep, AdapterInv, Orderly, LastInv;
    DispatchAdapter(s, actor, e);
    DispatchOrderly(s, actor, e);
    DispatchLast(s, actor, e);
  }

  lemma DispatchAdapter(s: State, actor: Actor, e: Event)
    requires Inv(s) && At(s, actor)
    ensures var t := DispatchStep(s, actor, e); AdapterInv(t.dispatches, t.adapter)
  {
    hide QueueInv, IdInv, CallerInv, WorkerInv, PhaseInv, Orderly, LastInv;
  }

  lemma DispatchOrderly(s: State, actor: Actor, e: Event)
    requires Inv(s) && At(s, actor)
    ensures Orderly(DispatchStep(s, actor, e).log)
  {
    hide QueueInv, IdInv, CallerInv, WorkerInv, PhaseInv, Orderly;
    var t := DispatchStep(s, actor, e);
    if t.log != s.log {
      Appended(s.log, t.log[|t.log| - 1]);
    }
  }

  lemma DispatchLast(s: State, actor: Actor, e: Event)
    requires Inv(s) && At(s, actor)
    ensures var t := DispatchStep(s, actor, e); LastInv(t.dispatches, t.adapter, t.log)
  {
    hide QueueInv, IdInv, CallerInv, WorkerInv, PhaseInv, Orderly;
  }

  lemma ExecuteReturnInv(s: State, caller: nat)
    requires Inv(s)
    ensures Inv(ExecuteReturnStep(s, caller))
  {
    hide QueueInv, Orderly, LastInv, CallerInv, AdapterInv;
    if At(s, Caller(caller)) && s.dispatches[Caller(caller)].Left? && s.holder.Free? {
      ReturnCaller(s.synchronous, s.dispatches, Caller(caller));
      RemoveLast(s.dispatches, s.adapter, s.log, Caller(caller));
    }
  }

  lemma ReturnCaller(synchronous: set<CommandId>, dispatches: map<Actor, Pc>, a: Actor)
    requires CallerInv(synchronous, dispatches) && a in dispatches && a.Caller?
    ensures CallerInv(synchronous - {dispatches[a].id}, dispatches - {a})
  {
    var after := dispatches - {a};
    forall id | id in synchronous - {dispatches[a].id}
      ensures exists b: Actor :: b in after && b.Caller? && after[b].id == id
    {
      var b: Actor :| b in dispatches && b.Caller? && dispatches[b].id == id;
      assert after[b].id == id;
    }
  }

  // ---------------------------------------------------------------- shutdown

  lemma ShutdownInv(s: State, e: Event)
    requires Inv(s) && (e.ShutdownCall? || e.CloseQueue? || e.Join? || e.ShutdownEnd?)
    ensures Inv(ShutdownStep(s, e))
  {
    hide QueueInv, Orderly, LastInv, AdapterInv, IdsOf, TicketsOf, CallerInv;
    match e
    case ShutdownCall(_) =>
    case CloseQueue => CloseInv(s.q);
    case Join =>
    case ShutdownEnd =>
      if s.phase.Waiting? && s.synchronous == {} {
        NoCallers(s.synchronous, s.dispatches);
        assert s.phase.origin.Inside? ==> ShuttingDown(s, s.phase.origin.actor);
      }
  }

  lemma NoCallers(synchronous: set<CommandId>, dispatches: map<Actor, Pc>)
    requires CallerInv(synchronous, dispatches) && synchronous == {}
    ensures forall a :: a in dispatches ==> a == Worker
  {
  }

  lemma StepInv(s: State, e: Event)
    requires Inv(s)
    ensures Inv(Step(s, e))
  {
    hide Inv, LockStep, EnqueueStep, TakeStep, DispatchStep, ExecuteReturnStep, ReportStep, ExitStep, ShutdownStep;
    match e
    case ExecuteLock(_, _) => LockInv(s, e);
    case ExecuteCheck => LockInv(s, e);
    case ExecuteInsert => LockInv(s, e);
    case AsyncLock(_, _) => LockInv(s, e);
    case AsyncEnqueue(verdict) => EnqueueInv(s, verdict);
    case CancelQueued(_) => QueueOnlyInv(s, e);
    case SetPromise(_) => QueueOnlyInv(s, e);
    case WorkerTake => TakeStepInv(s);
    case ExecuteReturn(caller) => ExecuteReturnInv(s, caller);
    case WorkerReport(status) => ReportInv(s, status);
    case WorkerExit => ExitInv(s);
    case ShutdownCall(_) => ShutdownInv(s, e);
    case CloseQueue => ShutdownInv(s, e);
    case Join => ShutdownInv(s, e);
    case ShutdownEnd => ShutdownInv(s, e);
    case _ =>
      if At(s, e.actor) {
        DispatchInv(s, e.actor, e);
      }
  }

  lemma {:induction false} RunInv(s: State, events: seq<Event>)
    requires Inv(s)
    ensures Inv(Run(s, events))
  {
    hide Inv, Step;
    if events != [] {
      RunInv(s, events[..|events| - 1]);
      StepInv(Run(s, events[..|events| - 1]), events[|events| - 1]);
    }
  }
}
