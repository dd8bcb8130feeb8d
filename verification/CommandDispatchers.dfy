/** The dispatcher's operations as its methods perform them when no other thread comes between
    their sections; each is a short run of the state machine. */
module CommandDispatchers {
  import opened Basics
  import opened Commands
  import opened QueueModel
  import opened DispatcherModel
  import opened DispatcherInvariant
  import opened DispatcherTheorems

  class Dispatcher {
    /** The dispatcher's data members, with the positions of its callers and its worker. */
    var s: State

    constructor (capacity: nat)
      requires capacity > 0
      ensures Inv(s) && s == Initial(capacity)
    {
      s := Initial(capacity);
      new;
      InitialInv(capacity);
    }

    /** The registration at the start of a synchronous execution. */
    method Register(caller: nat, id: CommandId) returns (registered: bool)
      requires Inv(s) && s.holder.Free? && !At(s, Caller(caller))
      modifies this
      ensures Inv(s) && s.holder.Free?
      ensures s == Run(old(s),
        if registered then [ExecuteLock(caller, id), ExecuteCheck, ExecuteInsert] else if Refused(old(s),
        id) then [] else [ExecuteLock(caller, id), ExecuteCheck])
      ensures registered <==>
        old(s.phase) == Open && id !in old(s.synchronous) && id !in old(s.q.tasks)
      ensures !registered ==> s == old(s)
      ensures registered ==> id in s.synchronous && s.dispatches == old(s).dispatches[Caller(caller) := Entered(id)]
    {
      hide Inv, Run;
      ghost var before := s;
      RunNone(before);
      if !s.phase.Open? || id in s.synchronous {
        return false;
      }
      RunSnoc(before, [], ExecuteLock(caller, id));
      RunSnoc(before, [ExecuteLock(caller, id)], ExecuteCheck);
      RunSnoc(before, [ExecuteLock(caller, id), ExecuteCheck], ExecuteInsert);
      assert [] + [ExecuteLock(caller, id)] == [ExecuteLock(caller, id)];
      assert [ExecuteLock(caller, id)] + [ExecuteCheck] == [ExecuteLock(caller, id), ExecuteCheck];
      assert [ExecuteLock(caller, id), ExecuteCheck] + [ExecuteInsert] ==
        [ExecuteLock(caller, id), ExecuteCheck, ExecuteInsert];
      RunInv(before, [ExecuteLock(caller, id), ExecuteCheck]);
      RunInv(before, [ExecuteLock(caller, id), ExecuteCheck, ExecuteInsert]);
      s := s.(holder := Checking(caller, id));
      registered := id !in s.q.tasks;
      if registered {
        s := s.(holder := Inserting(caller, id));
        s := s.(synchronous := s.synchronous + {id}, dispatches := s.dispatches[Caller(caller) := Entered(id)]);
      }
      s := s.(holder := Free);
    }

    /** The end of a synchronous execution. */
    method ReleaseSynchronous(caller: nat)
      requires Inv(s) && s.holder.Free? && At(s, Caller(caller)) && s.dispatches[Caller(caller)].Left?
      modifies this
      ensures Inv(s) && s == ExecuteReturnStep(old(s), caller) && old(s).dispatches[Caller(caller)].id !in s.synchronous
    {
      hide Inv;
      ExecuteReturnInv(s, caller);
      var id := s.dispatches[Caller(caller)].id;
      s := s.(synchronous := s.synchronous - {id});
      s := s.(dispatches := s.dispatches - {Caller(caller)});
    }

    /** Validation, the adapter call and its return, under the adapter lock. */
    method CallAdapter(actor: Actor)
      requires Inv(s) && At(s, actor) && s.dispatches[actor].Locked? && !ShuttingDown(s, actor)
      modifies this
      ensures Inv(s) && s.log == old(s).log + Conversation(actor, old(s).dispatches[actor].id, true)
      ensures s == old(s).(dispatches := old(s).dispatches[actor := Left(old(s).dispatches[actor].id)],
        adapter := None, log := s.log)
    {
      hide Inv;
      var id := s.dispatches[actor].id;
      Approve(actor);
      DispatchInv(s, actor, Call(actor));
      s := Move(s, actor, Calling(id)).(log := s.log + [Called(actor, id)]);
      DispatchInv(s, actor, Return(actor));
      s := Leave(s, actor, id).(log := s.log + [Returned(actor, id)]);
    }

    method Approve(actor: Actor)
      requires Inv(s) && At(s, actor) && s.dispatches[actor].Locked?
      modifies this
      ensures Inv(s)
      ensures s == old(s).(dispatches := old(s).dispatches[actor := Approved(old(s).dispatches[actor].id)],
                           log := old(s).log + [Accepted(actor, old(s).dispatches[actor].id)])
    {
      hide Inv;
      DispatchInv(s, actor, Validate(actor, true));
      var id := s.dispatches[actor].id;
      s := Move(s, actor, Approved(id)).(log := s.log + [Accepted(actor, id)]);
    }

    method Deny(actor: Actor)
      requires Inv(s) && At(s, actor) && s.dispatches[actor].Locked?
      modifies this
      ensures Inv(s) && s.log == old(s).log + Conversation(actor, old(s).dispatches[actor].id, false)
      ensures s == old(s).(dispatches := old(s).dispatches[actor := Left(old(s).dispatches[actor].id)],
        adapter := None, log := s.log)
    {
      hide Inv;
      var id := s.dispatches[actor].id;
      DispatchInv(s, actor, Validate(actor, false));
      s := Leave(s, actor, id).(log := s.log + [Denied(actor, id)]);
    }

    method GiveUp(actor: Actor)
      requires Inv(s) && At(s, actor)
      requires (s.dispatches[actor].Locked? || (s.dispatches[actor].Entered? && s.adapter.None?))
      modifies this
      ensures Inv(s)
      ensures s == old(s).(dispatches := old(s).dispatches[actor := Left(old(s).dispatches[actor].id)], adapter := None)
    {
      hide Inv;
      DispatchInv(s, actor, if s.dispatches[actor].Locked? then Expire(actor) else Skip(actor));
      s := Leave(s, actor, s.dispatches[actor].id);
    }

    method LockAdapter(actor: Actor)
      requires Inv(s) && At(s, actor) && s.dispatches[actor].Entered? && s.adapter.None?
      modifies this
      ensures Inv(s)
      ensures s == old(s).(dispatches := old(s).dispatches[actor := Locked(old(s).dispatches[actor].id)],
        adapter := Some(actor))
    {
      hide Inv;
      DispatchInv(s, actor, Lock(actor));
      s := Move(s, actor, Locked(s.dispatches[actor].id)).(adapter := Some(actor));
    }

    /** One dispatch from the adapter lock to its release. The clock, the safety validator and
        the adapter answer as the parameters say. */
    method Dispatch(
        actor: Actor, hasAdapter: bool, expiredBefore: bool, expiredLocked: bool, safety: Status, answer: Status,
        expiredAfter: bool)
      returns (result: Status)
      requires Inv(s) && At(s, actor) && s.dispatches[actor].Entered? && s.adapter.None? && !ShuttingDown(s, actor)
      modifies this
      ensures Inv(s)
      ensures s == old(s).(dispatches := old(s).dispatches[actor := Left(old(s).dispatches[actor].id)], log := s.log)
      ensures var reached := hasAdapter && !expiredBefore && !expiredLocked;
        var id := old(s).dispatches[actor].id;
        && s.log == old(s).log + (if reached then Conversation(actor, id, safety == Completed) else [])
        && result == if !hasAdapter then Rejected
                     else if !reached then Timeout
                     else if safety != Completed then safety
                     else if expiredAfter then Timeout
                     else answer
    {
      hide Inv, Conversation;
      if !hasAdapter || expiredBefore {
        GiveUp(actor);
        return if hasAdapter then Timeout else Rejected;
      }
      LockAdapter(actor);
      if expiredLocked {
        GiveUp(actor);
        return Timeout;
      }
      if safety != Completed {
        Deny(actor);
        return safety;
      }
      CallAdapter(actor);
      result := if expiredAfter then Timeout else answer;
    }
  }

  /** What a dispatch that reaches the safety validator leaves in the log. */
  function Conversation(actor: Actor, id: CommandId, accepts: bool): seq<Action> {
    if accepts then [Accepted(actor, id), Called(actor, id), Returned(actor, id)] else [Denied(actor, id)]
  }

  /** Refused before the queue is asked. */
  predicate Refused(s: State, id: CommandId) {
    !s.phase.Open? || id in s.synchronous
  }
}
