/** A shutdown of the dispatcher that is called from outside never deadlocks: whatever has happened
    before it, it can be completed. */
module DispatcherShutdown {
  import opened Basics
  import opened Commands
  import opened QueueModel
  import opened DispatcherModel
  import opened DispatcherInvariant
  import opened DispatcherTheorems

  // ---------------------------------------------------------------- the locks come free

  /** Whoever holds the lock on the synchronous ids lets it go. */
  lemma {:induction false} HolderLeaves(start: State, events: seq<Event>) returns (all: seq<Event>)
    requires Run(start, events).phase == Open
    ensures events <= all && Run(start, all).phase == Open && Run(start, all).holder == Free
    decreases match Run(start, events).holder
      case Free => 0
      case Checking(_, _) => 2
      case _ => 1
  {
    hide Run, Enqueue, Refuse;
    var s := Run(start, events);
    if s.holder == Free {
      all := events;
    } else {
      var e := if s.holder.Checking? then ExecuteCheck else if s.holder.Inserting? then ExecuteInsert
               else AsyncEnqueue(None);
      RunSnoc(start, events, e);
      all := HolderLeaves(start, events + [e]);
    }
  }

  // ---------------------------------------------------------------- dispatches end

  /** A shutdown from outside is under way. */
  ghost predicate Leaving(s: State, phase: Phase) {
    s.phase == phase && phase != Open && phase.origin == Outside && s.holder == Free
  }

  function StepsLeft(pc: Pc): nat {
    match pc
    case Entered(_) => 1
    case Locked(_) => 1
    case Approved(_) => 2
    case Calling(_) => 1
    case Left(_) => 0
  }

  /** The next step of a dispatch on its shortest way out. */
  function Onward(actor: Actor, pc: Pc): Event {
    match pc
    case Entered(_) => Skip(actor)
    case Locked(_) => Expire(actor)
    case Approved(_) => Call(actor)
    case _ => Return(actor)
  }

  lemma OnwardStep(s: State, actor: Actor, phase: Phase)
    requires At(s, actor) && Leaving(s, phase) && !s.dispatches[actor].Left?
    ensures
      var t := Step(s, Onward(actor, s.dispatches[actor]));
      && Leaving(t, phase) && t.dispatches.Keys == s.dispatches.Keys
      && StepsLeft(t.dispatches[actor]) < StepsLeft(s.dispatches[actor])
  {
    var t := Step(s, Onward(actor, s.dispatches[actor]));
    assert t.dispatches.Keys == s.dispatches.Keys + {actor};
  }

  lemma LastStep(s: State, actor: Actor, phase: Phase)
    requires At(s, actor) && Leaving(s, phase) && s.dispatches[actor].Left?
    ensures
      var t := Step(s, if actor == Worker then WorkerReport(Failed) else ExecuteReturn(actor.n));
      Leaving(t, phase) && t.dispatches.Keys == s.dispatches.Keys - {actor}
  {
    hide Finish;
  }

  lemma {:induction false} DispatchEnds(start: State, events: seq<Event>, actor: Actor, phase: Phase)
    returns (all: seq<Event>)
    requires At(Run(start, events), actor) && Leaving(Run(start, events), phase)
    ensures events <= all && Leaving(Run(start, all), phase)
    ensures Run(start, all).dispatches.Keys == Run(start, events).dispatches.Keys - {actor}
    decreases StepsLeft(Run(start, events).dispatches[actor])
  {
    hide Run, Step, Leaving;
    var s := Run(start, events);
    if s.dispatches[actor].Left? {
      var e := if actor == Worker then WorkerReport(Failed) else ExecuteReturn(actor.n);
      LastStep(s, actor, phase);
      RunSnoc(start, events, e);
      all := events + [e];
    } else {
      var e := Onward(actor, s.dispatches[actor]);
      OnwardStep(s, actor, phase);
      RunSnoc(start, events, e);
      all := DispatchEnds(start, events + [e], actor, phase);
    }
  }

  lemma {:induction false} AllEnd(start: State, events: seq<Event>, phase: Phase) returns (all: seq<Event>)
    requires Leaving(Run(start, events), phase)
    ensures events <= all && Leaving(Run(start, all), phase) && Run(start, all).dispatches == map[]
    decreases Run(start, events).dispatches.Keys
  {
    hide Run, Leaving;
    var s := Run(start, events);
    if actor :| actor in s.dispatches {
      var more := DispatchEnds(start, events, actor, phase);
      all := AllEnd(start, more, phase);
    } else {
      all := events;
      assert s.dispatches.Keys == {};
    }
  }

  // ---------------------------------------------------------------- the whole shutdown

  lemma ClosingSteps(s: State)
    requires s.phase == Open && s.holder == Free
    ensures var t := Step(Step(s, ShutdownCall(Outside)), CloseQueue);
      Leaving(t, Joining(Outside)) && t.q.queue == [] && !t.q.accepting
  {
    hide IdsOf, TicketsOf;
  }

  lemma LastSteps(s: State)
    requires Leaving(s, Joining(Outside)) && s.dispatches == map[] && s.q.queue == [] && !s.q.accepting
    requires s.synchronous == {}
    ensures Step(Step(Step(s, WorkerExit), Join), ShutdownEnd).phase == Complete(Outside)
  {
  }

  lemma NobodySynchronous(s: State)
    requires Inv(s) && s.dispatches == map[]
    ensures s.synchronous == {}
  {
    hide QueueInv, AdapterInv, Orderly, LastInv, PhaseInv, IdInv, WorkerInv;
  }

  lemma {:induction false} QueueStaysClosed(start: State, events: seq<Event>, more: seq<Event>)
    requires Inv(Run(start, events)) && Run(start, events).q.queue == [] && !Run(start, events).q.accepting
    ensures Run(start, events + more).q.queue == [] && !Run(start, events + more).q.accepting
    ensures Inv(Run(start, events + more))
    decreases |more|
  {
    hide Run, Step, Inv;
    if more == [] {
      assert events + more == events;
    } else {
      var n := |more| - 1;
      assert events + more == (events + more[..n]) + [more[n]];
      QueueStaysClosed(start, events, more[..n]);
      RunSnoc(start, events + more[..n], more[n]);
      ClosedStep(Run(start, events + more[..n]), more[n]);
      StepInv(Run(start, events + more[..n]), more[n]);
    }
  }

  lemma ClosedStep(s: State, e: Event)
    requires s.q.queue == [] && !s.q.accepting
    ensures Step(s, e).q.queue == [] && !Step(s, e).q.accepting
  {
    hide Record, IdsOf, TicketsOf;
  }

  /** From every reachable state in which nobody has called a shutdown, one from outside can be called and
      completed: neither the locks, nor the commands in flight, nor the queue's worker can hold it up for
      good. */
  lemma ShutdownCanComplete(capacity: nat, events: seq<Event>) returns (all: seq<Event>)
    requires Run(Initial(capacity), events).phase == Open
    ensures events <= all
    ensures var s := Run(Initial(capacity), all);
      s.phase == Complete(Outside) && s.dispatches == map[] && s.synchronous == {} && s.exited
  {
    hide Run, Step, Inv, Leaving;
    var start := Initial(capacity);
    var a := HolderLeaves(start, events);
    ClosingSteps(Run(start, a));
    RunSnoc(start, a, ShutdownCall(Outside));
    RunSnoc(start, a + [ShutdownCall(Outside)], CloseQueue);
    var b := a + [ShutdownCall(Outside)] + [CloseQueue];
    InitialInv(capacity);
    RunInv(start, b);
    var c := AllEnd(start, b, Joining(Outside));
    assert c == b + c[|b|..];
    QueueStaysClosed(start, b, c[|b|..]);
    NobodySynchronous(Run(start, c));
    LastSteps(Run(start, c));
    RunSnoc(start, c, WorkerExit);
    RunSnoc(start, c + [WorkerExit], Join);
    RunSnoc(start, c + [WorkerExit] + [Join], ShutdownEnd);
    all := c + [WorkerExit] + [Join] + [ShutdownEnd];
    RunInv(start, all);
    CompleteOutside(Run(start, all));
  }

  lemma CompleteOutside(s: State)
    requires Inv(s) && s.phase == Complete(Outside)
    ensures s.dispatches == map[] && s.synchronous == {} && s.exited
  {
    hide QueueInv, AdapterInv, Orderly, LastInv, IdInv;
    NobodyDispatches(s);
  }
}
