/** Pausing, resuming and cancelling a mission while its worker runs. */
module MissionControl {
  import opened MissionFlow

  datatype Status = Pending | Running | Paused | Finished | Stopped | Broken

  predicate IsTerminal(status: Status) {
    status == Finished || status == Stopped || status == Broken
  }

  datatype Control = Control(status: Status, pause: bool, cancel: bool, stop: bool)

  /** A control call, an action of the mission's worker, or the end of the mission. */
  datatype Event = Start | Pause | Resume | Cancel | Stop | Work(action: Action) | Finish(status: Status)

  /** The worker cannot pass its wait, or leaves it only to give up. */
  predicate Blocked(c: Control) {
    c.pause || c.cancel || c.stop
  }

  function Step(c: Control, e: Event): Control {
    match e
    case Start => if c.status == Pending || IsTerminal(c.status) then Control(Running, false, false, false) else c
    case Pause => if c.status == Running then c.(pause := true, status := Paused) else c
    case Resume => if c.status == Paused then c.(pause := false, status := Running) else c
    case Cancel =>
      if c.status == Pending || IsTerminal(c.status) then c
      else c.(cancel := true, pause := false, status := Stopped)
    case Stop =>
      if c.status == Pending || IsTerminal(c.status) then c
      else c.(stop := true, cancel := true, pause := false, status := Stopped)
    case Work(action) => if action.Pass? && !Blocked(c) then c.(status := Running) else c
    case Finish(status) => if IsTerminal(status) then c.(status := status) else c
  }

  function Run(c: Control, events: seq<Event>): Control
    decreases |events|
  {
    if events == [] then c else Run(Step(c, events[0]), events[1..])
  }

  function Initial(): Control {
    Control(Pending, false, false, false)
  }

  // ---------------------------------------------------------------- interleavings

  /** What the worker does in a run of events. */
  function WorkerPart(events: seq<Event>): seq<Action>
    decreases |events|
  {
    if events == [] then []
    else (if events[0].Work? then [events[0].action] else []) + WorkerPart(events[1..])
  }

  /** The worker passes its wait only while nothing blocks it. */
  ghost predicate Legal(c: Control, events: seq<Event>)
    decreases |events|
  {
    events != [] ==> (events[0] == Work(Pass) ==> !Blocked(c)) && Legal(Step(c, events[0]), events[1..])
  }

  /** An interleaving of control calls with the trace of a worker, which passes its wait directly
      before each execution. */
  ghost predicate Interleaving(events: seq<Event>) {
    Legal(Initial(), events) && Gated(WorkerPart(events))
  }

  lemma {:induction false} Split(c: Control, a: seq<Event>, b: seq<Event>)
    ensures Run(c, a + b) == Run(Run(c, a), b) && (Legal(c, a + b) ==> Legal(Run(c, a), b))
    decreases |a|
  {
    hide Step, Blocked;
    if a == [] {
      assert a + b == b;
    } else {
      assert (a + b)[1..] == a[1..] + b && (a + b)[0] == a[0];
      Split(Step(c, a[0]), a[1..], b);
    }
  }

  lemma {:induction false} SplitWorker(a: seq<Event>, b: seq<Event>)
    ensures WorkerPart(a + b) == WorkerPart(a) + WorkerPart(b)
    decreases |a|
  {
    if a == [] {
      assert a + b == b;
    } else {
      assert (a + b)[1..] == a[1..] + b && (a + b)[0] == a[0];
      SplitWorker(a[1..], b);
      Associate(if a[0].Work? then [a[0].action] else [], WorkerPart(a[1..]), WorkerPart(b));
    }
  }

  lemma Associate(a: seq<Action>, b: seq<Action>, c: seq<Action>)
    ensures a + (b + c) == (a + b) + c
  {
  }

  lemma OneCall(c: Control, call: Event)
    requires !call.Work?
    ensures Run(c, [call]) == Step(c, call) && WorkerPart([call]) == []
  {
    hide Step;
    assert [call][1..] == [];
  }

  lemma {:induction false} BlockedHasNoPass(c: Control, events: seq<Event>)
    requires Blocked(c) && Legal(c, events) && Start !in events && (Resume !in events || c.cancel)
    ensures Pass !in WorkerPart(events)
    decreases |events|
  {
    if events != [] {
      assert events[0] in events;
      BlockedHasNoPass(Step(c, events[0]), events[1..]);
    }
  }

  /** Of actions without a pass at most the first is an execution, and only if a pass came before. */
  lemma GatedWithoutPass(before: seq<Action>, after: seq<Action>)
    requires Gated(before + after) && Pass !in after
    ensures |after| <= 1 && (after != [] ==> before != [] && before[|before| - 1].Pass?)
  {
    hide Gated;
    var all, n := before + after, |before|;
    if after != [] {
      assert all[n] == after[0] && after[0] in after;
      assert n > 0 ==> all[n - 1] == before[n - 1];
      if |after| > 1 {
        assert all[n + 1] == after[1] && after[1] in after;
        PassBefore(all, n + 1);
      }
      PassBefore(all, n);
    }
  }

  lemma PassBefore(trace: seq<Action>, k: nat)
    requires Gated(trace) && k < |trace|
    ensures trace[k].Pass? || (k > 0 && trace[k - 1].Pass?)
  {
  }

  lemma AfterCall(events: seq<Event>, call: Event, more: seq<Event>)
    requires Interleaving(events + [call] + more) && !call.Work? && Blocked(Step(Run(Initial(), events), call))
    requires Start !in more && (Resume !in more || Step(Run(Initial(), events), call).cancel)
    ensures |WorkerPart(more)| <= 1
    ensures WorkerPart(more) != [] ==> WorkerPart(events) != [] && WorkerPart(events)[|WorkerPart(events)| - 1].Pass?
  {
    hide Step, Blocked, Run, WorkerPart, Legal, Gated;
    var c := Run(Initial(), events);
    Split(Initial(), events + [call], more);
    Split(Initial(), events, [call]);
    SplitWorker(events + [call], more);
    SplitWorker(events, [call]);
    OneCall(c, call);
    assert WorkerPart(events) + [] == WorkerPart(events);
    BlockedHasNoPass(Step(c, call), more);
    GatedWithoutPass(WorkerPart(events), WorkerPart(more));
  }

  lemma {:induction false} BegunAtMost(trace: seq<Action>)
    ensures |Begun(trace)| <= |trace|
  {
    if trace != [] {
      BegunAtMost(trace[..|trace| - 1]);
    }
  }

  /** In every interleaving of a mission with control calls: after a pause is accepted at most one
      more execution begins until the mission is resumed or another one started, and only if the
      worker had passed its wait before; a cancellation or a stop in between does not change that. */
  lemma AtMostOneAfterPause(events: seq<Event>, more: seq<Event>)
    requires Interleaving(events + [Pause] + more) && Run(Initial(), events).status == Running
    requires Resume !in more && Start !in more
    ensures |Begun(WorkerPart(more))| <= 1
    ensures Begun(WorkerPart(more)) != [] ==>
      WorkerPart(events) != [] && WorkerPart(events)[|WorkerPart(events)| - 1].Pass?
  {
    AfterCall(events, Pause, more);
    BegunAtMost(WorkerPart(more));
  }

  /** The same after a cancellation or a stop is accepted, whatever is called later, until
      another mission is started. */
  lemma AtMostOneAfterCancel(events: seq<Event>, call: Event, more: seq<Event>)
    requires Interleaving(events + [call] + more) && (call == Cancel || call == Stop)
    requires var s := Run(Initial(), events).status; s == Running || s == Paused
    requires Start !in more
    ensures |Begun(WorkerPart(more))| <= 1
    ensures Begun(WorkerPart(more)) != [] ==>
      WorkerPart(events) != [] && WorkerPart(events)[|WorkerPart(events)| - 1].Pass?
  {
    AfterCall(events, call, more);
    BegunAtMost(WorkerPart(more));
  }

  // ---------------------------------------------------------------- resuming

  /** A paused mission is one whose pause flag is set, so that resuming it lets the worker pass. */
  ghost predicate Inv(c: Control) {
    && (c.status == Paused ==> c.pause && !c.cancel && !c.stop)
    && (c.status == Running ==> !c.pause && !c.cancel && !c.stop)
  }

  lemma {:induction false} RunInv(c: Control, events: seq<Event>)
    requires Inv(c)
    ensures Inv(Run(c, events))
    decreases |events|
  {
    if events != [] {
      RunInv(Step(c, events[0]), events[1..]);
    }
  }

  /** After a resume is accepted the worker may pass again and execute a step. */
  lemma ResumeLetsPass(events: seq<Event>, x: Execution)
    requires Run(Initial(), events).status == Paused
    ensures var c := Step(Run(Initial(), events), Resume); !Blocked(c) && Legal(c, [Work(Pass), Work(Begin(x))])
  {
    RunInv(Initial(), events);
    var c, e := Step(Run(Initial(), events), Resume), [Work(Pass), Work(Begin(x))];
    assert e[1..] == [Work(Begin(x))] && e[1..][1..] == [];
    assert Legal(Step(c, e[0]), e[1..]);
  }

  // ---------------------------------------------------------------- the calls

  class MissionExecutor {
    var status: Status
    var pauseRequested: bool
    var cancelRequested: bool
    var stopRequested: bool

    function Value(): Control
      reads this
    {
      Control(status, pauseRequested, cancelRequested, stopRequested)
    }

    constructor ()
      ensures Value() == Initial()
    {
      status, pauseRequested, cancelRequested, stopRequested := Pending, false, false, false;
    }

    /** The start of a mission that is valid, while no other one has a worker. */
    method StartMission() returns (accepted: bool)
      modifies this
      ensures Value() == Step(old(Value()), Start)
      ensures accepted <==> old(status) != Running && old(status) != Paused
      ensures Value() == if accepted then Control(Running, false, false, false) else old(Value())
    {
      if status == Running || status == Paused {
        return false;
      }
      pauseRequested, cancelRequested, stopRequested := false, false, false;
      status := Running;
      return true;
    }

    /** The section of a stop while a mission has a worker; a finished mission keeps its result. */
    method StopMission() returns (accepted: bool)
      modifies this
      ensures Value() == Step(old(Value()), Stop)
      ensures accepted <==> old(status) == Running || old(status) == Paused
      ensures Value() == if accepted then Control(Stopped, false, true, true) else old(Value())
    {
      if status == Pending || IsTerminal(status) {
        return false;
      }
      stopRequested, cancelRequested, pauseRequested, status := true, true, false, Stopped;
      return true;
    }

    method PauseMission() returns (accepted: bool)
      modifies this
      ensures Value() == Step(old(Value()), Pause)
      ensures accepted <==> old(status) == Running || old(status) == Paused
      ensures Value() == if old(status) == Running
        then Control(Paused, true, old(cancelRequested), old(stopRequested)) else old(Value())
      ensures accepted && Inv(old(Value())) ==> Blocked(Value())
    {
      if status == Paused {
        return true;
      }
      if status != Running {
        return false;
      }
      pauseRequested, status := true, Paused;
      return true;
    }

    method ResumeMission() returns (accepted: bool)
      modifies this
      ensures Value() == Step(old(Value()), Resume)
      ensures accepted <==> old(status) == Paused
      ensures Value() == if accepted
        then Control(Running, false, old(cancelRequested), old(stopRequested)) else old(Value())
      ensures accepted && Inv(old(Value())) ==> !Blocked(Value())
    {
      if status != Paused {
        return false;
      }
      pauseRequested, status := false, Running;
      return true;
    }

    method CancelMission() returns (accepted: bool)
      modifies this
      ensures Value() == Step(old(Value()), Cancel)
      ensures accepted <==> old(status) == Running || old(status) == Paused
      ensures Value() == if accepted then Control(Stopped, false, true, old(stopRequested)) else old(Value())
    {
      if status == Pending || IsTerminal(status) {
        return false;
      }
      cancelRequested, pauseRequested, status := true, false, Stopped;
      return true;
    }

    /** The end of a wait, once the flags let it end. */
    method WaitUntilRunnable() returns (runnable: bool)
      requires !pauseRequested || cancelRequested || stopRequested
      modifies this
      ensures runnable <==> !old(pauseRequested) && !old(cancelRequested) && !old(stopRequested)
      ensures Value() == Step(old(Value()), Work(Pass))
      ensures Value() == if runnable then Control(Running, false, false, false) else old(Value())
    {
      if cancelRequested || stopRequested {
        return false;
      }
      status := Running;
      return true;
    }
  }
}
