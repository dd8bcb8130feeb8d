/** A shutdown of the pipeline never deadlocks: whatever has happened, it can still be completed, with
    every execution and every submission answered. */
module PipelineShutdown {
  import opened Basics
  import opened Commands
  import opened PipelineHistory
  import opened PipelineModel
  import opened PipelineInvariant
  import opened PipelineSteps
  import opened PipelineTheorems

  lemma Appended(options: Options, events: seq<Event>, e: Event)
    ensures Run(options, events + [e]) == Step(Run(options, events), e)
  {
    hide Step;
    assert (events + [e])[..|events + [e]| - 1] == events;
  }

  /** What Shutdown took is completed one entry after the other. */
  lemma {:induction false} Drains(options: Options, events: seq<Event>) returns (all: seq<Event>)
    requires Run(options, events).phase == Draining
    ensures events <= all
    ensures var s := Run(options, all); s.phase == Draining && s.drained == [] && s.settling == None
    decreases |Run(options, events).drained|, if Run(options, events).settling.Some? then 1 else 0
  {
    hide Run, Finish;
    var s := Run(options, events);
    if s.settling.Some? {
      Appended(options, events, SettleDrained);
      all := Drains(options, events + [SettleDrained]);
    } else if s.drained != [] {
      Appended(options, events, DrainOne);
      all := Drains(options, events + [DrainOne]);
    } else {
      all := events;
    }
  }

  /** Nothing is left of what Shutdown took. */
  ghost predicate Empty(s: State) {
    s.phase == Draining && s.drained == [] && s.settling == None
  }

  lemma RunningIsLive(s: State, id: ExecutionId)
    requires Inv(s) && id in s.running
    ensures id in s.executions && s.executions[id].id == id
  {
    hide HistoryInv, QueueInv, DrainedInv, CommandInv, IdInv, RecordInv, PromiseInv, AccountInv, OrderInv, RefusalInv,
      PhaseInv;
    assert Placed(id, s.queue, s.executions, s.running, s.drained);
  }

  /** Running executions end. */
  lemma {:induction false} Ends(options: Options, events: seq<Event>) returns (all: seq<Event>)
    requires Empty(Run(options, events))
    ensures events <= all && Empty(Run(options, all)) && Run(options, all).running == {}
    decreases Run(options, events).running
  {
    hide Run, Finish, Inv, Prune;
    RunInv(options, events);
    var s := Run(options, events);
    if id :| id in s.running {
      RunningIsLive(s, id);
      Appended(options, events, Complete(id, Failed));
      all := Ends(options, events + [Complete(id, Failed)]);
    } else {
      all := events;
    }
  }

  /** The workers report what they have completed. */
  lemma {:induction false} Reports(options: Options, events: seq<Event>) returns (all: seq<Event>)
    requires Empty(Run(options, events)) && Run(options, events).running == {}
    ensures events <= all && Empty(Run(options, all)) && Run(options, all).running == {}
    ensures Run(options, all).reporting == map[]
    decreases Run(options, events).reporting.Keys
  {
    hide Run;
    var s := Run(options, events);
    if id :| id in s.reporting {
      Appended(options, events, Report(id));
      all := Reports(options, events + [Report(id)]);
    } else {
      all := events;
      assert s.reporting.Keys == {};
    }
  }

  /** Everything that Shutdown waits for is done. */
  ghost predicate Idle(s: State) {
    Empty(s) && s.running == {} && s.reporting == map[]
  }

  /** Submissions under way are refused, for the pipeline is closed. */
  lemma {:induction false} Refuses(options: Options, events: seq<Event>) returns (all: seq<Event>)
    requires Idle(Run(options, events))
    ensures events <= all && Idle(Run(options, all)) && Run(options, all).submissions == map[]
    decreases Run(options, events).submissions.Keys
  {
    hide Run, Prune, Tally, Fulfil;
    var s := Run(options, events);
    if id :| id in s.submissions {
      var decided := events;
      if s.submissions[id].Deciding? {
        decided := events + [Decide(id)];
        Appended(options, events, Decide(id));
      }
      Appended(options, decided, Refuse(id));
      all := Refuses(options, decided + [Refuse(id)]);
    } else {
      all := events;
      assert s.submissions.Keys == {};
    }
  }

  /** The callers of Cancel and of refused submissions set their promises. */
  lemma {:induction false} Answers(options: Options, events: seq<Event>) returns (all: seq<Event>)
    requires Idle(Run(options, events)) && Run(options, events).submissions == map[]
    ensures events <= all && Idle(Run(options, all)) && Run(options, all).submissions == map[]
    ensures Run(options, all).answering == map[]
    decreases Run(options, events).answering.Keys
  {
    hide Run, Fulfil;
    var s := Run(options, events);
    if id :| id in s.answering {
      Appended(options, events, Answer(id));
      all := Answers(options, events + [Answer(id)]);
    } else {
      all := events;
      assert s.answering.Keys == {};
    }
  }

  lemma Closes(options: Options, events: seq<Event>)
    requires Idle(Run(options, events)) && Run(options, events).submissions == map[]
    requires Run(options, events).answering == map[]
    ensures var s := Run(options, events + [EndShutdown]);
      s.phase == Closed && s.submissions == map[] && s.answering == map[]
  {
    hide Run, Prune;
    Appended(options, events, EndShutdown);
  }

  lemma Opens(options: Options, events: seq<Event>)
    requires Run(options, events).phase == Open
    ensures Run(options, events + [BeginShutdown]).phase == Draining
  {
    hide Run;
    Appended(options, events, BeginShutdown);
  }

  /** Whatever has happened while the pipeline is not closed yet, some continuation closes it with every
      identifier ever given out answered: nothing that Shutdown waits for can be stuck. */
  lemma ShutdownCanComplete(options: Options, events: seq<Event>) returns (all: seq<Event>)
    requires Run(options, events).phase != Closed
    ensures events <= all
    ensures
      var s := Run(options, all);
      && s.phase == Closed && s.executions == map[]
      && forall id :: 1 <= id < s.nextId ==> id in s.promises
  {
    hide Run, Inv, Idle, Empty;
    all := events;
    if Run(options, events).phase == Open {
      Opens(options, events);
      all := events + [BeginShutdown];
    }
    all := Drains(options, all);
    assert Empty(Run(options, all)) by { IsEmpty(Run(options, all)); }
    all := Ends(options, all);
    all := Reports(options, all);
    assert Idle(Run(options, all)) by { IsIdle(Run(options, all)); }
    all := Refuses(options, all);
    all := Answers(options, all);
    Closes(options, all);
    all := all + [EndShutdown];
    RunInv(options, all);
    ClosedEmpty(Run(options, all));
    forall id | 1 <= id < Run(options, all).nextId
      ensures id in Run(options, all).promises
    {
      ClosedAnswersAll(options, all, id);
    }
  }

  lemma IsEmpty(s: State)
    requires s.phase == Draining && s.drained == [] && s.settling == None
    ensures Empty(s)
  {
  }

  lemma IsIdle(s: State)
    requires Empty(s) && s.running == {} && s.reporting == map[]
    ensures Idle(s)
  {
  }
}
