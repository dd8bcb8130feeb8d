/** A run in which two cancellations land in the drain window of Shutdown. */
module PipelineWindow {
  import opened Basics
  import opened Commands
  import opened PipelineHistory
  import opened PipelineModel
  import opened PipelineInvariant
  import opened PipelineSteps
  import opened PipelineTheorems

  function Small(): Options {
    Options(2, 1, 1)
  }

  /** Two commands are queued, Shutdown takes them, and their callers cancel them before
      Shutdown completes them. */
  function LateCancels(): seq<Event> {
    [Allocate(7, 0, None), Decide(1), Allocate(8, 0, None), Decide(2), BeginShutdown, Cancel(1), Cancel(2), DrainOne,
      SettleDrained, DrainOne]
  }

  function First(): Entry {
    Entry(1, 7, 0, 0)
  }

  function Second(): Entry {
    Entry(2, 8, 0, 1)
  }

  /** The state once Shutdown has taken both entries. */
  function Taken(): State {
    State(Small(), 3, 2, map[], [], map[1 := First(), 2 := Second()], map[7 := 1, 8 := 2],
      History(map[1 := Queued, 2 := Queued], [1, 2]),
      {}, 0, Metrics(2, 0, 0, 0, 0, 0, 0), [First(), Second()], Draining,
      map[], map[], map[], None, map[], 0, 0, 0, {})
  }

  lemma RunSnoc(options: Options, events: seq<Event>, e: Event)
    ensures Run(options, events + [e]) == Step(Run(options, events), e)
  {
    hide Step;
    assert (events + [e])[..|events + [e]| - 1] == events;
  }

  lemma FirstAccepted()
    ensures Run(Small(), LateCancels()[..2]) ==
      State(Small(), 2, 1, map[], [First()], map[1 := First()], map[7 := 1], History(map[1 := Queued], [1]), {}, 0,
        Metrics(1, 0, 0, 0, 0, 0, 0),
            [], Open, map[], map[], map[], None, map[], 0, 0, 0, {})
  {
    var events := LateCancels();
    assert events[..1] == [] + [events[0]] && events[..2] == events[..1] + [events[1]];
    RunSnoc(Small(), [], events[0]);
    RunSnoc(Small(), events[..1], events[1]);
    var s := Run(Small(), events[..1]);
    assert s == Initial(Small()).(nextId := 2, submissions := map[1 := Deciding(7, 0)]);
    assert DecideStep(s, 1) == AcceptStep(s, 1, 7, 0);
    assert s.submissions - {1} == map[];
  }

  lemma BothTaken()
    ensures Run(Small(), LateCancels()[..5]) == Taken()
  {
    hide AcceptStep, DecideStep, AllocateStep;
    var events := LateCancels();
    FirstAccepted();
    assert events[..3] == events[..2] + [events[2]] && events[..4] == events[..3] + [events[3]] &&
      events[..5] == events[..4] + [events[4]];
    RunSnoc(Small(), events[..2], events[2]);
    RunSnoc(Small(), events[..3], events[3]);
    RunSnoc(Small(), events[..4], events[4]);
    SecondAccepted(Run(Small(), events[..2]));
  }

  lemma SecondAccepted(s: State)
    requires s == State(Small(), 2, 1, map[], [First()], map[1 := First()], map[7 := 1],
      History(map[1 := Queued], [1]), {}, 0,
                        Metrics(1, 0, 0, 0, 0, 0, 0), [], Open, map[], map[], map[], None, map[], 0, 0, 0, {})
    ensures Step(Step(Step(s, Allocate(8, 0, None)), Decide(2)), BeginShutdown) == Taken()
  {
    var t := Step(s, Allocate(8, 0, None));
    assert t == s.(nextId := 3, submissions := map[2 := Deciding(8, 0)]);
    assert DecideStep(t, 2) == AcceptStep(t, 2, 8, 0);
    assert t.submissions - {2} == map[];
  }

  lemma PruneOne(records: map<ExecutionId, Status>, order: seq<ExecutionId>, live: set<ExecutionId>)
    requires |records| == 2 && order != [] && order[0] !in live && order[0] in records
    ensures Prune(History(records, order), live, 1) == History(records - {order[0]}, order[1..])
  {
    var h := History(records, order);
    CardinalityWithout(records, order[0]);
    assert order[..0] + order[1..] == order[1..];
    assert OldestFinished(order, live) == 0;
    assert Prune(h, live, 1) == Prune(Evict(h, 0), live, 1);
  }

  lemma PruneNone(records: map<ExecutionId, Status>, order: seq<ExecutionId>, live: set<ExecutionId>)
    requires |records| <= 1 || order == []
    ensures Prune(History(records, order), live, 1) == History(records, order)
  {
  }

  lemma CancelFields(s: State, id: ExecutionId)
    requires id in s.executions && id !in s.running && s.executions[id].id == id
    ensures var t, live := Step(s, Cancel(id)), s.executions - {id};
      && t.options == s.options && t.executions == live && t.drained == s.drained && t.running == s.running - {id}
      && t.history == Prune(History(s.history.records[id := Cancelled], s.history.order), live.Keys,
        s.options.maximumHistorySize)
      && t.metrics == s.metrics.(cancelled := s.metrics.cancelled + 1) && t.settling == s.settling
  {
    hide Prune, RemoveFirst, Fulfil;
  }

  lemma DrainFields(s: State)
    requires s.drained != [] && s.settling.None?
    ensures var t, id := Step(s, DrainOne), s.drained[0].id;
      && t.options == s.options && t.executions == s.executions - {id} && t.drained == s.drained[1..]
      && t.history == Prune(History(s.history.records[id := Cancelled], s.history.order), (s.executions - {id}).Keys,
        s.options.maximumHistorySize)
      && t.metrics == s.metrics.(cancelled := s.metrics.cancelled + 1) && t.settling == Some(id)
  {
    hide Prune, Fulfil;
  }

  lemma SettleFields(s: State)
    requires s.settling.Some?
    ensures var t := Step(s, SettleDrained); t == s.(promises := t.promises, settling := None)
  {
    hide Fulfil;
  }

  lemma FirstCancelled(s: State)
    requires s == Taken()
    ensures var t := Step(s, Cancel(1));
      && t.options == Small() && t.executions == map[2 := Second()] && t.drained == [First(), Second()]
      && t.running == {} && t.settling.None?
      && t.history == History(map[2 := Queued], [2]) && t.metrics == Metrics(2, 0, 0, 1, 0, 0, 0)
  {
    hide Prune, Step;
    CancelFields(s, 1);
    var records := map[1 := Cancelled, 2 := Queued];
    assert s.history.records[1 := Cancelled] == records && records - {1} == map[2 := Queued];
    assert records.Keys == {1, 2} && |records| == |records.Keys|;
    assert s.executions - {1} == map[2 := Second()] && map[2 := Second()].Keys == {2};
    PruneOne(records, [1, 2], {2});
  }

  lemma SecondCancelled(s: State)
    requires s.options == Small() && s.executions == map[2 := Second()] && s.drained == [First(), Second()]
    requires s.running == {} && s.settling.None?
    requires s.history == History(map[2 := Queued], [2]) && s.metrics == Metrics(2, 0, 0, 1, 0, 0, 0)
    ensures var t := Step(s, Cancel(2));
      && t.options == Small() && t.executions == map[] && t.drained == [First(), Second()] && t.settling.None?
      && t.history == History(map[2 := Cancelled], [2]) && t.metrics == Metrics(2, 0, 0, 2, 0, 0, 0)
  {
    hide Prune, Step;
    CancelFields(s, 2);
    var records := map[2 := Cancelled];
    assert s.history.records[2 := Cancelled] == records;
    assert records.Keys == {2} && |records| == |records.Keys|;
    assert s.executions - {2} == map[];
    PruneNone(records, [2], {});
  }

  lemma FirstDrained(s: State)
    requires s.options == Small() && s.executions == map[] && s.drained == [First(), Second()] && s.settling.None?
    requires s.history == History(map[2 := Cancelled], [2]) && s.metrics == Metrics(2, 0, 0, 2, 0, 0, 0)
    ensures var t := Step(s, DrainOne);
      && t.options == Small() && t.executions == map[] && t.drained == [Second()] && t.settling.Some?
      && t.history == History(map[1 := Cancelled], []) && t.metrics == Metrics(2, 0, 0, 3, 0, 0, 0)
  {
    hide Prune, Step;
    DrainFields(s);
    var records := map[1 := Cancelled, 2 := Cancelled];
    assert s.history.records[1 := Cancelled] == records && records - {2} == map[1 := Cancelled];
    assert records.Keys == {1, 2} && |records| == |records.Keys|;
    assert s.executions - {1} == map[];
    PruneOne(records, [2], {});
  }

  lemma SecondDrained(s: State)
    requires s.options == Small() && s.executions == map[] && s.drained == [Second()] && s.settling.None?
    requires s.history == History(map[1 := Cancelled], []) && s.metrics == Metrics(2, 0, 0, 3, 0, 0, 0)
    ensures var t := Step(s, DrainOne);
      t.history == History(map[1 := Cancelled, 2 := Cancelled], []) && t.metrics == Metrics(2, 0, 0, 4, 0, 0, 0)
  {
    hide Prune, Step;
    DrainFields(s);
    var records := map[1 := Cancelled, 2 := Cancelled];
    assert s.history.records[2 := Cancelled] == records;
    PruneNone(records, [], (s.executions - {2}).Keys);
  }

  /** With late cancellations the history outgrows its limit of one, its listing is empty while
      two records are kept, and two commands are counted as four cancellations. */
  lemma LateCancelsOverfillHistory()
    ensures var s := Run(Small(), LateCancels());
      && s.history == History(map[1 := Cancelled, 2 := Cancelled], [])
      && s.metrics.accepted == 2 && s.metrics.cancelled == 4
      && |s.history.records| > s.options.maximumHistorySize
  {
    hide Step, Taken;
    var events := LateCancels();
    BothTaken();
    assert events[..6] == events[..5] + [events[5]] && events[..7] == events[..6] + [events[6]];
    assert events[..8] == events[..7] + [events[7]] && events[..9] == events[..8] + [events[8]] &&
      events == events[..9] + [events[9]];
    RunSnoc(Small(), events[..5], events[5]);
    RunSnoc(Small(), events[..6], events[6]);
    RunSnoc(Small(), events[..7], events[7]);
    RunSnoc(Small(), events[..8], events[8]);
    RunSnoc(Small(), events[..9], events[9]);
    FirstCancelled(Taken());
    SecondCancelled(Run(Small(), events[..6]));
    FirstDrained(Run(Small(), events[..7]));
    SettleFields(Run(Small(), events[..8]));
    SecondDrained(Run(Small(), events[..9]));
    OptionsKept(Small(), events);
    assert map[1 := Cancelled, 2 := Cancelled].Keys == {1, 2};
  }

  // ---------------------------------------------------------------- a cancellation that has yet to answer

  /** A command is cancelled while it is queued, and Shutdown runs to its end before the caller of
      Cancel has set the promise. */
  function SlowCancel(): seq<Event> {
    [Allocate(7, 0, None), Decide(1), Cancel(1), BeginShutdown, EndShutdown]
  }

  lemma NothingToDrain(s: State)
    requires s.phase == Open && s.queue == [] && s.running == {} && s.reporting == map[] && s.settling.None?
    ensures var t := Step(Step(s, BeginShutdown), EndShutdown);
      t.phase == Closed && t.promises == s.promises && t.answering == s.answering && t.nextId == s.nextId
  {
    hide Prune;
  }

  lemma OnlyOneCancelled(s: State)
    requires s == Run(Small(), LateCancels()[..2])
    ensures var t := Step(s, Cancel(1));
      && t.phase == Open && t.queue == [] && t.running == {} && t.reporting == map[] && t.settling.None?
      && t.promises == map[] && 1 in t.answering && t.nextId == 2
  {
    hide Prune, Run;
    FirstAccepted();
  }

  /** Shutdown has returned, the command is in no table of the pipeline, and its caller has no
      answer yet: the one that Cancel owes. */
  lemma SlowCancelIsUnanswered()
    ensures var s := Run(Small(), SlowCancel());
      s.phase == Closed && 1 !in s.submissions && 1 !in s.executions && 1 !in s.promises && 1 in s.answering
  {
    hide Step, Run;
    var events := SlowCancel();
    assert events[..2] == LateCancels()[..2];
    assert events[..3] == events[..2] + [events[2]] && events[..4] == events[..3] + [events[3]];
    assert events == events[..4] + [events[4]];
    RunSnoc(Small(), events[..2], events[2]);
    RunSnoc(Small(), events[..3], events[3]);
    RunSnoc(Small(), events[..4], events[4]);
    OnlyOneCancelled(Run(Small(), events[..2]));
    NothingToDrain(Run(Small(), events[..3]));
    ClosedAnswersAll(Small(), events, 1);
    ClosedHasNoExecutions(Small(), events);
  }

  lemma ClosedHasNoExecutions(options: Options, events: seq<Event>)
    requires Run(options, events).phase == Closed
    ensures Run(options, events).executions == map[]
  {
    hide Run, Inv;
    RunInv(options, events);
    ClosedEmpty(Run(options, events));
  }
}
