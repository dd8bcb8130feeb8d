/** What holds of the pipeline over whole runs. */
module PipelineTheorems {
  import opened Basics
  import opened Commands
  import opened PipelineHistory
  import opened PipelineModel
  import opened PipelineInvariant
  import opened PipelineSteps

  // ---------------------------------------------------------------- when the history is exact

  /** Shutdown completes an entry whose record has been evicted: somebody cancelled it after
      Shutdown took the queue, and other completions pushed its record out. */
  predicate Resurrects(s: State, e: Event) {
    e.DrainOne? && s.settling.None? && s.drained != [] && s.drained[0].id !in s.history.records
  }

  ghost predicate RunResurrects(options: Options, events: seq<Event>) {
    if events == [] then false
    else
      var before := events[..|events| - 1];
      RunResurrects(options, before) || Resurrects(Run(options, before), events[|events| - 1])
  }

  lemma StepOrphans(s: State, e: Event)
    ensures Step(s, e).orphaned == if Resurrects(s, e) then s.orphaned + {s.drained[0].id} else s.orphaned
  {
    hide AllocateStep, DecideStep, RefuseStep, CancelStep, TakeStep, CompleteStep, BeginShutdownStep, DrainStep,
      AnswerStep, ReportStep, SettleStep, EndShutdownStep;
    DrainOrphans(s);
  }

  lemma DrainOrphans(s: State)
    ensures DrainStep(s).orphaned == if Resurrects(s, DrainOne) then s.orphaned + {s.drained[0].id} else s.orphaned
  {
    hide Finish;
  }

  lemma {:induction false} OrphansExactly(options: Options, events: seq<Event>)
    ensures Run(options, events).orphaned != {} <==> RunResurrects(options, events)
  {
    hide Step, Resurrects;
    if events != [] {
      var before := events[..|events| - 1];
      OrphansExactly(options, before);
      StepOrphans(Run(options, before), events[|events| - 1]);
    }
  }

  /** The listing holds exactly the records, in every run in which Shutdown completes no entry
      whose record is gone, and in no other. */
  lemma HistoryListsRecords(options: Options, events: seq<Event>)
    ensures var s := Run(options, events);
      && NoDuplicates(s.history.order)
      && (s.history.records.Keys == Listed(s.history.order) <==> !RunResurrects(options, events))
  {
    hide Run, RunResurrects;
    RunInv(options, events);
    OrphansExactly(options, events);
    HistoryFacts(Run(options, events));
  }

  /** How many entries Shutdown completed whose record was gone. */
  ghost function Resurrections(options: Options, events: seq<Event>): nat {
    if events == [] then 0
    else
      var before := events[..|events| - 1];
      Resurrections(options, before) + (if Resurrects(Run(options, before), events[|events| - 1]) then 1 else 0)
  }

  lemma StepOrphanCount(s: State, e: Event)
    requires Inv(s)
    ensures |Step(s, e).orphaned| == |s.orphaned| + if Resurrects(s, e) then 1 else 0
  {
    hide Inv, Step;
    StepOrphans(s, e);
    OrphansAreRecorded(s);
  }

  lemma OrphansAreRecorded(s: State)
    requires Inv(s)
    ensures s.orphaned <= s.history.records.Keys - s.executions.Keys
    ensures |s.history.records.Keys - s.executions.Keys| <= s.options.maximumHistorySize ||
      s.history.records.Keys - s.executions.Keys == s.orphaned
  {
    hide QueueInv, DrainedInv, PlacesInv, CommandInv, IdInv, RecordInv, PromiseInv, AccountInv, OrderInv, RefusalInv,
      PhaseInv, Listed, NoDuplicates;
  }

  lemma {:induction false} OrphanCount(options: Options, events: seq<Event>)
    ensures |Run(options, events).orphaned| == Resurrections(options, events)
  {
    hide Step, Resurrects, Inv;
    if events != [] {
      var before := events[..|events| - 1];
      OrphanCount(options, before);
      RunInv(options, before);
      StepOrphanCount(Run(options, before), events[|events| - 1]);
    }
  }

  /** The finished records exceed the limit if and only if Shutdown completed more entries whose
      record was gone than the limit allows, and then they are those entries. */
  lemma HistoryExceedsLimit(options: Options, events: seq<Event>)
    ensures var s := Run(options, events);
      && (|s.history.records.Keys - s.executions.Keys| > options.maximumHistorySize <==>
        Resurrections(options, events) > options.maximumHistorySize)
      && (Resurrections(options, events) > options.maximumHistorySize ==>
            |s.history.records.Keys - s.executions.Keys| == Resurrections(options, events))
  {
    hide Run, Resurrections, Inv;
    RunInv(options, events);
    OrphanCount(options, events);
    OptionsKept(options, events);
    var s := Run(options, events);
    OrphansAreRecorded(s);
    SubsetSize(s.orphaned, s.history.records.Keys - s.executions.Keys);
  }

  lemma HistoryFacts(s: State)
    requires Inv(s)
    ensures NoDuplicates(s.history.order)
    ensures s.history.records.Keys == Listed(s.history.order) <==> s.orphaned == {}
    ensures s.executions.Keys <= s.history.records.Keys
    ensures s.orphaned == {} ==> |s.history.records.Keys - s.executions.Keys| <= s.options.maximumHistorySize
  {
    hide QueueInv, DrainedInv, PlacesInv, CommandInv, IdInv, RecordInv, PromiseInv, AccountInv, OrderInv, RefusalInv,
      PhaseInv, Listed, NoDuplicates;
    if s.orphaned == {} && s.history.records.Keys - s.executions.Keys <= s.orphaned {
      assert s.history.records.Keys - s.executions.Keys == {};
    }
  }

  // ---------------------------------------------------------------- runs without late cancellations

  /** A Cancel that completes an entry which Shutdown has taken and not yet completed. */
  predicate CancelsLate(s: State, e: Event) {
    e.Cancel? && e.id in s.executions && e.id !in s.running && s.executions[e.id] in s.drained
  }

  ghost predicate RunCancelsLate(options: Options, events: seq<Event>) {
    if events == [] then false
    else
      var before := events[..|events| - 1];
      RunCancelsLate(options, before) || CancelsLate(Run(options, before), events[|events| - 1])
  }

  lemma StepWindow(s: State, e: Event)
    ensures Step(s, e).windowCancels == s.windowCancels + (if CancelsLate(s, e) then 1 else 0)
  {
    hide AllocateStep, DecideStep, RefuseStep, TakeStep, CompleteStep, BeginShutdownStep, DrainStep, AnswerStep,
      ReportStep, SettleStep, EndShutdownStep, Finish, RemoveFirst;
  }

  lemma {:induction false} WindowExactly(options: Options, events: seq<Event>)
    ensures Run(options, events).windowCancels != 0 <==> RunCancelsLate(options, events)
  {
    hide Step, CancelsLate;
    if events != [] {
      var before := events[..|events| - 1];
      WindowExactly(options, before);
      StepWindow(Run(options, before), events[|events| - 1]);
    }
  }

  lemma {:induction false} NoLateCancelNoOrphan(options: Options, events: seq<Event>)
    requires !RunCancelsLate(options, events)
    ensures Run(options, events).orphaned == {}
  {
    hide Step, CancelsLate, Inv, Resurrects;
    if events != [] {
      var before := events[..|events| - 1];
      var s, e := Run(options, before), events[|events| - 1];
      NoLateCancelNoOrphan(options, before);
      WindowExactly(options, before);
      RunInv(options, before);
      NothingGone(s, e);
      StepOrphans(s, e);
    }
  }

  lemma NothingGone(s: State, e: Event)
    requires Inv(s) && s.windowCancels == 0
    ensures !Resurrects(s, e)
  {
    hide QueueInv, PlacesInv, CommandInv, IdInv, RecordInv, PromiseInv, OrderInv, RefusalInv, HistoryInv;
    if s.drained != [] {
      HistoryWellFormed(s);
      assert Gone(s.drained, s.executions.Keys) == 0;
    }
  }

  /** A run in which no Cancel lands in the drain window: the listing holds exactly the records
      without duplicates, outstanding executions are recorded, finished records stay within the
      limit, and the metrics balance. */
  lemma CleanHistory(options: Options, events: seq<Event>)
    requires !RunCancelsLate(options, events)
    ensures var s := Run(options, events);
      && NoDuplicates(s.history.order) && s.history.records.Keys == Listed(s.history.order)
      && s.executions.Keys <= s.history.records.Keys
      && |s.history.records.Keys - s.executions.Keys| <= options.maximumHistorySize
      && Total(s.metrics) + |s.executions| == s.metrics.accepted + s.refused
  {
    hide Run, RunCancelsLate, Inv;
    var s := Run(options, events);
    RunInv(options, events);
    NoLateCancelNoOrphan(options, events);
    WindowExactly(options, events);
    HistoryFacts(s);
    Balance(s);
    OptionsKept(options, events);
  }

  lemma Balance(s: State)
    requires Inv(s)
    ensures Total(s.metrics) + |s.executions| == s.metrics.accepted + s.refused + s.doubled
    ensures s.doubled <= s.windowCancels
    ensures s.phase == Closed ==> s.doubled == s.windowCancels
  {
    hide HistoryInv, QueueInv, DrainedInv, PlacesInv, CommandInv, IdInv, RecordInv, PromiseInv, OrderInv, RefusalInv,
      Total;
    assert |s.executions| == |s.executions.Keys|;
  }

  lemma {:induction false} OptionsKept(options: Options, events: seq<Event>)
    ensures Run(options, events).options == options
  {
    hide Step;
    if events != [] {
      OptionsKept(options, events[..|events| - 1]);
      StepOptions(Run(options, events[..|events| - 1]), events[|events| - 1]);
    }
  }

  lemma StepOptions(s: State, e: Event)
    ensures Step(s, e).options == s.options
  {
    hide AllocateStep, DecideStep, RefuseStep, CancelStep, TakeStep, CompleteStep, BeginShutdownStep, DrainStep,
      AnswerStep, ReportStep, SettleStep, EndShutdownStep;
  }

  // ---------------------------------------------------------------- accounts and answers at the end

  /** After Shutdown the metrics exceed the submissions by exactly the number of cancellations
      that landed in the window, so they balance if and only if none did. */
  lemma ClosedAccounts(options: Options, events: seq<Event>)
    requires Run(options, events).phase == Closed
    ensures var s := Run(options, events);
      && Total(s.metrics) == s.metrics.accepted + s.refused + s.windowCancels
      && (Total(s.metrics) == s.metrics.accepted + s.refused <==> !RunCancelsLate(options, events))
  {
    hide Run, RunCancelsLate, Inv, Total;
    RunInv(options, events);
    WindowExactly(options, events);
    Balance(Run(options, events));
    ClosedEmpty(Run(options, events));
  }

  lemma ClosedEmpty(s: State)
    requires Inv(s) && s.phase == Closed
    ensures s.executions == map[] && s.queue == [] && s.drained == [] && s.running == {} && s.commands == map[]
  {
    hide HistoryInv, QueueInv, DrainedInv, IdInv, RecordInv, PromiseInv, OrderInv, RefusalInv, AccountInv;
    assert forall id :: id in s.executions ==> Placed(id, s.queue, s.executions, s.running, s.drained);
  }

  /** After Shutdown every identifier given out belongs to a submission still under way or is
      answered, but for a Cancel or a refused Submit that has yet to set the promise: the workers
      and Shutdown have set theirs. */
  lemma ClosedAnswersAll(options: Options, events: seq<Event>, id: ExecutionId)
    requires Run(options, events).phase == Closed && 1 <= id < Run(options, events).nextId
    ensures var s := Run(options, events);
      && (id in s.promises || id in s.answering <==> id !in s.submissions)
      && (s.answering == map[] ==> (id in s.promises <==> id !in s.submissions))
  {
    hide Run, HistoryInv, QueueInv, DrainedInv, PlacesInv, CommandInv, RecordInv, AccountInv, OrderInv, RefusalInv;
    RunInv(options, events);
    ClosedEmpty(Run(options, events));
    IdsGiven(Run(options, events).nextId, id);
  }

  /** Somebody has completed the execution with this status and is about to set the promise. */
  predicate BeingSettled(s: State, id: ExecutionId, status: Status) {
    || (id in s.answering && s.answering[id] == status)
    || (id in s.reporting && s.reporting[id] == status)
    || (s.settling == Some(id) && status == Cancelled)
  }

  /** An answer is final. The record of a finished execution repeats the answer, or what
      somebody is about to answer, and whatever is about to be answered is that. */
  lemma AnswersAreFinal(s: State, e: Event)
    requires Inv(s)
    ensures forall id :: id in s.promises ==> id in Step(s, e).promises && Step(s, e).promises[id] == s.promises[id]
    ensures forall id :: id in s.history.records && id !in s.executions ==>
      (id in s.promises && s.promises[id] == s.history.records[id]) || BeingSettled(s, id, s.history.records[id])
    ensures forall id, status :: id in s.history.records && id !in s.executions && BeingSettled(s, id, status) ==>
      status == s.history.records[id]
  {
    hide Inv, BeingSettled;
    PromisesKept(s, e);
    forall id | id in s.history.records && id !in s.executions
      ensures (id in s.promises && s.promises[id] == s.history.records[id]) ||
        BeingSettled(s, id, s.history.records[id])
      ensures forall status :: BeingSettled(s, id, status) ==> status == s.history.records[id]
    {
      FinishedRecord(s, id);
    }
  }

  lemma PromisesKept(s: State, e: Event)
    ensures forall id :: id in s.promises ==> id in Step(s, e).promises && Step(s, e).promises[id] == s.promises[id]
  {
    hide Prune, BestIndex, RemoveFirst, Tally;
  }

  lemma FinishedRecord(s: State, id: ExecutionId)
    requires Inv(s) && id in s.history.records && id !in s.executions
    ensures (id in s.promises && s.promises[id] == s.history.records[id]) || BeingSettled(s, id, s.history.records[id])
    ensures forall status :: BeingSettled(s, id, status) ==> status == s.history.records[id]
  {
    hide HistoryInv, QueueInv, DrainedInv, PlacesInv, CommandInv, IdInv, AccountInv, OrderInv, RefusalInv, PhaseInv;
    assert RecordOk(id, s.history.records[id], s.executions.Keys, s.running, s.outcomes);
  }

  /** The commands that are outstanding and the outstanding executions name each other. */
  lemma CommandsAreABijection(options: Options, events: seq<Event>)
    ensures var s := Run(options, events);
      && (forall id :: id in s.executions ==>
        s.executions[id].command in s.commands && s.commands[s.executions[id].command] == id)
      && (forall c :: c in s.commands ==> s.commands[c] in s.executions && s.executions[s.commands[c]].command == c)
  {
    hide Run, HistoryInv, QueueInv, DrainedInv, PlacesInv, IdInv, RecordInv, PromiseInv, AccountInv, OrderInv,
      RefusalInv, PhaseInv;
    RunInv(options, events);
  }

  // ---------------------------------------------------------------- eviction

  lemma EarlierWithin(order: seq<ExecutionId>, id: ExecutionId, a: ExecutionId, b: ExecutionId)
    requires Earlier(order + [id], a, b) && b in Listed(order) && id !in Listed(order)
    ensures Earlier(order, a, b)
  {
    var i, j :| 0 <= i < j < |order + [id]| && (order + [id])[i] == a && (order + [id])[j] == b;
    assert order[i] == a && order[j] == b;
  }

  /** What pruning may do to a listing: it drops no live execution, and a finished one only
      if every finished one before it is dropped too. */
  ghost predicate OldestFirst(before: seq<ExecutionId>, after: seq<ExecutionId>, live: set<ExecutionId>) {
    && (Listed(before) - Listed(after)) !! live
    && forall gone, kept ::
         gone in Listed(before) - Listed(after) && kept in Listed(before) && kept in Listed(after) && kept !in live ==>
           Earlier(before, gone, kept)
  }

  lemma PruneOldest(h: History, live: set<ExecutionId>, limit: nat)
    requires WellFormed(h, live)
    ensures OldestFirst(h.order, Prune(h, live, limit).order, live)
  {
    hide Prune, WellFormed, Listed, Earlier;
    PruneKeeps(h, live, limit);
    PruneIsOldestFirst(h, live, limit);
  }

  lemma EnterOldest(order: seq<ExecutionId>, id: ExecutionId, after: seq<ExecutionId>, live: set<ExecutionId>)
    requires OldestFirst(order + [id], after, live) && id !in Listed(order)
    ensures OldestFirst(order, after, live)
  {
    hide Listed, Earlier;
    EnterListed(order, id);
    forall gone, kept | gone in Listed(order) - Listed(after) && kept in Listed(order) && kept in Listed(after) &&
      kept !in live
      ensures Earlier(order, gone, kept)
    {
      EarlierWithin(order, id, gone, kept);
    }
  }

  lemma FinishOldest(s: State, entry: Entry, status: Status)
    requires WellFormed(s.history, s.executions.Keys)
    ensures OldestFirst(s.history.order, Finish(s, entry, status).history.order,
      Finish(s, entry, status).executions.Keys)
  {
    hide Prune, Listed, NoDuplicates, OldestFirst, Tally, Fulfil;
    var live := s.executions - {entry.id};
    PruneOldest(History(s.history.records[entry.id := status], s.history.order), live.Keys,
      s.options.maximumHistorySize);
  }

  lemma SameOldest(order: seq<ExecutionId>, more: seq<ExecutionId>, live: set<ExecutionId>)
    requires more == order || (|more| == |order| + 1 && more[..|order|] == order)
    ensures OldestFirst(order, more, live)
  {
    forall id | id in order
      ensures id in more
    {
      var k :| 0 <= k < |order| && order[k] == id;
      assert more == order || more[..|order|][k] == more[k];
    }
  }

  lemma RefuseOldest(s: State, id: ExecutionId, status: Status)
    requires Inv(s) && id in s.submissions
    ensures OldestFirst(s.history.order, RefuseStep(s, id, status).history.order, s.executions.Keys)
  {
    hide Inv, Prune, NoDuplicates, OldestFirst, Tally, Fulfil;
    HistoryWellFormed(s);
    var h := History(s.history.records[id := status], s.history.order + [id]);
    EnterListed(s.history.order, id);
    PruneOldest(h, s.executions.Keys, s.options.maximumHistorySize);
    EnterOldest(s.history.order, id, RefuseStep(s, id, status).history.order, s.executions.Keys);
  }

  lemma CancelOldest(s: State, id: ExecutionId)
    requires WellFormed(s.history, s.executions.Keys)
    ensures OldestFirst(s.history.order, CancelStep(s, id).history.order, CancelStep(s, id).executions.Keys)
  {
    hide OldestFirst, Finish, WellFormed, Withdrawn;
    SameOldest(s.history.order, s.history.order, s.executions.Keys);
    if id in s.executions && id !in s.running {
      FinishOldest(Withdrawn(s, s.executions[id]), s.executions[id], Cancelled);
    }
  }

  lemma CompleteOldest(s: State, id: ExecutionId, status: Status)
    requires WellFormed(s.history, s.executions.Keys)
    ensures OldestFirst(s.history.order, CompleteStep(s, id, status).history.order,
      CompleteStep(s, id, status).executions.Keys)
  {
    hide OldestFirst, Finish, WellFormed, IsTerminal;
    SameOldest(s.history.order, s.history.order, s.executions.Keys);
    if id in s.executions {
      FinishOldest(s.(reporting := s.reporting[id := status]), s.executions[id], status);
    }
  }

  lemma DrainOldest(s: State)
    requires WellFormed(s.history, s.executions.Keys)
    ensures OldestFirst(s.history.order, DrainStep(s).history.order, DrainStep(s).executions.Keys)
  {
    hide OldestFirst, Finish, WellFormed, Drawn;
    SameOldest(s.history.order, s.history.order, s.executions.Keys);
    if s.drained != [] && s.settling.None? {
      FinishOldest(Drawn(s), s.drained[0], Cancelled);
    }
  }

  lemma EndOldest(s: State)
    requires WellFormed(s.history, s.executions.Keys)
    ensures OldestFirst(s.history.order, EndShutdownStep(s).history.order, EndShutdownStep(s).executions.Keys)
  {
    hide OldestFirst, Prune, WellFormed;
    SameOldest(s.history.order, s.history.order, s.executions.Keys);
    PruneOldest(s.history, s.executions.Keys, s.options.maximumHistorySize);
  }

  lemma DecideOldest(s: State, id: ExecutionId)
    ensures OldestFirst(s.history.order, DecideStep(s, id).history.order, DecideStep(s, id).executions.Keys)
  {
    hide OldestFirst, AcceptStep;
    SameOldest(s.history.order, s.history.order, s.executions.Keys);
    if id in s.submissions && s.submissions[id].Deciding? {
      AcceptOldest(s, id, s.submissions[id].command, s.submissions[id].priority);
    }
  }

  lemma AcceptOldest(s: State, id: ExecutionId, command: CommandId, priority: nat)
    ensures var t := AcceptStep(s, id, command, priority);
      OldestFirst(s.history.order, t.history.order, t.executions.Keys)
  {
    hide OldestFirst;
    SameOldest(s.history.order, s.history.order + [id], s.executions.Keys + {id});
    assert AcceptStep(s, id, command, priority).executions.Keys == s.executions.Keys + {id};
  }

  lemma TakeOldest(s: State)
    ensures OldestFirst(s.history.order, TakeStep(s).history.order, TakeStep(s).executions.Keys)
  {
    hide OldestFirst, BestIndex;
    SameOldest(s.history.order, TakeStep(s).history.order, TakeStep(s).executions.Keys);
  }

  /** No step evicts an outstanding execution, and every step evicts oldest-first. */
  lemma StepEvictsOldest(s: State, e: Event)
    requires Inv(s)
    ensures OldestFirst(s.history.order, Step(s, e).history.order, Step(s, e).executions.Keys)
  {
    hide Inv, OldestFirst, WellFormed, AllocateStep, DecideStep, RefuseStep, CancelStep, TakeStep, CompleteStep,
      BeginShutdownStep, DrainStep, AnswerStep, ReportStep, SettleStep, EndShutdownStep;
    HistoryWellFormed(s);
    SameOldest(s.history.order, s.history.order, s.executions.Keys);
    match e
    case Refuse(id) =>
      if id in s.submissions && s.submissions[id].Refusing? {
        RefuseOldest(s, id, s.submissions[id].status);
        RefuseExecutions(s, id, s.submissions[id].status);
      }
    case Cancel(id) => CancelOldest(s, id);
    case Complete(id, status) => CompleteOldest(s, id, status);
    case DrainOne => DrainOldest(s);
    case EndShutdown => EndOldest(s);
    case Decide(id) => DecideOldest(s, id);
    case Take => TakeOldest(s);
    case _ =>
  }

  lemma RefuseExecutions(s: State, id: ExecutionId, status: Status)
    ensures RefuseStep(s, id, status).executions == s.executions
  {
  }
}
