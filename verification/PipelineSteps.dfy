/** Every step of the pipeline keeps the invariant. */
module PipelineSteps {
  import opened Basics
  import opened Commands
  import opened PipelineHistory
  import opened PipelineModel
  import opened PipelineInvariant

  // ---------------------------------------------------------------- removing from the queue

  lemma RemovedOrder(queue: seq<Entry>, i: nat, nextSequence: nat)
    requires OrderInv(queue, nextSequence) && i < |queue|
    ensures OrderInv(RemoveAt(queue, i), nextSequence)
  {
    hide RemoveAt;
    RemoveAtIs(queue, i);
  }

  lemma RemovedQueue(queue: seq<Entry>, i: nat, executions: map<ExecutionId, Entry>, running: set<ExecutionId>)
    requires QueueInv(queue, executions, running) && i < |queue|
    ensures QueueInv(RemoveAt(queue, i), executions, running)
    ensures forall j :: 0 <= j < |RemoveAt(queue, i)| ==> RemoveAt(queue, i)[j].id != queue[i].id
  {
    hide RemoveAt, Holds;
    RemoveAtIs(queue, i);
  }

  // ---------------------------------------------------------------- completing an execution

  lemma QueueFinish(queue: seq<Entry>, executions: map<ExecutionId, Entry>, running: set<ExecutionId>, id: ExecutionId)
    requires QueueInv(queue, executions, running) && forall j :: 0 <= j < |queue| ==> queue[j].id != id
    ensures QueueInv(queue, executions - {id}, running - {id})
  {
  }

  lemma DrainedFinish(drained: seq<Entry>, executions: map<ExecutionId, Entry>, running: set<ExecutionId>,
      outcomes: map<ExecutionId, Status>, id: ExecutionId, status: Status)
    requires DrainedInv(drained, executions, running, outcomes)
    requires forall i :: 0 <= i < |drained| && drained[i].id == id ==> status == Cancelled
    requires id in executions ==> id !in outcomes
    ensures DrainedInv(drained, executions - {id}, running - {id}, Fulfil(outcomes, id, status))
  {
  }

  ghost predicate Keeps(before: seq<Entry>, after: seq<Entry>, id: ExecutionId) {
    forall e :: e in before && e.id != id ==> e in after
  }

  lemma PlacesFinish(
      queue: seq<Entry>, executions: map<ExecutionId, Entry>, running: set<ExecutionId>, drained: seq<Entry>,
      queueAfter: seq<Entry>, drainedAfter: seq<Entry>, id: ExecutionId)
    requires PlacesInv(queue, executions, running, drained) && Keeps(queue, queueAfter, id)
    requires Keeps(drained, drainedAfter, id)
    ensures PlacesInv(queueAfter, executions - {id}, running - {id}, drainedAfter)
  {
    forall other | other in executions - {id}
      ensures Placed(other, queueAfter, executions - {id}, running - {id}, drainedAfter)
    {
      assert Placed(other, queue, executions, running, drained);
    }
  }

  lemma RunningFinish(s: State, id: ExecutionId)
    requires s.runningCount == |s.running| <= s.options.workerCount
    ensures (if id in s.running && s.runningCount > 0 then s.runningCount - 1 else s.runningCount) == |s.running - {id}|
    ensures |s.running - {id}| <= s.options.workerCount
  {
    if id !in s.running {
      assert s.running - {id} == s.running;
    }
  }

  lemma IdFinish(
      next: ExecutionId, submissions: set<ExecutionId>, live: set<ExecutionId>, answered: set<ExecutionId>,
      id: ExecutionId)
    requires IdInv(next, submissions, live, answered) && (id in live || id in answered)
    ensures IdInv(next, submissions, live - {id}, answered + {id})
  {
    hide Ids;
  }

  lemma IdRefuse(
      next: ExecutionId, submissions: set<ExecutionId>, live: set<ExecutionId>, answered: set<ExecutionId>,
      id: ExecutionId)
    requires IdInv(next, submissions, live, answered) && id in submissions
    ensures IdInv(next, submissions - {id}, live, answered + {id})
    ensures IdInv(next, submissions - {id}, live + {id}, answered)
  {
    hide Ids;
  }

  lemma FulfilKeys(outcomes: map<ExecutionId, Status>, id: ExecutionId, status: Status)
    ensures Fulfil(outcomes, id, status).Keys == outcomes.Keys + {id}
  {
  }

  lemma ExecutionKeys(executions: map<ExecutionId, Entry>, id: ExecutionId)
    ensures (executions - {id}).Keys == executions.Keys - {id}
    ensures |executions.Keys - {id}| == |executions.Keys| - (if id in executions then 1 else 0)
  {
    if id !in executions {
      assert executions.Keys - {id} == executions.Keys;
    }
  }

  /** The parts that do not depend on who completes the execution. */
  lemma FinishCommon(s: State, entry: Entry, status: Status)
    requires Inv(s) && IsTerminal(status)
    requires entry.id in s.executions ==> s.executions[entry.id] == entry
    requires entry.command in s.commands ==> s.commands[entry.command] == entry.id
    requires entry.id in s.executions || (entry.id in s.outcomes && s.outcomes[entry.id] == status)
    ensures var t := Finish(s, entry, status);
      && HistoryInv(t.history, t.executions.Keys,
        if entry.id in s.history.records then s.orphaned else s.orphaned + {entry.id}, s.options.maximumHistorySize)
      && CommandInv(t.commands, t.executions, s.drained)
      && IdInv(t.nextId, t.submissions.Keys, t.executions.Keys, t.outcomes.Keys)
      && RecordInv(t.history.records, t.executions.Keys, t.running, t.outcomes)
      && t.runningCount == |t.running| <= t.options.workerCount
  {
    hide HistoryInv, QueueInv, DrainedInv, PlacesInv, CommandInv, IdInv, RecordInv, PromiseInv, AccountInv, OrderInv,
      RefusalInv, Prune, IsTerminal, Fulfil, Tally;
    ExecutionKeys(s.executions, entry.id);
    FulfilKeys(s.outcomes, entry.id, status);
    HistoryFinish(s.history, s.executions.Keys, s.orphaned, s.options.maximumHistorySize, entry.id, status);
    CommandFinish(s.commands, s.executions, s.drained, entry);
    IdFinish(s.nextId, s.submissions.Keys, s.executions.Keys, s.outcomes.Keys, entry.id);
    HistoryWellFormed(s);
    LiveUnanswered(s, entry.id);
    RecordFinish(s.history, s.executions.Keys, s.options.maximumHistorySize, s.running, s.outcomes, entry.id, status);
    RunningFinish(s, entry.id);
  }

  lemma HistoryWellFormed(s: State)
    requires Inv(s)
    ensures WellFormed(s.history, s.executions.Keys)
    ensures forall id :: id in s.executions ==> id in s.history.records
    ensures forall id :: id in s.submissions ==> id !in s.history.records && id !in s.executions && id !in s.outcomes
  {
    hide Ids, NoDuplicates;
    assert forall id :: id in s.history.records ==> id in s.executions || id in s.outcomes by {
      forall id | id in s.history.records
        ensures id in s.executions || id in s.outcomes
      {
        assert RecordOk(id, s.history.records[id], s.executions.Keys, s.running, s.outcomes);
      }
    }
  }

  lemma LiveUnanswered(s: State, id: ExecutionId)
    requires Inv(s)
    ensures id in s.executions ==> id !in s.outcomes
  {
  }

  // ---------------------------------------------------------------- cancel, complete, drain

  lemma DrainedOther(s: State, entry: Entry)
    requires Inv(s) && entry.id in s.executions && s.executions[entry.id] == entry
    ensures Distinct(s.drained)
    ensures forall i :: 0 <= i < |s.drained| && s.drained[i].id == entry.id ==> s.drained[i] == entry
    ensures entry.command in s.commands && s.commands[entry.command] == entry.id
    ensures forall i :: 0 <= i < |s.queue| && s.queue[i].id == entry.id ==> s.queue[i] == entry
  {
    hide HistoryInv, PlacesInv, IdInv, RecordInv, PromiseInv, AccountInv, OrderInv, RefusalInv, PhaseInv;
  }

  lemma AccountFinish(s: State, entry: Entry, status: Status)
    requires Inv(s) && entry.id in s.executions && s.executions[entry.id] == entry
    ensures AccountInv(Tally(s.metrics, status), (s.executions - {entry.id}).Keys, s.drained, s.refused, s.doubled,
              s.windowCancels + (if entry in s.drained then 1 else 0))
  {
    hide HistoryInv, QueueInv, DrainedInv, PlacesInv, CommandInv, IdInv, RecordInv, PromiseInv, OrderInv, RefusalInv,
      PhaseInv, Tally, Total, Gone;
    DrainedOther(s, entry);
    ExecutionKeys(s.executions, entry.id);
    GoneWithout(s.drained, s.executions.Keys, entry);
    TallyTotals(s.metrics, status);
  }

  /** Completing an outstanding execution that has left the queue. */
  lemma FinishLive(s: State, entry: Entry, status: Status, queue: seq<Entry>, late: nat,
      answering: map<ExecutionId, Status>, reporting: map<ExecutionId, Status>)
    requires Inv(s) && IsTerminal(status) && entry.id in s.executions && s.executions[entry.id] == entry
    requires status == Cancelled || entry.id in s.running
    requires late == if entry in s.drained then 1 else 0
    requires QueueInv(queue, s.executions, s.running) && OrderInv(queue, s.nextSequence)
    requires Keeps(s.queue, queue, entry.id)
    requires |queue| <= |s.queue| && forall j :: 0 <= j < |queue| ==> queue[j].id != entry.id
    requires PromiseInv(Fulfil(s.outcomes, entry.id, status), s.promises, answering, reporting, s.settling)
    requires s.phase == Closed ==> reporting == map[]
    ensures var leaving := s.(queue := queue, windowCancels := s.windowCancels + late,
                              answering := answering, reporting := reporting);
      Inv(Finish(leaving, entry, status))
  {
    hide HistoryInv, QueueInv, DrainedInv, PlacesInv, CommandInv, IdInv, RecordInv, PromiseInv, AccountInv, OrderInv,
      RefusalInv, Prune, IsTerminal, Fulfil, Tally;
    DrainedOther(s, entry);
    HistoryWellFormed(s);
    FinishCommon(s, entry, status);
    QueueFinish(queue, s.executions, s.running, entry.id);
    RunningNotDrained(s, entry.id);
    LiveUnanswered(s, entry.id);
    DrainedFinish(s.drained, s.executions, s.running, s.outcomes, entry.id, status);
    assert Keeps(s.drained, s.drained, entry.id);
    PlacesFinish(s.queue, s.executions, s.running, s.drained, queue, s.drained, entry.id);
    AccountFinish(s, entry, status);
  }

  /** A new outcome comes with somebody who is going to set the promise. */
  lemma PromiseFinish(s: State, id: ExecutionId, status: Status)
    requires PromiseInv(s.outcomes, s.promises, s.answering, s.reporting, s.settling)
    requires id in s.outcomes ==> s.outcomes[id] == status
    ensures PromiseInv(Fulfil(s.outcomes, id, status), s.promises, s.answering[id := status], s.reporting, s.settling)
    ensures PromiseInv(Fulfil(s.outcomes, id, status), s.promises, s.answering, s.reporting[id := status], s.settling)
    ensures s.settling.None? && status == Cancelled ==>
      PromiseInv(Fulfil(s.outcomes, id, status), s.promises, s.answering, s.reporting, Some(id))
  {
    hide Agrees;
    AgreesAfter(s.promises, s.outcomes, id, status);
    AgreesAfter(s.answering, s.outcomes, id, status);
    AgreesAfter(s.reporting, s.outcomes, id, status);
  }

  lemma AgreesAfter(some: map<ExecutionId, Status>, outcomes: map<ExecutionId, Status>, id: ExecutionId, status: Status)
    requires Agrees(some, outcomes) && (id in outcomes ==> outcomes[id] == status)
    ensures Agrees(some, Fulfil(outcomes, id, status)) && Agrees(some[id := status], Fulfil(outcomes, id, status))
  {
  }

  lemma RunningNotDrained(s: State, id: ExecutionId)
    requires Inv(s)
    ensures id in s.running ==> forall i :: 0 <= i < |s.drained| ==> s.drained[i].id != id
    ensures id in s.running ==> forall i :: 0 <= i < |s.queue| ==> s.queue[i].id != id
  {
  }

  lemma CancelInv(s: State, id: ExecutionId)
    requires Inv(s)
    ensures Inv(CancelStep(s, id))
  {
    hide HistoryInv, QueueInv, DrainedInv, PlacesInv, CommandInv, IdInv, RecordInv, PromiseInv, AccountInv, OrderInv,
      RefusalInv, Finish, RemoveAt;
    if id in s.executions && id !in s.running {
      var entry := s.executions[id];
      ExecutionNamed(s, id);
      CancelQueue(s, entry);
      LiveUnanswered(s, id);
      PromiseFinish(s, id, Cancelled);
      FinishLive(s, entry, Cancelled, RemoveFirst(s.queue, entry), if entry in s.drained then 1 else 0,
        s.answering[id := Cancelled], s.reporting);
    }
  }

  lemma ExecutionNamed(s: State, id: ExecutionId)
    requires Inv(s) && id in s.executions
    ensures s.executions[id].id == id
  {
    assert Placed(id, s.queue, s.executions, s.running, s.drained);
  }

  lemma CancelQueue(s: State, entry: Entry)
    requires Inv(s) && entry.id in s.executions && s.executions[entry.id] == entry
    ensures var queue := RemoveFirst(s.queue, entry);
      && QueueInv(queue, s.executions, s.running) && OrderInv(queue, s.nextSequence) && Keeps(s.queue, queue, entry.id)
      && |queue| <= |s.queue| && forall j :: 0 <= j < |queue| ==> queue[j].id != entry.id
  {
    hide HistoryInv, QueueInv, DrainedInv, PlacesInv, CommandInv, IdInv, RecordInv, PromiseInv, AccountInv, OrderInv,
      RefusalInv, RemoveAt, RemoveFirst;
    DrainedOther(s, entry);
    if entry in s.queue {
      var i := RemoveFirstFinds(s.queue, entry);
      RemovedQueue(s.queue, i, s.executions, s.running);
      RemovedOrder(s.queue, i, s.nextSequence);
      RemoveAtIs(s.queue, i);
    } else {
      assert s.queue[..|s.queue|] == s.queue;
      RemoveFirstIs(s.queue, entry, |s.queue|);
    }
  }

  lemma CompleteInv(s: State, id: ExecutionId, status: Status)
    requires Inv(s)
    ensures Inv(CompleteStep(s, id, status))
  {
    hide HistoryInv, QueueInv, DrainedInv, PlacesInv, CommandInv, IdInv, RecordInv, PromiseInv, AccountInv, OrderInv,
      RefusalInv, Finish, IsTerminal;
    if id in s.running && id in s.executions && IsTerminal(status) {
      ExecutionNamed(s, id);
      RunningNotDrained(s, id);
      assert Keeps(s.queue, s.queue, id);
      LiveUnanswered(s, id);
      PromiseFinish(s, id, status);
      assert s.(queue := s.queue, windowCancels := s.windowCancels + 0, answering := s.answering) == s;
      FinishLive(s, s.executions[id], status, s.queue, 0, s.answering, s.reporting[id := status]);
    }
  }

  lemma DrainInv(s: State)
    requires Inv(s)
    ensures Inv(DrainStep(s))
  {
    hide HistoryInv, QueueInv, DrainedInv, PlacesInv, CommandInv, IdInv, RecordInv, PromiseInv, AccountInv, OrderInv,
      RefusalInv, Prune, IsTerminal, Fulfil, Tally;
    if s.drained != [] && s.settling.None? {
      var entry := s.drained[0];
      DrainHead(s);
      LiveUnanswered(s, entry.id);
      PromiseFinish(s, entry.id, Cancelled);
      FinishCommon(s, entry, Cancelled);
      QueueFinish(s.queue, s.executions, s.running, entry.id);
      DrainedFinish(s.drained[1..], s.executions, s.running, s.outcomes, entry.id, Cancelled);
      PlacesFinish(s.queue, s.executions, s.running, s.drained, s.queue, s.drained[1..], entry.id);
      var live := s.executions - {entry.id};
      CommandTail(s.commands - {entry.command}, live, s.drained);
      AccountDrain(s);
    }
  }

  lemma CommandTail(commands: map<CommandId, ExecutionId>, executions: map<ExecutionId, Entry>, drained: seq<Entry>)
    requires CommandInv(commands, executions, drained) && drained != []
    ensures CommandInv(commands, executions, drained[1..])
  {
  }

  lemma DrainHead(s: State)
    requires Inv(s) && s.drained != []
    ensures var entry := s.drained[0];
      && IsTerminal(Cancelled) && s.queue == []
      && (entry.id in s.executions ==> s.executions[entry.id] == entry)
      && (entry.command in s.commands ==> s.commands[entry.command] == entry.id)
      && (entry.id in s.executions || (entry.id in s.outcomes && s.outcomes[entry.id] == Cancelled))
      && DrainedInv(s.drained[1..], s.executions, s.running, s.outcomes)
      && Keeps(s.drained, s.drained[1..], entry.id) && Keeps(s.queue, s.queue, entry.id)
  {
    hide HistoryInv, QueueInv, PlacesInv, IdInv, RecordInv, PromiseInv, AccountInv, OrderInv, RefusalInv;
    assert s.drained == [s.drained[0]] + s.drained[1..];
    assert DrainedEntry(s.drained[0], s.executions, s.outcomes);
  }

  lemma AccountDrain(s: State)
    requires Inv(s) && s.drained != []
    ensures var entry := s.drained[0];
      AccountInv(Tally(s.metrics, Cancelled), (s.executions - {entry.id}).Keys, s.drained[1..], s.refused,
        s.doubled + (if entry.id in s.executions then 0 else 1), s.windowCancels)
  {
    hide HistoryInv, QueueInv, DrainedInv, PlacesInv, CommandInv, IdInv, RecordInv, PromiseInv, AccountInv, OrderInv,
      RefusalInv, PhaseInv, Tally;
    ExecutionKeys(s.executions, s.drained[0].id);
    DrainedOnce(s.drained, s.executions, s.running, s.outcomes);
    AccountDrawn(s.metrics, s.executions.Keys, s.drained, s.refused, s.doubled, s.windowCancels);
  }

  lemma AccountDrawn(
      m: Metrics, live: set<ExecutionId>, drained: seq<Entry>, refused: nat, doubled: nat, windowCancels: nat)
    requires AccountInv(m, live, drained, refused, doubled, windowCancels) && drained != [] && Distinct(drained[1..])
    requires forall i :: 0 <= i < |drained[1..]| ==> drained[1..][i].id != drained[0].id
    ensures AccountInv(Tally(m, Cancelled), live - {drained[0].id}, drained[1..], refused,
      doubled + (if drained[0].id in live then 0 else 1), windowCancels)
  {
    hide Tally, Total;
    TallyTotals(m, Cancelled);
    if drained[0].id in live {
      GoneWithout(drained[1..], live, drained[0]);
    } else {
      assert live - {drained[0].id} == live;
    }
  }

  lemma DrainedOnce(
      drained: seq<Entry>, executions: map<ExecutionId, Entry>, running: set<ExecutionId>,
      outcomes: map<ExecutionId, Status>)
    requires DrainedInv(drained, executions, running, outcomes) && drained != []
    ensures Distinct(drained[1..]) && drained[0] !in drained[1..]
    ensures forall i :: 0 <= i < |drained[1..]| ==> drained[1..][i].id != drained[0].id
  {
  }

  // ---------------------------------------------------------------- the other steps

  lemma AllocateInv(s: State, command: CommandId, priority: nat, verdict: Option<Status>)
    requires Inv(s) && (verdict.Some? ==> IsTerminal(verdict.value))
    ensures Inv(AllocateStep(s, command, priority, verdict))
  {
    hide HistoryInv, QueueInv, DrainedInv, PlacesInv, CommandInv, IdInv, RecordInv, PromiseInv, AccountInv, OrderInv,
      IsTerminal;
    IdAllocate(s.nextId, s.submissions.Keys, s.executions.Keys, s.outcomes.Keys);
    assert AllocateStep(s, command, priority, verdict).submissions.Keys == s.submissions.Keys + {s.nextId};
  }

  lemma RefuseInv(s: State, id: ExecutionId, status: Status)
    requires Inv(s) && id in s.submissions && IsTerminal(status)
    ensures Inv(RefuseStep(s, id, status))
  {
    hide HistoryInv, QueueInv, DrainedInv, PlacesInv, CommandInv, IdInv, RecordInv, PromiseInv, AccountInv, OrderInv,
      Prune, IsTerminal, Fulfil, Tally;
    HistoryWellFormed(s);
    HistoryRefuse(s.history, s.executions.Keys, s.orphaned, s.options.maximumHistorySize, id, status);
    RunningLive(s);
    RecordRefuse(s.history, s.executions.Keys, s.options.maximumHistorySize, s.running, s.outcomes, id, status);
    IdRefuse(s.nextId, s.submissions.Keys, s.executions.Keys, s.outcomes.Keys, id);
    FulfilKeys(s.outcomes, id, status);
    AccountRefuse(s, status);
    PromiseFinish(s, id, status);
    DrainedOutcomes(s.drained, s.executions, s.running, s.outcomes, id, status);
    assert (s.submissions - {id}).Keys == s.submissions.Keys - {id};
  }

  lemma AccountRefuse(s: State, status: Status)
    requires Inv(s)
    ensures AccountInv(Tally(s.metrics, status), s.executions.Keys, s.drained, s.refused + 1, s.doubled,
      s.windowCancels)
  {
    hide HistoryInv, QueueInv, DrainedInv, PlacesInv, CommandInv, IdInv, RecordInv, PromiseInv, OrderInv, RefusalInv,
      PhaseInv, Tally, Total;
    TallyTotals(s.metrics, status);
  }

  lemma RunningLive(s: State)
    requires Inv(s)
    ensures s.running <= s.executions.Keys
  {
  }

  lemma DrainedOutcomes(drained: seq<Entry>, executions: map<ExecutionId, Entry>, running: set<ExecutionId>,
      outcomes: map<ExecutionId, Status>, id: ExecutionId, status: Status)
    requires DrainedInv(drained, executions, running, outcomes)
    ensures DrainedInv(drained, executions, running, Fulfil(outcomes, id, status))
  {
  }

  lemma AcceptInv(s: State, id: ExecutionId, command: CommandId, priority: nat)
    requires Inv(s) && id in s.submissions && CanAccept(s, command)
    ensures Inv(AcceptStep(s, id, command, priority))
  {
    hide HistoryInv, QueueInv, DrainedInv, PlacesInv, CommandInv, IdInv, RecordInv, PromiseInv, AccountInv, OrderInv,
      IsTerminal;
    var entry := Entry(id, command, priority, s.nextSequence);
    HistoryWellFormed(s);
    HistoryAccept(s.history, s.executions.Keys, s.orphaned, s.options.maximumHistorySize, id);
    IdRefuse(s.nextId, s.submissions.Keys, s.executions.Keys, s.outcomes.Keys, id);
    CommandAccept(s.commands, s.executions, entry);
    RunningLive(s);
    AcceptPlaces(s.queue, s.executions, s.running, entry);
    AcceptOrder(s.queue, s.nextSequence, entry);
    RecordAccept(s.history.records, s.executions.Keys, s.running, s.outcomes, id);
    assert s.executions[id := entry].Keys == s.executions.Keys + {id};
    assert (s.submissions - {id}).Keys == s.submissions.Keys - {id};
    NoneDrained(s.executions[id := entry], s.running, s.outcomes);
    AccountAccept(s, id);
  }

  lemma AccountAccept(s: State, id: ExecutionId)
    requires Inv(s) && s.drained == [] && id !in s.executions
    ensures AccountInv(s.metrics.(accepted := s.metrics.accepted + 1), s.executions.Keys + {id}, [], s.refused,
      s.doubled, s.windowCancels)
  {
    hide HistoryInv, QueueInv, DrainedInv, PlacesInv, CommandInv, IdInv, RecordInv, PromiseInv, OrderInv, RefusalInv,
      PhaseInv;
    assert |s.executions.Keys + {id}| == |s.executions.Keys| + 1;
  }

  lemma NoneDrained(executions: map<ExecutionId, Entry>, running: set<ExecutionId>, outcomes: map<ExecutionId, Status>)
    ensures DrainedInv([], executions, running, outcomes)
  {
  }

  lemma AcceptPlaces(queue: seq<Entry>, executions: map<ExecutionId, Entry>, running: set<ExecutionId>, entry: Entry)
    requires QueueInv(queue, executions, running) && PlacesInv(queue, executions, running, [])
    requires entry.id !in executions
    ensures QueueInv(queue + [entry], executions[entry.id := entry], running)
    ensures PlacesInv(queue + [entry], executions[entry.id := entry], running, [])
  {
    var after := executions[entry.id := entry];
    forall id | id in after
      ensures Placed(id, queue + [entry], after, running, [])
    {
      assert id in executions ==> Placed(id, queue, executions, running, []);
      assert (queue + [entry])[|queue|] == entry;
    }
  }

  lemma AcceptOrder(queue: seq<Entry>, nextSequence: nat, entry: Entry)
    requires OrderInv(queue, nextSequence) && entry.sequence == nextSequence
    ensures OrderInv(queue + [entry], nextSequence + 1)
  {
  }

  lemma RecordAccept(
      records: map<ExecutionId, Status>, live: set<ExecutionId>, running: set<ExecutionId>,
      outcomes: map<ExecutionId, Status>, id: ExecutionId)
    requires RecordInv(records, live, running, outcomes) && id !in running
    ensures RecordInv(records[id := Queued], live + {id}, running, outcomes)
  {
    hide IsTerminal;
  }

  lemma DecideInv(s: State, id: ExecutionId)
    requires Inv(s)
    ensures Inv(DecideStep(s, id))
  {
    hide HistoryInv, QueueInv, DrainedInv, PlacesInv, CommandInv, IdInv, RecordInv, PromiseInv, AccountInv, OrderInv,
      AcceptStep;
    if id in s.submissions && s.submissions[id].Deciding? {
      var submission := s.submissions[id];
      if CanAccept(s, submission.command) {
        AcceptInv(s, id, submission.command, submission.priority);
      } else {
        assert s.submissions[id := Refusing(Rejected)].Keys == s.submissions.Keys;
      }
    }
  }

  lemma TakePlaces(
      queue: seq<Entry>, executions: map<ExecutionId, Entry>, running: set<ExecutionId>, drained: seq<Entry>, i: nat)
    requires QueueInv(queue, executions, running) && PlacesInv(queue, executions, running, drained) && i < |queue|
    ensures QueueInv(RemoveAt(queue, i), executions, running + {queue[i].id})
    ensures PlacesInv(RemoveAt(queue, i), executions, running + {queue[i].id}, drained)
  {
    hide RemoveAt;
    RemovedQueue(queue, i, executions, running);
    RemoveAtIs(queue, i);
    assert Holds(executions, queue[i]);
    var after := running + {queue[i].id};
    forall id | id in executions
      ensures Placed(id, RemoveAt(queue, i), executions, after, drained)
    {
      assert Placed(id, queue, executions, running, drained);
    }
  }

  lemma TakeRecord(
      records: map<ExecutionId, Status>, live: set<ExecutionId>, running: set<ExecutionId>,
      outcomes: map<ExecutionId, Status>, id: ExecutionId)
    requires RecordInv(records, live, running, outcomes) && id in live
    ensures RecordInv(records[id := Running], live, running + {id}, outcomes)
  {
    hide IsTerminal;
  }

  lemma TakeInv(s: State)
    requires Inv(s)
    ensures Inv(TakeStep(s))
  {
    hide HistoryInv, QueueInv, DrainedInv, PlacesInv, CommandInv, IdInv, RecordInv, PromiseInv, AccountInv, OrderInv,
      RefusalInv, PhaseInv, BestIndex, RemoveAt;
    if s.queue != [] && |s.running| + |s.reporting| < s.options.workerCount {
      var i := BestIndex(s.queue, 0, 1);
      var entry := s.queue[i];
      TakeHeld(s, i);
      TakePlaces(s.queue, s.executions, s.running, s.drained, i);
      RemoveAtIs(s.queue, i);
      RemovedOrder(s.queue, i, s.nextSequence);
      HistoryTake(s.history, s.executions.Keys, s.orphaned, s.options.maximumHistorySize, entry.id);
      TakeRecord(s.history.records, s.executions.Keys, s.running, s.outcomes, entry.id);
      TakePhase(s);
      NoneDrained(s.executions, s.running + {entry.id}, s.outcomes);
      AccountTake(s);
    }
  }

  lemma TakePhase(s: State)
    requires PhaseInv(s) && s.queue != [] && |s.running| + |s.reporting| < s.options.workerCount
    requires s.queue[BestIndex(s.queue, 0, 1)].id !in s.running
    ensures PhaseInv(TakeStep(s)) && s.drained == []
  {
    hide BestIndex;
    var entry := s.queue[BestIndex(s.queue, 0, 1)];
    assert |s.running + {entry.id}| == |s.running| + 1;
  }

  lemma AccountTake(s: State)
    requires Inv(s)
    ensures AccountInv(s.metrics.(started := s.metrics.started + 1), s.executions.Keys, s.drained, s.refused,
      s.doubled, s.windowCancels)
  {
    hide HistoryInv, QueueInv, DrainedInv, PlacesInv, CommandInv, IdInv, RecordInv, PromiseInv, OrderInv, RefusalInv,
      PhaseInv;
  }

  lemma TakeHeld(s: State, i: nat)
    requires Inv(s) && i < |s.queue|
    ensures s.queue[i].id in s.executions && s.queue[i].id !in s.running && s.drained == []
  {
    assert Holds(s.executions, s.queue[i]);
  }

  lemma BeginShutdownInv(s: State)
    requires Inv(s)
    ensures Inv(BeginShutdownStep(s))
  {
    hide HistoryInv, QueueInv, DrainedInv, PlacesInv, CommandInv, IdInv, RecordInv, PromiseInv, OrderInv, RefusalInv,
      Total;
    if s.phase == Open {
      BeginDrained(s.queue, s.executions, s.running, s.outcomes, s.commands);
      BeginPlaces(s.queue, s.executions, s.running);
      BeginGone(s.queue, s.executions, s.running);
      assert OrderInv([], s.nextSequence) by { NoOrder(s.nextSequence); }
    }
  }

  lemma NoOrder(nextSequence: nat)
    ensures OrderInv([], nextSequence)
  {
  }

  lemma BeginDrained(
      queue: seq<Entry>, executions: map<ExecutionId, Entry>, running: set<ExecutionId>,
      outcomes: map<ExecutionId, Status>, commands: map<CommandId, ExecutionId>)
    requires QueueInv(queue, executions, running) && CommandInv(commands, executions, [])
    ensures DrainedInv(queue, executions, running, outcomes) && CommandInv(commands, executions, queue)
    ensures QueueInv([], executions, running)
  {
    forall i | 0 <= i < |queue|
      ensures Holds(executions, queue[i]) && commands[queue[i].command] == queue[i].id
    {
    }
  }

  lemma BeginPlaces(queue: seq<Entry>, executions: map<ExecutionId, Entry>, running: set<ExecutionId>)
    requires PlacesInv(queue, executions, running, [])
    ensures PlacesInv([], executions, running, queue)
  {
    forall id | id in executions
      ensures Placed(id, [], executions, running, queue)
    {
      assert Placed(id, queue, executions, running, []);
    }
  }

  lemma {:induction false} BeginGone(queue: seq<Entry>, executions: map<ExecutionId, Entry>, running: set<ExecutionId>)
    requires QueueInv(queue, executions, running)
    ensures Gone(queue, executions.Keys) == 0
  {
    if queue != [] {
      assert Holds(executions, queue[0]);
      BeginGone(queue[1..], executions, running);
    }
  }

  lemma EndShutdownInv(s: State)
    requires Inv(s)
    ensures Inv(EndShutdownStep(s))
  {
    hide QueueInv, DrainedInv, PlacesInv, CommandInv, IdInv, RecordInv, PromiseInv, AccountInv, OrderInv, RefusalInv,
      Prune, Covered;
    PruneCovered(s.history, s.executions.Keys, s.orphaned, s.options.maximumHistorySize);
    HistoryWellFormed(s);
    RecordPrune(s.history, s.executions.Keys, s.options.maximumHistorySize, s.running, s.outcomes);
  }

  lemma PromiseSet(outcomes: map<ExecutionId, Status>, promises: map<ExecutionId, Status>, answering: map<ExecutionId,
      Status>,
                   reporting: map<ExecutionId, Status>, settling: Option<ExecutionId>, id: ExecutionId)
    requires PromiseInv(outcomes, promises, answering, reporting, settling)
    ensures id in answering ==>
      PromiseInv(outcomes, Fulfil(promises, id, answering[id]), answering - {id}, reporting, settling)
    ensures id in reporting ==>
      PromiseInv(outcomes, Fulfil(promises, id, reporting[id]), answering, reporting - {id}, settling)
    ensures settling == Some(id) ==> PromiseInv(outcomes, Fulfil(promises, id, Cancelled), answering, reporting, None)
  {
  }

  lemma SetPromiseInv(s: State, e: Event)
    requires Inv(s) && (e.Answer? || e.Report? || e.SettleDrained?)
    ensures Inv(Step(s, e))
  {
    hide HistoryInv, QueueInv, DrainedInv, PlacesInv, CommandInv, IdInv, RecordInv, PromiseInv, AccountInv, OrderInv,
      RefusalInv, Fulfil;
    if !e.SettleDrained? {
      PromiseSet(s.outcomes, s.promises, s.answering, s.reporting, s.settling, e.id);
    } else if s.settling.Some? {
      PromiseSet(s.outcomes, s.promises, s.answering, s.reporting, s.settling, s.settling.value);
    }
  }

  lemma StepInv(s: State, e: Event)
    requires Inv(s)
    ensures Inv(Step(s, e))
  {
    hide HistoryInv, QueueInv, DrainedInv, PlacesInv, CommandInv, IdInv, RecordInv, PromiseInv, AccountInv, OrderInv,
      PhaseInv, AllocateStep, DecideStep, RefuseStep, CancelStep, TakeStep, CompleteStep, BeginShutdownStep,
      DrainStep, EndShutdownStep, AnswerStep, ReportStep, SettleStep;
    match e
    case Allocate(command, priority, verdict) =>
      if verdict.None? || IsTerminal(verdict.value) {
        AllocateInv(s, command, priority, verdict);
      }
    case Decide(id) => DecideInv(s, id);
    case Refuse(id) =>
      if id in s.submissions && s.submissions[id].Refusing? {
        RefuseInv(s, id, s.submissions[id].status);
      }
    case Cancel(id) => CancelInv(s, id);
    case Take => TakeInv(s);
    case Complete(id, status) => CompleteInv(s, id, status);
    case BeginShutdown => BeginShutdownInv(s);
    case DrainOne => DrainInv(s);
    case Answer(_) => SetPromiseInv(s, e);
    case Report(_) => SetPromiseInv(s, e);
    case SettleDrained => SetPromiseInv(s, e);
    case EndShutdown => EndShutdownInv(s);
  }

  lemma {:induction false} RunInv(options: Options, events: seq<Event>)
    ensures Inv(Run(options, events))
  {
    hide Inv, Step;
    if events == [] {
      InitialInv(options);
    } else {
      RunInv(options, events[..|events| - 1]);
      StepInv(Run(options, events[..|events| - 1]), events[|events| - 1]);
    }
  }
}
