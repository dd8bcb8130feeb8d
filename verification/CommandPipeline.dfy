/** The pipeline's critical sections as its methods perform them, each shown to take the step
    of the state machine that the interleavings are built from. */
module CommandPipeline {
  import opened Basics
  import opened Commands
  import opened PipelineHistory
  import opened PipelineModel
  import opened PipelineInvariant
  import opened PipelineSteps

  class Pipeline {
    /** The pipeline's data members, with the positions of its callers and workers. */
    var s: State

    constructor (options: Options)
      requires options.Valid()
      ensures Inv(s) && s == Initial(options)
    {
      s := Initial(options);
      new;
      InitialInv(options);
    }

    /** The critical section of a submission that decides about it. */
    method SubmitLocked(id: ExecutionId) returns (accepted: bool)
      requires Inv(s) && id in s.submissions && s.submissions[id].Deciding?
      modifies this
      ensures Inv(s) && s == DecideStep(old(s), id)
      ensures accepted <==>
        && old(s.phase) == Open && old(s).submissions[id].command !in old(s.commands)
        && |old(s.queue)| < old(s.options.maximumQueueSize)
      ensures accepted <==> id in s.executions
      ensures accepted ==>
        && s.queue == old(s.queue) + [s.executions[id]] && s.executions[id].id == id
        && s.executions[id].command == old(s).submissions[id].command
        && s.executions[id].priority == old(s).submissions[id].priority
        && s.executions[id].sequence == old(s.nextSequence)
      ensures !accepted ==> s == old(s).(submissions := old(s.submissions)[id := Refusing(Rejected)])
    {
      hide Inv;
      DecideInv(s, id);
      HistoryWellFormed(s);
      var submission := s.submissions[id];
      accepted := s.phase == Open && submission.command !in s.commands && |s.queue| < s.options.maximumQueueSize;
      if accepted {
        var entry := Entry(id, submission.command, submission.priority, s.nextSequence);
        s := s.(nextSequence := s.nextSequence + 1,
                submissions := s.submissions - {id},
                history := History(s.history.records[id := Queued], s.history.order + [id]),
                executions := s.executions[id := entry],
                commands := s.commands[submission.command := id],
                queue := s.queue + [entry],
                metrics := s.metrics.(accepted := s.metrics.accepted + 1));
      } else {
        s := s.(submissions := s.submissions[id := Refusing(Rejected)]);
      }
    }

    method CompleteRejected(id: ExecutionId)
      requires Inv(s) && id in s.submissions && s.submissions[id].Refusing?
      modifies this
      ensures Inv(s) && s == RefuseStep(old(s), id, old(s).submissions[id].status)
      ensures id !in s.submissions && id in s.answering && s.answering[id] == old(s).submissions[id].status
      ensures s.executions == old(s.executions) && s.queue == old(s.queue)
    {
      hide Inv, Prune;
      var status := s.submissions[id].status;
      RefusalIsFinal(s, id);
      RefuseInv(s, id, status);
      s := s.(submissions := s.submissions - {id});
      var entered := History(s.history.records[id := status], s.history.order + [id]);
      s := s.(metrics := Tally(s.metrics, status), refused := s.refused + 1,
        outcomes := Fulfil(s.outcomes, id, status));
      s := s.(answering := s.answering[id := status]);
      var pruned := PruneHistory(entered, s.executions.Keys, s.options.maximumHistorySize);
      s := s.(history := pruned);
    }

    /** Completes an execution, whether or not it is still outstanding. */
    method CompleteExecution(entry: Entry, status: Status)
      modifies this
      ensures s == Finish(old(s), entry, status)
      ensures s == old(s).(executions := old(s.executions) - {entry.id}, commands := old(s.commands) - {entry.command},
                           running := old(s.running) - {entry.id}, runningCount := s.runningCount,
                           metrics := s.metrics, history := s.history, outcomes := s.outcomes)
    {
      hide Prune;
      var live := s.executions - {entry.id};
      var runningCount := s.runningCount;
      if entry.id in s.running && runningCount > 0 {
        runningCount := runningCount - 1;
      }
      var pruned := PruneHistory(History(s.history.records[entry.id := status], s.history.order), live.Keys,
        s.options.maximumHistorySize);
      s := s.(executions := live,
              commands := s.commands - {entry.command},
              runningCount := runningCount,
              running := s.running - {entry.id},
              metrics := Tally(s.metrics, status),
              history := pruned,
              outcomes := Fulfil(s.outcomes, entry.id, status));
    }

    method Cancel(id: ExecutionId) returns (status: Status)
      requires Inv(s)
      modifies this
      ensures Inv(s) && s == CancelStep(old(s), id)
      ensures status == if id in old(s).executions && id !in old(s).running then Cancelled else Rejected
      ensures status == Cancelled ==>
        && s.executions == old(s.executions) - {id} && id in s.answering && s.answering[id] == Cancelled
        && s.queue == RemoveFirst(old(s.queue), old(s).executions[id])
      ensures status == Rejected ==> s == old(s)
    {
      hide Inv, Finish;
      CancelInv(s, id);
      if id !in s.executions || id in s.running {
        return Rejected;
      }
      var entry := s.executions[id];
      ExecutionNamed(s, id);
      var rest := Erase(s.queue, entry);
      s := s.(queue := rest, windowCancels := s.windowCancels + (if entry in s.drained then 1 else 0));
      s := s.(answering := s.answering[id := Cancelled]);
      CompleteExecution(entry, Cancelled);
      return Cancelled;
    }

    /** Takes the entry that a free worker runs next. */
    method TakeNext() returns (entry: Entry)
      requires Inv(s) && s.queue != [] && |s.running| + |s.reporting| < s.options.workerCount
      modifies this
      ensures Inv(s) && s == TakeStep(old(s))
      ensures entry in old(s).queue && forall other :: other in old(s).queue && other != entry ==>
        entry.priority > other.priority || (entry.priority == other.priority && entry.sequence < other.sequence)
      ensures s.running == old(s.running) + {entry.id} && |s.queue| == |old(s.queue)| - 1
      ensures s.metrics == old(s.metrics).(started := old(s.metrics.started) + 1)
      ensures forall other :: other in s.queue <==> other in old(s.queue) && other != entry
    {
      hide Inv, BestIndex;
      TakeInv(s);
      QueueSequences(s);
      var i := MaxElement(s.queue);
      BestIsFirst(s.queue, i);
      OthersStay(s.queue, i);
      entry := s.queue[i];
      s := s.(queue := s.queue[..i] + s.queue[i + 1..]);
      s := s.(running := s.running + {entry.id});
      s := s.(history := s.history.(records := s.history.records[entry.id := Running]));
      s := s.(runningCount := s.runningCount + 1, metrics := s.metrics.(started := s.metrics.started + 1));
    }

    /** What a worker does with the executor's result. */
    method Complete(
        id: ExecutionId, expiredBefore: bool, returned: Option<Status>, expiredAfter: bool) returns (status: Status)
      requires Inv(s) && id in s.running && id in s.executions
      modifies this
      ensures status == FinalStatus(expiredBefore, returned, expiredAfter)
      ensures Inv(s) && s == CompleteStep(old(s), id, status)
      ensures id !in s.executions && id in s.reporting && s.reporting[id] == status
    {
      hide Inv, Finish, FinalStatus;
      status := Conclude(expiredBefore, returned, expiredAfter);
      CompleteInv(s, id, status);
      ExecutionNamed(s, id);
      var entry := s.executions[id];
      s := s.(reporting := s.reporting[id := status]);
      CompleteExecution(entry, status);
    }

    method TakeQueue()
      requires Inv(s) && s.phase == Open
      modifies this
      ensures Inv(s) && s == BeginShutdownStep(old(s))
      ensures s == old(s).(phase := Draining, drained := old(s.queue), queue := [])
    {
      hide Inv;
      BeginShutdownInv(s);
      s := s.(phase := Draining);
      s := s.(drained := s.queue, queue := []);
    }

    /** The section of one round of Shutdown's loop over the entries it took. */
    method DrainOne()
      requires Inv(s) && s.drained != [] && s.settling.None?
      modifies this
      ensures Inv(s) && s == DrainStep(old(s))
      ensures var id := old(s).drained[0].id;
        && s.drained == old(s).drained[1..] && s.settling == Some(id) && s.executions == old(s.executions) - {id}
    {
      hide Inv, Finish;
      DrainInv(s);
      var entry := s.drained[0];
      var again, gone := entry.id !in s.executions, entry.id !in s.history.records;
      s := s.(drained := s.drained[1..], settling := Some(entry.id));
      s := s.(doubled := s.doubled + (if again then 1 else 0),
        orphaned := if gone then s.orphaned + {entry.id} else s.orphaned);
      CompleteExecution(entry, Cancelled);
    }

    /** Sets a promise after the section that completed the execution: the first one to come sets
        it, and another one is ignored. */
    method CompletePromise(id: ExecutionId, e: Event) returns (first: bool)
      requires Inv(s) && Sets(s, id, e)
      modifies this
      ensures Inv(s) && s == Step(old(s), e) && (first <==> id !in old(s).promises)
      ensures id in s.promises && s.promises[id] == if first then s.outcomes[id] else old(s).promises[id]
    {
      hide Inv;
      SetPromiseInv(s, e);
      SetterAgrees(s, id);
      var status := if e.Answer? then s.answering[id] else if e.Report? then s.reporting[id] else Cancelled;
      first := id !in s.promises;
      if first {
        s := s.(promises := s.promises[id := status]);
      }
      if e.Answer? {
        s := s.(answering := s.answering - {id});
      } else if e.Report? {
        s := s.(reporting := s.reporting - {id});
      } else {
        s := s.(settling := None);
      }
    }

    /** Shutdown's loop when no other thread comes between its rounds. */
    method DrainAll()
      requires Inv(s) && s.settling.None?
      modifies this
      ensures Inv(s) && s.drained == [] && s.settling.None? && s == Drained(old(s))
    {
      hide Inv, DrainStep, SettleStep;
      while s.drained != []
        invariant Inv(s) && s.settling.None? && Drained(s) == Drained(old(s))
        decreases |s.drained|
      {
        DrainShortens(s);
        var id := s.drained[0].id;
        DrainOne();
        var _ := CompletePromise(id, SettleDrained);
      }
    }

    method FinishShutdown()
      requires Inv(s) && s.phase == Draining && s.drained == [] && s.settling.None? && s.running == {}
      requires s.reporting == map[]
      modifies this
      ensures Inv(s) && s == EndShutdownStep(old(s)) && s.phase == Closed
    {
      hide Inv, Prune;
      EndShutdownInv(s);
      var pruned := PruneHistory(s.history, s.executions.Keys, s.options.maximumHistorySize);
      s := s.(history := pruned);
      s := s.(phase := Closed);
    }
  }

  /** The event in which somebody sets the promise of an execution that he has completed. */
  predicate Sets(s: State, id: ExecutionId, e: Event) {
    || (e == Answer(id) && id in s.answering)
    || (e == Report(id) && id in s.reporting)
    || (e == SettleDrained && s.settling == Some(id))
  }

  lemma SetterAgrees(s: State, id: ExecutionId)
    requires Inv(s)
    ensures id in s.answering ==> id in s.outcomes && s.outcomes[id] == s.answering[id]
    ensures id in s.reporting ==> id in s.outcomes && s.outcomes[id] == s.reporting[id]
    ensures s.settling == Some(id) ==> id in s.outcomes && s.outcomes[id] == Cancelled
  {
    hide HistoryInv, QueueInv, DrainedInv, PlacesInv, CommandInv, IdInv, RecordInv, AccountInv, OrderInv, RefusalInv,
      PhaseInv;
  }

  /** Completes the entries to drain and sets their promises, one after the other. */
  ghost function Drained(s: State): State
    requires s.settling.None?
    decreases |s.drained|
  {
    if s.drained == [] then s else DrainShortens(s); Drained(SettleStep(DrainStep(s)))
  }

  lemma DrainShortens(s: State)
    requires s.drained != [] && s.settling.None?
    ensures |DrainStep(s).drained| == |s.drained| - 1 && DrainStep(s).settling == Some(s.drained[0].id)
    ensures |SettleStep(DrainStep(s)).drained| == |s.drained| - 1 && SettleStep(DrainStep(s)).settling.None?
  {
    hide Prune, Tally, Fulfil;
  }

  lemma RefusalIsFinal(s: State, id: ExecutionId)
    requires Inv(s) && id in s.submissions && s.submissions[id].Refusing?
    ensures IsTerminal(s.submissions[id].status)
  {
  }

  /** The scan of the queue for the entry that no other precedes. */
  method MaxElement(queue: seq<Entry>) returns (best: nat)
    requires queue != []
    ensures best == BestIndex(queue, 0, 1)
  {
    best := 0;
    for next := 1 to |queue|
      invariant best < next && BestIndex(queue, 0, 1) == BestIndex(queue, best, next)
    {
      if Precedes(queue[next], queue[best]) {
        best := next;
      }
    }
  }

  ghost predicate DistinctSequences(queue: seq<Entry>) {
    forall i, j :: 0 <= i < j < |queue| ==> queue[i].sequence != queue[j].sequence
  }

  lemma QueueSequences(s: State)
    requires Inv(s)
    ensures DistinctSequences(s.queue)
  {
  }

  lemma OthersStay(queue: seq<Entry>, i: nat)
    requires i < |queue| && DistinctSequences(queue)
    ensures forall other :: other in queue[..i] + queue[i + 1..] <==> other in queue && other != queue[i]
  {
    RemoveAtIs(queue, i);
  }

  lemma {:induction false} BestPrecedes(queue: seq<Entry>, best: nat, next: nat)
    requires best < next <= |queue| && DistinctSequences(queue)
    requires forall j :: 0 <= j < next && j != best ==> Precedes(queue[best], queue[j])
    ensures var i := BestIndex(queue, best, next);
      forall j :: 0 <= j < |queue| && j != i ==> Precedes(queue[i], queue[j])
    decreases |queue| - next
  {
    if next < |queue| {
      BestPrecedes(queue, if Precedes(queue[next], queue[best]) then next else best, next + 1);
    }
  }

  lemma BestIsFirst(queue: seq<Entry>, i: nat)
    requires queue != [] && DistinctSequences(queue) && i == BestIndex(queue, 0, 1)
    ensures forall other :: other in queue && other != queue[i] ==> Precedes(queue[i], other)
  {
    hide BestIndex;
    BestPrecedes(queue, 0, 1);
    forall other | other in queue && other != queue[i]
      ensures Precedes(queue[i], other)
    {
      var j :| 0 <= j < |queue| && queue[j] == other;
      assert j != i;
    }
  }
}
