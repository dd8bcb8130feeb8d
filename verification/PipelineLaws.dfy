/** What the pipeline tells about its executions: the counters count the final results, and a record
    shows how far its execution has come. */
module PipelineLaws {
  import opened Basics
  import opened Commands
  import opened PipelineHistory
  import opened PipelineModel
  import opened PipelineInvariant
  import opened PipelineSteps

  // ---------------------------------------------------------------- counters

  /** The executions that ended with a status. */
  ghost function With(outcomes: map<ExecutionId, Status>, status: Status): set<ExecutionId> {
    set id | id in outcomes && outcomes[id] == status
  }

  /** Each counter counts the executions that ended with its status; a completion of an execution that
      was complete before is one cancellation more. */
  ghost predicate Counted(m: Metrics, outcomes: map<ExecutionId, Status>, doubled: nat) {
    && m.completed == |With(outcomes, Completed)|
    && m.timedOut == |With(outcomes, Timeout)|
    && m.failed == |With(outcomes, Failed)|
    && m.rejected == |With(outcomes, Rejected)|
    && m.cancelled == |With(outcomes, Cancelled)| + doubled
  }

  lemma OneMore(outcomes: map<ExecutionId, Status>, id: ExecutionId, status: Status, other: Status)
    requires id !in outcomes
    ensures |With(Fulfil(outcomes, id, status), other)| == |With(outcomes, other)| + if status == other then 1 else 0
  {
    var after := With(Fulfil(outcomes, id, status), other);
    assert after == With(outcomes, other) + if status == other then {id} else {};
  }

  lemma NewOutcome(m: Metrics, outcomes: map<ExecutionId, Status>, doubled: nat, id: ExecutionId, status: Status)
    requires Counted(m, outcomes, doubled) && IsTerminal(status) && id !in outcomes
    ensures Counted(Tally(m, status), Fulfil(outcomes, id, status), doubled)
  {
    hide Fulfil, With;
    OneMore(outcomes, id, status, Completed);
    OneMore(outcomes, id, status, Timeout);
    OneMore(outcomes, id, status, Failed);
    OneMore(outcomes, id, status, Rejected);
    OneMore(outcomes, id, status, Cancelled);
  }

  lemma OldOutcome(m: Metrics, outcomes: map<ExecutionId, Status>, doubled: nat, id: ExecutionId)
    requires Counted(m, outcomes, doubled) && id in outcomes
    ensures Counted(Tally(m, Cancelled), Fulfil(outcomes, id, Cancelled), doubled + 1)
  {
    hide With;
  }

  lemma CancelCounts(s: State, id: ExecutionId)
    requires Inv(s) && Counted(s.metrics, s.outcomes, s.doubled)
    ensures var after := CancelStep(s, id); Counted(after.metrics, after.outcomes, after.doubled)
  {
    hide Inv, Counted, Tally, Fulfil, Prune, RemoveFirst;
    LiveUnanswered(s, id);
    if id in s.executions && id !in s.running {
      ExecutionNamed(s, id);
      NewOutcome(s.metrics, s.outcomes, s.doubled, id, Cancelled);
    }
  }

  lemma CompleteCounts(s: State, id: ExecutionId, status: Status)
    requires Inv(s) && Counted(s.metrics, s.outcomes, s.doubled)
    ensures var after := CompleteStep(s, id, status); Counted(after.metrics, after.outcomes, after.doubled)
  {
    hide Inv, Counted, Tally, Fulfil, Prune;
    LiveUnanswered(s, id);
    if id in s.running && id in s.executions && IsTerminal(status) {
      ExecutionNamed(s, id);
      NewOutcome(s.metrics, s.outcomes, s.doubled, id, status);
    }
  }

  lemma DrainCounts(s: State)
    requires Inv(s) && Counted(s.metrics, s.outcomes, s.doubled)
    ensures var after := DrainStep(s); Counted(after.metrics, after.outcomes, after.doubled)
  {
    hide Inv, Counted, Tally, Fulfil, Prune;
    if s.drained != [] && s.settling.None? {
      var id := s.drained[0].id;
      LiveUnanswered(s, id);
      DrainedDone(s);
      if id in s.executions {
        NewOutcome(s.metrics, s.outcomes, s.doubled, id, Cancelled);
      } else {
        OldOutcome(s.metrics, s.outcomes, s.doubled, id);
      }
    }
  }

  lemma DrainedDone(s: State)
    requires Inv(s) && s.drained != []
    ensures s.drained[0].id !in s.executions ==> s.drained[0].id in s.outcomes
  {
    assert DrainedEntry(s.drained[0], s.executions, s.outcomes);
  }

  lemma RefuseCounts(s: State, id: ExecutionId, status: Status)
    requires Inv(s) && Counted(s.metrics, s.outcomes, s.doubled) && id in s.submissions
    requires s.submissions[id] == Refusing(status)
    ensures var after := RefuseStep(s, id, status); Counted(after.metrics, after.outcomes, after.doubled)
  {
    hide Counted, Tally, Fulfil, Prune;
    SubmissionUnanswered(s, id);
    NewOutcome(s.metrics, s.outcomes, s.doubled, id, status);
  }

  lemma SubmissionUnanswered(s: State, id: ExecutionId)
    requires Inv(s) && id in s.submissions
    ensures id !in s.outcomes && (s.submissions[id].Refusing? ==> IsTerminal(s.submissions[id].status))
  {
  }

  lemma SameCounts(m: Metrics, after: Metrics, outcomes: map<ExecutionId, Status>, doubled: nat)
    requires Counted(m, outcomes, doubled) && SameResults(m, after)
    ensures Counted(after, outcomes, doubled)
  {
  }

  lemma StepCounts(s: State, e: Event)
    requires Inv(s) && Counted(s.metrics, s.outcomes, s.doubled)
    ensures var after := Step(s, e); Counted(after.metrics, after.outcomes, after.doubled)
  {
    hide Inv, CancelStep, CompleteStep, DrainStep, RefuseStep, With, AllocateStep, DecideStep, TakeStep,
      BeginShutdownStep, AnswerStep, ReportStep, SettleStep, EndShutdownStep;
    match e
    case Refuse(id) =>
      if id in s.submissions && s.submissions[id].Refusing? {
        RefuseCounts(s, id, s.submissions[id].status);
      }
    case Cancel(id) => CancelCounts(s, id);
    case Complete(id, status) => CompleteCounts(s, id, status);
    case DrainOne => DrainCounts(s);
    case _ => SameCounts(s.metrics, Step(s, e).metrics, s.outcomes, s.doubled);
  }

  /** In every run each counter is the number of executions whose first completion had its status, and
      the cancellations are counted once more for each completion that came twice. */
  lemma {:induction false} CountersCountResults(options: Options, events: seq<Event>)
    ensures var s := Run(options, events); Counted(s.metrics, s.outcomes, s.doubled)
  {
    hide Inv, Step;
    if events == [] {
      var none: map<ExecutionId, Status> := map[];
      assert With(none, Completed) == With(none, Timeout) == With(none, Failed) == With(none, Rejected) ==
        With(none, Cancelled) == {};
    } else {
      var n := |events| - 1;
      CountersCountResults(options, events[..n]);
      RunInv(options, events[..n]);
      StepCounts(Run(options, events[..n]), events[n]);
    }
  }

  // ---------------------------------------------------------------- records

  /** The record of an outstanding execution says Running exactly while it runs and Queued while it
      waits in the queue or in what Shutdown took from it; a finished one's is its first result. */
  lemma RecordsShowTheStage(options: Options, events: seq<Event>, id: ExecutionId)
    ensures
      var s := Run(options, events);
      && (id in s.executions ==>
            && id in s.history.records
            && (s.history.records[id] == Running <==> id in s.running)
            && (s.history.records[id] == Queued <==> s.executions[id] in s.queue || s.executions[id] in s.drained))
      && (id in s.history.records && id !in s.executions ==>
            id in s.outcomes && s.history.records[id] == s.outcomes[id])
  {
    hide Run;
    RunInv(options, events);
    StageShown(Run(options, events), id);
  }

  lemma StageShown(s: State, id: ExecutionId)
    requires Inv(s)
    ensures id in s.executions ==>
      && id in s.history.records
      && (s.history.records[id] == Running <==> id in s.running)
      && (s.history.records[id] == Queued <==> s.executions[id] in s.queue || s.executions[id] in s.drained)
    ensures id in s.history.records && id !in s.executions ==>
      id in s.outcomes && s.history.records[id] == s.outcomes[id]
  {
    hide CommandInv, IdInv, PromiseInv, AccountInv, OrderInv, RefusalInv, PhaseInv;
    assert id in s.history.records ==>
      RecordOk(id, s.history.records[id], s.executions.Keys, s.running, s.outcomes);
    assert id in s.executions ==> Placed(id, s.queue, s.executions, s.running, s.drained);
  }
}
