/** The three selection algorithms: the pipeline's comparator by priority and sequence number,
    the command queue's first maximum, and the scheduler's scan over startable jobs. */
module Selection {
  import Pipe = PipelineModel
  import PipelineSteps
  import PipelineInvariant
  import CommandPipeline
  import Tasks = QueueModel
  import CommandQueues
  import Jobs = SchedulerModel
  import SchedulerTheorems
  import SchedulerInvariant

  /** The first position among those of highest priority. */
  ghost predicate First(priorities: seq<int>, i: nat) {
    i < |priorities| && forall j :: 0 <= j < |priorities| ==>
      priorities[j] < priorities[i] || (priorities[j] == priorities[i] && i <= j)
  }

  lemma FirstIsUnique(priorities: seq<int>, i: nat, k: nat)
    requires First(priorities, i) && First(priorities, k)
    ensures i == k
  {
    assert priorities[k] <= priorities[i] <= priorities[k];
  }

  ghost function EntryPriorities(queue: seq<Pipe.Entry>): seq<int> {
    seq(|queue|, i requires 0 <= i < |queue| => queue[i].priority)
  }

  ghost function TaskPriorities(queue: seq<Tasks.Task>): seq<int> {
    seq(|queue|, i requires 0 <= i < |queue| => queue[i].priority)
  }

  /** The positions of the jobs that can start now, in order: the queue without the paused jobs and
      without those that sequential execution holds back. */
  ghost predicate StartablePlaces(s: Jobs.State, places: seq<nat>) {
    && (forall i :: 0 <= i < |places| ==> places[i] < |s.queue| && Jobs.Startable(s, places[i]))
    && (forall i, j :: 0 <= i < j < |places| ==> places[i] < places[j])
    && (forall k: nat :: k < |s.queue| && Jobs.Startable(s, k) ==> k in places)
  }

  ghost function Ranks(s: Jobs.State, places: seq<nat>): seq<int>
    requires StartablePlaces(s, places)
  {
    seq(|places|, i requires 0 <= i < |places| => Jobs.Rank(s.jobs[s.queue[places[i]]].priority))
  }

  lemma PipelineTakesFirst(options: Pipe.Options, events: seq<Pipe.Event>)
    requires Pipe.Run(options, events).queue != []
    ensures var queue := Pipe.Run(options, events).queue; First(EntryPriorities(queue), Pipe.BestIndex(queue, 0, 1))
  {
    hide Pipe.Run, Pipe.BestIndex, PipelineInvariant.HistoryInv, PipelineInvariant.QueueInv,
      PipelineInvariant.DrainedInv, PipelineInvariant.PlacesInv, PipelineInvariant.CommandInv,
      PipelineInvariant.IdInv, PipelineInvariant.RecordInv, PipelineInvariant.AccountInv,
      PipelineInvariant.PromiseInv, PipelineInvariant.RefusalInv, PipelineInvariant.PhaseInv;
    PipelineSteps.RunInv(options, events);
    var s := Pipe.Run(options, events);
    CommandPipeline.BestPrecedes(s.queue, 0, 1);
    var i := Pipe.BestIndex(s.queue, 0, 1);
    assert forall j :: 0 <= j < |s.queue| && j != i ==> Pipe.Precedes(s.queue[i], s.queue[j]);
  }

  lemma QueueTakesFirst(capacity: nat, workers: nat, events: seq<CommandQueues.Event>)
    requires CommandQueues.Run(capacity, workers, events).queue != []
    ensures var queue := CommandQueues.Run(capacity, workers, events).queue;
      First(TaskPriorities(queue), Tasks.FirstMaximum(queue, 0, 1))
  {
    hide CommandQueues.Run, Tasks.FirstMaximum;
    CommandQueues.FirstMaximumIsBest(CommandQueues.Run(capacity, workers, events).queue, 0, 1);
  }

  /** Among the jobs that can start, the scan takes the first of highest rank. */
  lemma SchedulerTakesFirst(
      options: Jobs.Options, events: seq<Jobs.Event>, places: seq<nat>, best: nat) returns (i: nat)
    requires options.Valid() && StartablePlaces(Jobs.Run(options, events), places)
    requires Jobs.IsBest(Jobs.Run(options, events), best)
    ensures i < |places| && places[i] == best && First(Ranks(Jobs.Run(options, events), places), i)
  {
    hide Jobs.Run, Jobs.Rank;
    SchedulerTheorems.QueueIsInAcceptanceOrder(options, events);
    var s := Jobs.Run(options, events);
    i :| 0 <= i < |places| && places[i] == best;
    var ranks := Ranks(s, places);
    forall j | 0 <= j < |ranks|
      ensures ranks[j] < ranks[i] || (ranks[j] == ranks[i] && i <= j)
    {
      assert Jobs.Startable(s, places[j]);
      assert Jobs.Beats(s, s.queue[best], s.queue[places[j]]);
      assert j < i ==> places[j] < places[i] && s.queue[places[j]] < s.queue[places[i]];
    }
  }

  /** In every reachable state of the three components, on the same priorities, the three algorithms
      take the same position: the earliest accepted of the highest priority, among the jobs that can
      start in the scheduler's case. */
  lemma SelectorsAgree(
      pipeOptions: Pipe.Options, pipeEvents: seq<Pipe.Event>,
      capacity: nat, workers: nat, queueEvents: seq<CommandQueues.Event>,
      options: Jobs.Options, events: seq<Jobs.Event>, places: seq<nat>, best: nat)
    requires options.Valid() && Jobs.IsBest(Jobs.Run(options, events), best)
    requires StartablePlaces(Jobs.Run(options, events), places)
    requires EntryPriorities(Pipe.Run(pipeOptions, pipeEvents).queue) == Ranks(Jobs.Run(options, events), places)
    requires TaskPriorities(CommandQueues.Run(capacity, workers, queueEvents).queue) ==
      Ranks(Jobs.Run(options, events), places)
    ensures Pipe.Run(pipeOptions, pipeEvents).queue != []
    ensures CommandQueues.Run(capacity, workers, queueEvents).queue != []
    ensures var i := Pipe.BestIndex(Pipe.Run(pipeOptions, pipeEvents).queue, 0, 1);
      && i == Tasks.FirstMaximum(CommandQueues.Run(capacity, workers, queueEvents).queue, 0, 1)
      && i < |places| && best == places[i]
  {
    hide Pipe.Run, CommandQueues.Run, Jobs.Run, Pipe.BestIndex, Tasks.FirstMaximum, First, StartablePlaces,
      Jobs.IsBest;
    var priorities := Ranks(Jobs.Run(options, events), places);
    var i := SchedulerTakesFirst(options, events, places, best);
    assert |EntryPriorities(Pipe.Run(pipeOptions, pipeEvents).queue)| == |places| > 0;
    assert |TaskPriorities(CommandQueues.Run(capacity, workers, queueEvents).queue)| == |places|;
    PipelineTakesFirst(pipeOptions, pipeEvents);
    QueueTakesFirst(capacity, workers, queueEvents);
    FirstIsUnique(priorities, i, Pipe.BestIndex(Pipe.Run(pipeOptions, pipeEvents).queue, 0, 1));
    FirstIsUnique(priorities, i, Tasks.FirstMaximum(CommandQueues.Run(capacity, workers, queueEvents).queue, 0, 1));
  }
}
