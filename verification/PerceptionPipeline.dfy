/** The perception pipeline: stage registration, topological ordering and execution. */
module PerceptionPipeline {
  import opened Basics
  import opened PerceptionGraph

  datatype Status = Ok | InvalidArgument | FailedPrecondition | Unavailable | InternalError | StageFailure

  /** What one stage makes of the pipeline context; a stage may also throw. */
  datatype ProcessOutcome<C> = Processed(context: C) | Rejected(context: C) | Threw(context: C)

  /** How many dependency entries of a stage, repeated ones included, are not done yet. */
  ghost function Pending(dependencies: seq<StageId>, done: set<StageId>): nat {
    if dependencies == [] then 0
    else (if dependencies[0] in done then 0 else 1) + Pending(dependencies[1..], done)
  }

  lemma {:induction false} PendingSplit(dependencies: seq<StageId>, done: set<StageId>, id: StageId)
    requires id !in done
    ensures Pending(dependencies, done + {id}) + multiset(dependencies)[id] == Pending(dependencies, done)
  {
    if dependencies != [] {
      PendingSplit(dependencies[1..], done, id);
      assert dependencies == [dependencies[0]] + dependencies[1..];
    }
  }

  lemma {:induction false} PendingZero(dependencies: seq<StageId>, done: set<StageId>)
    ensures Pending(dependencies, done) == 0 <==> forall d :: d in dependencies ==> d in done
  {
    if dependencies != [] {
      PendingZero(dependencies[1..], done);
      assert dependencies == [dependencies[0]] + dependencies[1..];
    }
  }

  lemma PendingWitness(dependencies: seq<StageId>, done: set<StageId>) returns (d: StageId)
    requires Pending(dependencies, done) != 0
    ensures d in dependencies && d !in done
  {
    PendingZero(dependencies, done);
    d :| d in dependencies && d !in done;
  }

  lemma {:induction false} PendingNone(dependencies: seq<StageId>)
    ensures Pending(dependencies, {}) == |dependencies|
  {
    if dependencies != [] {
      PendingNone(dependencies[1..]);
    }
  }

  function DependentsOf(dependents: map<StageId, seq<StageId>>, id: StageId): seq<StageId> {
    if id in dependents then dependents[id] else []
  }

  /** How often `id` is recorded as depending on `d`. */
  ghost function Recorded(dependents: map<StageId, seq<StageId>>, d: StageId, id: StageId): nat {
    multiset(DependentsOf(dependents, d))[id]
  }

  function AddDependent(
      dependents: map<StageId, seq<StageId>>, d: StageId, id: StageId): (after: map<StageId, seq<StageId>>)
    ensures forall e, x :: Recorded(after, e, x) == Recorded(dependents, e, x) + if e == d && x == id then 1 else 0
  {
    dependents[d := DependentsOf(dependents, d) + [id]]
  }

  ghost function Occurrences(dependencies: seq<StageId>, d: StageId): nat {
    multiset(dependencies)[d]
  }

  lemma OccurrencesStep(dependencies: seq<StageId>, i: nat, d: StageId)
    requires i < |dependencies|
    ensures Occurrences(dependencies[..i + 1], d) ==
      Occurrences(dependencies[..i], d) + if dependencies[i] == d then 1 else 0
  {
    assert dependencies[..i + 1] == dependencies[..i] + [dependencies[i]];
  }

  /** The reverse edges recorded so far: exactly the edges of the stages already visited. */
  ghost predicate ReverseEdges(stages: Stages, visited: set<StageId>, dependents: map<StageId, seq<StageId>>) {
    forall d, id ::
      Recorded(dependents, d, id) ==
        if id in visited && id in stages then Occurrences(stages[id].dependencies, d) else 0
  }

  ghost predicate EdgeCounts(stages: Stages, incoming: map<StageId, nat>) {
    incoming.Keys == stages.Keys && forall id :: id in stages ==> incoming[id] == |stages[id].dependencies|
  }

  /** Records the edges of one stage, or stops at its first unknown dependency. */
  method AddEdges(stages: Stages, id: StageId, dependents: map<StageId, seq<StageId>>)
    returns (known: bool, count: nat, dependents': map<StageId, seq<StageId>>)
    requires id in stages
    ensures known <==> forall d :: d in stages[id].dependencies ==> d in stages
    ensures known ==> count == |stages[id].dependencies|
    ensures known ==> forall d, x ::
      Recorded(dependents', d, x) ==
        Recorded(dependents, d, x) + if x == id then Occurrences(stages[id].dependencies, d) else 0
  {
    var dependencies := stages[id].dependencies;
    count, dependents' := 0, dependents;
    assert forall d :: Occurrences(dependencies[..0], d) == 0;
    for i := 0 to |dependencies|
      invariant count == i
      invariant forall d :: d in dependencies[..i] ==> d in stages
      invariant forall d, x ::
          Recorded(dependents', d, x) ==
            Recorded(dependents, d, x) + if x == id then Occurrences(dependencies[..i], d) else 0
    {
      if dependencies[i] !in stages {
        return false, count, dependents';
      }
      count := count + 1;
      dependents' := AddDependent(dependents', dependencies[i], id);
      forall d
        ensures Occurrences(dependencies[..i + 1], d) ==
          Occurrences(dependencies[..i], d) + if dependencies[i] == d then 1 else 0
      {
        OccurrencesStep(dependencies, i, d);
      }
    }
    assert dependencies[..|dependencies|] == dependencies;
    known := true;
  }

  /** First pass: count incoming edges and reverse the graph, refusing unknown dependencies. */
  method CountEdges(stages: Stages)
    returns (known: bool, incoming: map<StageId, nat>, dependents: map<StageId, seq<StageId>>)
    ensures known <==> Closed(stages)
    ensures known ==> EdgeCounts(stages, incoming) && ReverseEdges(stages, stages.Keys, dependents)
  {
    incoming, dependents := map[], map[];
    var rest := stages.Keys;
    while rest != {}
      invariant rest <= stages.Keys
      invariant incoming.Keys == stages.Keys - rest
      invariant forall id :: id in incoming ==> incoming[id] == |stages[id].dependencies|
      invariant forall id, d :: id in incoming && d in stages[id].dependencies ==> d in stages
      invariant ReverseEdges(stages, incoming.Keys, dependents)
      decreases rest
    {
      var id :| id in rest;
      rest := rest - {id};
      var count;
      known, count, dependents := AddEdges(stages, id, dependents);
      if !known {
        return;
      }
      incoming := incoming[id := count];
    }
    known := true;
  }

  /** Where the main loop stands: `done` stages are ordered, and a stage has been
      emitted or is ready exactly when none of its dependencies is pending. */
  ghost predicate Frontier(stages: Stages, order: seq<StageId>, ready: seq<StageId>, incoming: map<StageId, nat>) {
    && ReadyAtZero(order, ready, incoming)
    && incoming.Keys == stages.Keys
    && (forall id :: id in stages ==> incoming[id] == Pending(stages[id].dependencies, Elements(order)))
    && DependenciesFirst(stages, order)
  }

  method InitialReady(stages: Stages, incoming: map<StageId, nat>) returns (ready: seq<StageId>)
    requires EdgeCounts(stages, incoming)
    ensures Frontier(stages, [], ready, incoming)
  {
    ready := [];
    var rest := stages.Keys;
    while rest != {}
      invariant rest <= stages.Keys
      invariant NoDuplicates(ready)
      invariant forall id :: id in ready <==> id in stages && id !in rest && incoming[id] == 0
      decreases rest
    {
      var id :| id in rest;
      rest := rest - {id};
      if incoming[id] == 0 {
        ready := ready + [id];
      }
    }
    assert [] + ready == ready;
    assert Elements<StageId>([]) == {};
    forall id | id in stages
      ensures incoming[id] == Pending(stages[id].dependencies, {})
    {
      PendingNone(stages[id].dependencies);
    }
  }

  /** A stage is emitted or ready exactly when its count is zero, and it is so only once. */
  ghost predicate ReadyAtZero(emitted: seq<StageId>, ready: seq<StageId>, incoming: map<StageId, nat>) {
    && NoDuplicates(emitted + ready)
    && (forall x :: x in emitted + ready <==> x in incoming && incoming[x] == 0)
  }

  /** The inner loop: lowers the count of each waiting stage, once for each repeated edge. */
  method LowerCounts(emitted: seq<StageId>, ready: seq<StageId>, incoming: map<StageId, nat>, waiting: seq<StageId>)
    returns (ready': seq<StageId>, incoming': map<StageId, nat>)
    requires ReadyAtZero(emitted, ready, incoming)
    requires forall x :: x in waiting ==> x in incoming && multiset(waiting)[x] <= incoming[x]
    ensures ReadyAtZero(emitted, ready', incoming')
    ensures incoming'.Keys == incoming.Keys
    ensures forall x :: x in incoming ==> incoming'[x] + multiset(waiting)[x] == incoming[x]
  {
    ready', incoming' := ready, incoming;
    for k := 0 to |waiting|
      invariant incoming'.Keys == incoming.Keys
      invariant forall x :: x in incoming ==> incoming'[x] + multiset(waiting[..k])[x] == incoming[x]
      invariant ReadyAtZero(emitted, ready', incoming')
    {
      var x := waiting[k];
      assert waiting[..k + 1] == waiting[..k] + [x];
      assert waiting == waiting[..k + 1] + waiting[k + 1..];
      incoming' := incoming'[x := incoming'[x] - 1];
      if incoming'[x] == 0 {
        assert emitted + (ready' + [x]) == (emitted + ready') + [x];
        ready' := ready' + [x];
      }
    }
    assert waiting[..|waiting|] == waiting;
  }

  /** Emits the first ready stage and updates the counts of the stages that depend on it. */
  method EmitFirst(stages: Stages, order: seq<StageId>, ready: seq<StageId>, incoming: map<StageId, nat>,
      dependents: map<StageId, seq<StageId>>)
    returns (ready': seq<StageId>, incoming': map<StageId, nat>)
    requires ReverseEdges(stages, stages.Keys, dependents)
    requires Frontier(stages, order, ready, incoming) && ready != []
    ensures Frontier(stages, order + [ready[0]], ready', incoming')
  {
    var waiting := DependentsOf(dependents, ready[0]);
    assert order + [ready[0]] + ready[1..] == order + ready;
    forall x ensures multiset(waiting)[x] == Recorded(dependents, ready[0], x) {}
    EmittedCounts(stages, order, ready, incoming, waiting);
    ready', incoming' := LowerCounts(order + [ready[0]], ready[1..], incoming, waiting);
    EmitKeepsOrder(stages, order, ready, incoming);
  }

  /** Emitting a stage leaves pending what was pending before, less its edges. */
  lemma EmittedCounts(
      stages: Stages, order: seq<StageId>, ready: seq<StageId>, incoming: map<StageId, nat>, waiting: seq<StageId>)
    requires Frontier(stages, order, ready, incoming) && ready != []
    requires forall x ::
      multiset(waiting)[x] == if x in stages then Occurrences(stages[x].dependencies, ready[0]) else 0
    ensures forall x :: x in stages ==>
      Pending(stages[x].dependencies, Elements(order + [ready[0]])) + multiset(waiting)[x] == incoming[x]
    ensures forall x :: x in waiting ==> x in stages && multiset(waiting)[x] <= incoming[x]
  {
    var id := ready[0];
    assert (order + ready)[|order|] == id;
    forall i | 0 <= i < |order|
      ensures order[i] != id
    {
      assert (order + ready)[i] == order[i];
    }
    assert Elements(order + [id]) == Elements(order) + {id};
    forall x | x in stages
      ensures Pending(stages[x].dependencies, Elements(order) + {id}) + multiset(waiting)[x] == incoming[x]
    {
      PendingSplit(stages[x].dependencies, Elements(order), id);
    }
    forall x | x in waiting
      ensures x in stages && multiset(waiting)[x] <= incoming[x]
    {
      assert multiset(waiting)[x] > 0;
    }
  }

  /** The first ready stage has all its dependencies emitted already. */
  lemma EmitKeepsOrder(stages: Stages, order: seq<StageId>, ready: seq<StageId>, incoming: map<StageId, nat>)
    requires Frontier(stages, order, ready, incoming) && ready != []
    ensures DependenciesFirst(stages, order + [ready[0]])
  {
    var id := ready[0];
    assert (order + ready)[|order|] == id;
    assert id in Elements(order + ready);
    PendingZero(stages[id].dependencies, Elements(order));
    var longer := order + [id];
    forall i, d | 0 <= i < |longer| && longer[i] in stages && d in stages[longer[i]].dependencies
      ensures d in longer[..i]
    {
      if i < |order| {
        assert longer[..i] == order[..i];
      } else {
        assert longer[..i] == order;
      }
    }
  }

  lemma FrontierBound(stages: Stages, order: seq<StageId>, ready: seq<StageId>, incoming: map<StageId, nat>)
    requires Frontier(stages, order, ready, incoming)
    ensures |order| + |ready| <= |stages|
    ensures ready == [] && |order| == |stages| ==> IsExecutionOrder(stages, order)
  {
    DistinctCount(order + ready);
    SubsetCount(Elements(order + ready), stages.Keys);
    if ready == [] {
      assert order + ready == order;
    }
  }

  /** When nothing is ready but stages are left, the stages left contain a cycle. */
  lemma StalledIsCyclic(stages: Stages, order: seq<StageId>, incoming: map<StageId, nat>)
    requires Frontier(stages, order, [], incoming) && Closed(stages)
    requires |order| != |stages|
    ensures !Acyclic(stages)
  {
    var rest := stages.Keys - Elements(order);
    SomeStageIsLeft(stages, order, incoming);
    forall id {:trigger DependsInto(stages, rest, id)} | id in rest
      ensures DependsInto(stages, rest, id)
    {
      LeftStageIsBlocked(stages, order, incoming, id);
    }
    assert Stuck(stages, rest);
    StuckImpliesCycle(stages, rest);
  }

  lemma SomeStageIsLeft(stages: Stages, order: seq<StageId>, incoming: map<StageId, nat>)
    requires Frontier(stages, order, [], incoming)
    requires |order| != |stages|
    ensures stages.Keys - Elements(order) != {}
  {
    assert order + [] == order;
    DistinctCount(order);
    var rest := stages.Keys - Elements(order);
    forall x | x in Elements(order)
      ensures x in stages.Keys
    {
      assert x in order + [];
    }
    assert stages.Keys == Elements(order) + rest;
  }

  lemma LeftStageIsBlocked(stages: Stages, order: seq<StageId>, incoming: map<StageId, nat>, id: StageId)
    requires Frontier(stages, order, [], incoming) && Closed(stages)
    requires id in stages && id !in order
    ensures DependsInto(stages, stages.Keys - Elements(order), id)
  {
    assert order + [] == order;
    var d := PendingWitness(stages[id].dependencies, Elements(order));
    assert d in stages.Keys - Elements(order);
  }

  /** Kahn's algorithm. It succeeds exactly on closed acyclic graphs, and then its output is
      a permutation of the stages in dependency order. */
  method BuildExecutionOrder(stages: Stages) returns (status: Status, order: seq<StageId>)
    ensures status.Ok? <==> Closed(stages) && Acyclic(stages)
    ensures status.Ok? ==> IsExecutionOrder(stages, order)
    ensures !status.Ok? ==> status.FailedPrecondition?
  {
    order := [];
    var known, incoming, dependents := CountEdges(stages);
    if !known {
      return FailedPrecondition, order;
    }
    var ready := InitialReady(stages, incoming);
    FrontierBound(stages, order, ready, incoming);
    while ready != []
      invariant Frontier(stages, order, ready, incoming)
      decreases |stages| - |order|
    {
      var ready', incoming' := EmitFirst(stages, order, ready, incoming, dependents);
      FrontierBound(stages, order, ready, incoming);
      order := order + [ready[0]];
      ready, incoming := ready', incoming';
    }
    FrontierBound(stages, order, ready, incoming);
    if |order| != |stages| {
      StalledIsCyclic(stages, order, incoming);
      return FailedPrecondition, order;
    }
    OrderImpliesAcyclic(stages, order);
    status := Ok;
  }

  /** The enabled stages of an order. */
  ghost function EnabledIn(stages: Stages, order: seq<StageId>): seq<StageId> {
    if order == [] then []
    else (if order[0] in stages && stages[order[0]].enabled then [order[0]] else []) + EnabledIn(stages, order[1..])
  }

  lemma {:induction false} EnabledMember(stages: Stages, order: seq<StageId>, id: StageId)
    ensures id in EnabledIn(stages, order) <==> id in order && id in stages && stages[id].enabled
  {
    if order != [] {
      EnabledMember(stages, order[1..], id);
    }
  }

  lemma {:induction false} EnabledAppend(stages: Stages, front: seq<StageId>, last: StageId)
    ensures EnabledIn(stages, front + [last]) ==
            EnabledIn(stages, front) + if last in stages && stages[last].enabled then [last] else []
  {
    if front != [] {
      assert (front + [last])[1..] == front[1..] + [last];
      EnabledAppend(stages, front[1..], last);
    }
  }

  /** Each executed stage comes after all of its enabled dependencies. */
  ghost predicate RespectsEnabledDependencies(stages: Stages, executed: seq<StageId>) {
    forall i, d ::
      (&& 0 <= i < |executed| && executed[i] in stages && d in stages[executed[i]].dependencies
       && d in stages && stages[d].enabled)
      ==> d in executed[..i]
  }

  lemma {:induction false} EnabledOrderRespects(stages: Stages, order: seq<StageId>)
    requires DependenciesFirst(stages, order)
    ensures RespectsEnabledDependencies(stages, EnabledIn(stages, order))
  {
    if order != [] {
      var n := |order| - 1;
      var front := order[..n];
      assert DependenciesFirst(stages, front) by {
        forall i | 0 <= i < n ensures front[..i] == order[..i] {}
      }
      EnabledOrderRespects(stages, front);
      assert order == front + [order[n]];
      EnabledAppend(stages, front, order[n]);
      var shorter, whole := EnabledIn(stages, front), EnabledIn(stages, order);
      forall i, d | 0 <= i < |whole| && whole[i] in stages && d in stages[whole[i]].dependencies && d in stages &&
        stages[d].enabled
        ensures d in whole[..i]
      {
        if i < |shorter| {
          assert whole[..i] == shorter[..i];
        } else {
          assert whole[..i] == shorter;
          EnabledMember(stages, front, d);
        }
      }
    }
  }

  lemma PrefixRespects(stages: Stages, part: seq<StageId>, whole: seq<StageId>)
    requires part <= whole && RespectsEnabledDependencies(stages, whole)
    ensures RespectsEnabledDependencies(stages, part)
  {
    forall i | 0 <= i < |part|
      ensures part[..i] == whole[..i]
    {}
  }

  datatype Outcome<C> = Outcome(status: Status, executed: seq<StageId>, context: C) {
    function After(earlier: seq<StageId>): Outcome<C> {
      Outcome(status, earlier + executed, context)
    }
  }

  /** Enabled stages run one after another until one does not succeed. */
  ghost function RunStages<C>(
      stages: Stages, plan: seq<StageId>, context: C, process: (StageId, C) -> ProcessOutcome<C>): Outcome<C>
    requires forall id :: id in plan ==> id in stages
  {
    if plan == [] then Outcome(Ok, [], context)
    else if !stages[plan[0]].enabled then RunStages(stages, plan[1..], context, process)
    else
      match process(plan[0], context)
      case Processed(next) => RunStages(stages, plan[1..], next, process).After([plan[0]])
      case Rejected(next) => Outcome(StageFailure, [], next)
      case Threw(next) => Outcome(InternalError, [], next)
  }

  lemma {:induction false} RunsEnabledPrefix<C>(
      stages: Stages, plan: seq<StageId>, context: C, process: (StageId, C) -> ProcessOutcome<C>)
    requires forall id :: id in plan ==> id in stages
    ensures var out := RunStages(stages, plan, context, process);
      out.executed <= EnabledIn(stages, plan) && (out.status.Ok? <==> out.executed == EnabledIn(stages, plan))
  {
    if plan != [] {
      if !stages[plan[0]].enabled {
        RunsEnabledPrefix(stages, plan[1..], context, process);
      } else {
        match process(plan[0], context)
        case Processed(next) => RunsEnabledPrefix(stages, plan[1..], next, process);
        case Rejected(next) =>
        case Threw(next) =>
      }
    }
  }

  /** The context that call `i` gets: what the call before has left. */
  function Handed<C>(context: C, results: seq<ProcessOutcome<C>>, i: nat): C
    requires i <= |results|
  {
    if i == 0 then context else results[i - 1].context
  }

  /** The results of calling the stages in turn until one does not succeed. */
  ghost predicate Called<C>(
      ids: seq<StageId>, context: C, process: (StageId, C) -> ProcessOutcome<C>, results: seq<ProcessOutcome<C>>) {
    && |results| <= |ids|
    && (forall i :: 0 <= i < |results| ==> results[i] == process(ids[i], Handed(context, results, i)))
    && (forall i :: 0 <= i < |results| - 1 ==> results[i].Processed?)
    && (|results| == |ids| || (results != [] && !results[|results| - 1].Processed?))
  }

  /** The status of an execution, the stages that succeeded, and the context at its end. */
  ghost predicate Reports<C>(out: Outcome<C>, ids: seq<StageId>, context: C, results: seq<ProcessOutcome<C>>)
    requires |results| <= |ids|
  {
    && out.context == Handed(context, results, |results|)
    && (out.status == StageFailure <==> results != [] && results[|results| - 1].Rejected?)
    && (out.status == InternalError <==> results != [] && results[|results| - 1].Threw?)
    && (out.status == Ok <==> results == [] || results[|results| - 1].Processed?)
    && out.executed == (if out.status == Ok then ids else ids[..|results| - 1])
  }

  /** Each enabled stage gets the context its predecessor left, and the outcome tells how the last
      call ended. */
  lemma {:induction false} ContextsAreHandedOn<C>(
      stages: Stages, plan: seq<StageId>, context: C, process: (StageId, C) -> ProcessOutcome<C>,
      results: seq<ProcessOutcome<C>>)
    requires (forall id :: id in plan ==> id in stages) && Called(EnabledIn(stages, plan), context, process, results)
    ensures Reports(RunStages(stages, plan, context, process), EnabledIn(stages, plan), context, results)
  {
    if plan != [] {
      var ids := EnabledIn(stages, plan[1..]);
      if !stages[plan[0]].enabled {
        assert EnabledIn(stages, plan) == ids;
        ContextsAreHandedOn(stages, plan[1..], context, process, results);
      } else {
        assert EnabledIn(stages, plan) == [plan[0]] + ids;
        assert results[0] == process(plan[0], context);
        if results[0].Processed? {
          CalledLater(plan[0], ids, context, process, results);
          ContextsAreHandedOn(stages, plan[1..], results[0].context, process, results[1..]);
          ReportsEarlier(RunStages(stages, plan[1..], results[0].context, process), plan[0], ids, context, results);
        }
      }
    }
  }

  lemma CalledLater<C>(
      first: StageId, ids: seq<StageId>, context: C, process: (StageId, C) -> ProcessOutcome<C>,
      results: seq<ProcessOutcome<C>>)
    requires Called([first] + ids, context, process, results) && results != [] && results[0].Processed?
    ensures Called(ids, results[0].context, process, results[1..])
  {
    forall i | 0 <= i < |results[1..]|
      ensures results[1..][i] == process(ids[i], Handed(results[0].context, results[1..], i))
    {
      assert results[i + 1] == process(([first] + ids)[i + 1], Handed(context, results, i + 1));
    }
  }

  lemma ReportsEarlier<C>(
      out: Outcome<C>, first: StageId, ids: seq<StageId>, context: C, results: seq<ProcessOutcome<C>>)
    requires results != [] && results[0].Processed? && |results| <= |ids| + 1
    requires Reports(out, ids, results[0].context, results[1..])
    ensures Reports(out.After([first]), [first] + ids, context, results)
  {
    assert |results| > 1 ==> ([first] + ids)[..|results| - 1] == [first] + ids[..|results| - 2];
  }

  lemma CalledEarlier<C>(
      first: StageId, ids: seq<StageId>, context: C, process: (StageId, C) -> ProcessOutcome<C>,
      result: ProcessOutcome<C>, rest: seq<ProcessOutcome<C>>)
    requires result == process(first, context) && result.Processed? && Called(ids, result.context, process, rest)
    ensures Called([first] + ids, context, process, [result] + rest)
  {
    var all, results := [first] + ids, [result] + rest;
    forall i | 0 <= i < |results|
      ensures results[i] == process(all[i], Handed(context, results, i))
    {
      assert i > 0 ==> rest[i - 1] == process(ids[i - 1], Handed(result.context, rest, i - 1));
    }
  }

  lemma CalledOnce<C>(ids: seq<StageId>, context: C, process: (StageId, C) -> ProcessOutcome<C>)
    requires ids != [] && !process(ids[0], context).Processed?
    ensures Called(ids, context, process, [process(ids[0], context)])
  {
  }

  /** Every execution is described so. */
  lemma {:induction false} CallsExist<C>(ids: seq<StageId>, context: C, process: (StageId, C) -> ProcessOutcome<C>)
    returns (results: seq<ProcessOutcome<C>>)
    ensures Called(ids, context, process, results)
    decreases |ids|
  {
    if ids == [] {
      results := [];
    } else {
      hide Called;
      var result := process(ids[0], context);
      if result.Processed? {
        var rest := CallsExist(ids[1..], result.context, process);
        CalledEarlier(ids[0], ids[1..], context, process, result, rest);
        assert [ids[0]] + ids[1..] == ids;
        results := [result] + rest;
      } else {
        CalledOnce(ids, context, process);
        results := [result];
      }
    }
  }

  class Pipeline {
    var stages: Stages

    constructor ()
      ensures stages == map[]
    {
      stages := map[];
    }

    /** Registration refuses invalid descriptors, null stages, duplicate ids and empty
        dependency names, in that order; unknown dependencies are accepted. */
    method RegisterStage(id: StageId, entry: StageEntry, present: bool) returns (status: Status)
      modifies this
      ensures status.Ok? <==>
        id.text != "" && entry.name != "" && present && id !in old(stages) && StageId("") !in entry.dependencies
      ensures stages == if status.Ok? then old(stages)[id := entry] else old(stages)
      ensures status.FailedPrecondition? <==> id.text != "" && entry.name != "" && present && id in old(stages)
    {
      if id.text == "" || entry.name == "" || !present {
        return InvalidArgument;
      }
      if id in stages {
        return FailedPrecondition;
      }
      for i := 0 to |entry.dependencies|
        invariant StageId("") !in entry.dependencies[..i]
      {
        if entry.dependencies[i].text == "" {
          return InvalidArgument;
        }
      }
      stages := stages[id := entry];
      return Ok;
    }

    /** Unregistration removes the stage and every dependency on it, and leaves a graph
        that could be ordered orderable. */
    method UnregisterStage(id: StageId) returns (status: Status)
      modifies this
      ensures status.Ok? <==> id.text != "" && id in old(stages)
      ensures stages == if status.Ok? then Unregistered(old(stages), id) else old(stages)
      ensures status.Ok? ==> stages.Keys == old(stages.Keys) - {id} && forall x :: x in stages ==>
        && stages[x].name == old(stages)[x].name && stages[x].enabled == old(stages)[x].enabled
        && multiset(stages[x].dependencies) == multiset(old(stages)[x].dependencies)[id := 0]
      ensures status.InvalidArgument? <==> id.text == ""
      ensures old(Closed(stages) && Acyclic(stages)) ==> Closed(stages) && Acyclic(stages)
    {
      if id.text == "" {
        return InvalidArgument;
      }
      if id !in stages {
        return Unavailable;
      }
      UnregisterKeepsOrderable(stages, id);
      ghost var before := stages;
      stages := stages - {id};
      var rest := stages.Keys;
      while rest != {}
        invariant rest <= stages.Keys == before.Keys - {id}
        invariant forall x :: x in stages ==>
                                stages[x] == if x in rest then before[x] else Unregistered(before, id)[x]
        decreases rest
      {
        var x :| x in rest;
        rest := rest - {x};
        stages := stages[x := stages[x].(dependencies := Without(stages[x].dependencies, id))];
      }
      return Ok;
    }

    /** Execution runs the enabled stages in dependency order and stops at the first one
        that fails; each executed stage comes after its enabled dependencies. */
    method Execute<C>(context: C, process: (StageId, C) -> ProcessOutcome<C>)
      returns (out: Outcome<C>, ghost order: seq<StageId>)
      ensures !(Closed(stages) && Acyclic(stages)) ==> out == Outcome(FailedPrecondition, [], context)
      ensures Closed(stages) && Acyclic(stages) ==>
        && IsExecutionOrder(stages, order)
        && (forall id :: id in order ==> id in stages)
        && out == RunStages(stages, order, context, process)
        && out.executed <= EnabledIn(stages, order)
        && (out.status.Ok? <==> out.executed == EnabledIn(stages, order))
      ensures RespectsEnabledDependencies(stages, out.executed)
      ensures forall id :: id in out.executed ==> id in stages && stages[id].enabled
      ensures out.status.Ok? ==> forall id :: id in stages && stages[id].enabled ==> id in out.executed
    {
      var status, plan := BuildExecutionOrder(stages);
      order := plan;
      if !status.Ok? {
        return Outcome(status, [], context), order;
      }
      EnabledOrderRespects(stages, plan);
      forall id | id in plan ensures id in stages { assert id in Elements(plan); }
      forall id
        ensures id in EnabledIn(stages, plan) <==> id in Elements(plan) && id in stages && stages[id].enabled
      {
        EnabledMember(stages, plan, id);
      }
      out := RunPlan(stages, plan, context, process);
      RunsEnabledPrefix(stages, plan, context, process);
      PrefixRespects(stages, out.executed, EnabledIn(stages, plan));
    }
  }

  /** The execution loop over an order already built. */
  method RunPlan<C>(stages: Stages, plan: seq<StageId>, context: C, process: (StageId, C) -> ProcessOutcome<C>)
    returns (out: Outcome<C>)
    requires forall id :: id in plan ==> id in stages
    ensures out == RunStages(stages, plan, context, process)
  {
    var executed, current := [], context;
    for i := 0 to |plan|
      invariant RunStages(stages, plan, context, process) ==
        RunStages(stages, plan[i..], current, process).After(executed)
    {
      var id := plan[i];
      assert plan[i..][1..] == plan[i + 1..];
      if stages[id].enabled {
        match process(id, current) {
          case Processed(next) =>
            ghost var rest := RunStages(stages, plan[i + 1..], next, process);
            assert executed + ([id] + rest.executed) == (executed + [id]) + rest.executed;
            current := next;
            executed := executed + [id];
          case Rejected(next) =>
            return Outcome(StageFailure, executed, next);
          case Threw(next) =>
            return Outcome(InternalError, executed, next);
        }
      }
    }
    out := Outcome(Ok, executed, current);
  }
}
