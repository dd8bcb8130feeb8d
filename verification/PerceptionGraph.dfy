/** The dependency graph of the perception pipeline: what a cycle is, what a dependency
    order is, and why a graph has an order exactly when it has no cycle. */
module PerceptionGraph {
  import opened Basics

  /** A stage name. */
  datatype StageId = StageId(text: string)

  datatype StageEntry = StageEntry(name: string, enabled: bool, dependencies: seq<StageId>)

  type Stages = map<StageId, StageEntry>

  /** Every dependency names a registered stage. */
  predicate Closed(stages: Stages) {
    forall id, d :: id in stages && d in stages[id].dependencies ==> d in stages
  }

  /** `next` is a dependency of `id`. */
  predicate DependsOn(stages: Stages, id: StageId, next: StageId) {
    id in stages && next in stages && next in stages[id].dependencies
  }

  /** A walk along dependency edges. */
  predicate IsWalk(stages: Stages, walk: seq<StageId>) {
    && (forall i :: 0 <= i < |walk| ==> walk[i] in stages)
    && (forall i :: 0 <= i < |walk| - 1 ==> DependsOn(stages, walk[i], walk[i + 1]))
  }

  /** A nonempty walk whose last stage depends on its first. */
  predicate IsCycle(stages: Stages, walk: seq<StageId>) {
    |walk| > 0 && IsWalk(stages, walk) && DependsOn(stages, walk[|walk| - 1], walk[0])
  }

  ghost predicate Acyclic(stages: Stages) {
    forall walk :: !IsCycle(stages, walk)
  }

  /** Every stage of the order stands after all its dependencies. */
  ghost predicate DependenciesFirst(stages: Stages, order: seq<StageId>) {
    forall i, d :: 0 <= i < |order| && order[i] in stages && d in stages[order[i]].dependencies ==> d in order[..i]
  }

  /** A permutation of the registered stages that respects every dependency. */
  ghost predicate IsExecutionOrder(stages: Stages, order: seq<StageId>) {
    NoDuplicates(order) && Elements(order) == stages.Keys && DependenciesFirst(stages, order)
  }

  lemma {:induction false} DistinctCount<T>(s: seq<T>)
    requires NoDuplicates(s)
    ensures |Elements(s)| == |s|
  {
    if s != [] {
      var last := |s| - 1;
      DistinctCount(s[..last]);
      assert Elements(s) == Elements(s[..last]) + {s[last]};
      assert s[last] !in Elements(s[..last]);
    }
  }

  lemma SubsetCount<T>(a: set<T>, b: set<T>)
    requires a <= b
    ensures |a| <= |b|
    ensures |a| == |b| ==> a == b
  {
    assert b == a + (b - a);
  }

  /** A walk through a dependency order only moves to earlier positions. */
  lemma {:induction false} WalkDescends(
      stages: Stages, order: seq<StageId>, walk: seq<StageId>, at: nat) returns (end: nat)
    requires IsExecutionOrder(stages, order)
    requires |walk| > 0 && IsWalk(stages, walk)
    requires at < |order| && order[at] == walk[0]
    ensures end < |order| && order[end] == walk[|walk| - 1] && end <= at
  {
    if |walk| == 1 {
      end := at;
    } else {
      assert DependsOn(stages, walk[0], walk[1]);
      var next :| 0 <= next < at && order[next] == walk[1];
      end := WalkDescends(stages, order, walk[1..], next);
    }
  }

  /** A graph that has a dependency order has no cycle. */
  lemma OrderImpliesAcyclic(stages: Stages, order: seq<StageId>)
    requires IsExecutionOrder(stages, order)
    ensures Acyclic(stages)
  {
    forall walk
      ensures !IsCycle(stages, walk)
    {
      if |walk| > 0 && IsWalk(stages, walk) {
        assert walk[0] in Elements(order);
        var at :| 0 <= at < |order| && order[at] == walk[0];
        var end := WalkDescends(stages, order, walk, at);
        assert walk[0] !in order[..end];
      }
    }
  }

  ghost predicate DependsInto(stages: Stages, rest: set<StageId>, id: StageId) {
    id in stages && exists d :: d in rest && d in stages[id].dependencies
  }

  /** A nonempty set of stages each of which depends on another of the set. */
  ghost predicate Stuck(stages: Stages, rest: set<StageId>) {
    && rest != {}
    && rest <= stages.Keys
    && (forall id {:trigger DependsInto(stages, rest, id)} :: id in rest ==> DependsInto(stages, rest, id))
  }

  lemma {:induction false} LongWalk(stages: Stages, rest: set<StageId>, length: nat) returns (walk: seq<StageId>)
    requires Stuck(stages, rest)
    ensures |walk| == length + 1 && IsWalk(stages, walk)
    ensures Elements(walk) <= rest
  {
    if length == 0 {
      var id :| id in rest;
      walk := [id];
    } else {
      var shorter := LongWalk(stages, rest, length - 1);
      var last := shorter[|shorter| - 1];
      assert last in Elements(shorter);
      assert DependsInto(stages, rest, last);
      var d :| d in rest && d in stages[last].dependencies;
      walk := shorter + [d];
      assert Elements(walk) == Elements(shorter) + {d};
    }
  }

  /** A stuck set contains a cycle: a walk longer than the set repeats a stage. */
  lemma StuckImpliesCycle(stages: Stages, rest: set<StageId>)
    requires Stuck(stages, rest)
    ensures !Acyclic(stages)
  {
    var walk := LongWalk(stages, rest, |rest|);
    if NoDuplicates(walk) {
      DistinctCount(walk);
      SubsetCount(Elements(walk), rest);
      assert false;
    }
    var i, j :| 0 <= i < j < |walk| && walk[i] == walk[j];
    var cycle := walk[i..j];
    assert DependsOn(stages, walk[j - 1], walk[j]);
    forall k | 0 <= k < |cycle| - 1
      ensures DependsOn(stages, cycle[k], cycle[k + 1])
    {
      assert DependsOn(stages, walk[i + k], walk[i + k + 1]);
    }
    assert IsCycle(stages, cycle);
  }

  /** The dependencies that stay when `gone` is unregistered. */
  function Without(dependencies: seq<StageId>, gone: StageId): (kept: seq<StageId>)
    ensures forall d :: d in kept <==> d in dependencies && d != gone
    ensures multiset(kept) == multiset(dependencies)[gone := 0]
  {
    assert dependencies != [] ==> dependencies == [dependencies[0]] + dependencies[1..];
    if dependencies == [] then []
    else if dependencies[0] == gone then Without(dependencies[1..], gone)
    else [dependencies[0]] + Without(dependencies[1..], gone)
  }

  function Unregistered(stages: Stages, gone: StageId): Stages {
    map id | id in stages && id != gone :: stages[id].(dependencies := Without(stages[id].dependencies, gone))
  }

  /** Removing a stage keeps a closed graph closed and an acyclic graph acyclic. */
  lemma UnregisterKeepsOrderable(stages: Stages, gone: StageId)
    ensures Closed(stages) ==> Closed(Unregistered(stages, gone))
    ensures Acyclic(stages) ==> Acyclic(Unregistered(stages, gone))
  {
    var after := Unregistered(stages, gone);
    forall walk | IsCycle(after, walk)
      ensures IsCycle(stages, walk)
    {
      forall i | 0 <= i < |walk| - 1
        ensures DependsOn(stages, walk[i], walk[i + 1])
      {
        assert DependsOn(after, walk[i], walk[i + 1]);
      }
    }
  }
}
