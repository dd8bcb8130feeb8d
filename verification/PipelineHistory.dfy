/** The bounded history of command executions: the records, the order they were entered in, and
    the pruning that evicts the oldest finished execution first. */
module PipelineHistory {
  import opened Basics
  import opened Commands

  type ExecutionId = nat

  datatype History = History(records: map<ExecutionId, Status>, order: seq<ExecutionId>)

  ghost function Listed(order: seq<ExecutionId>): set<ExecutionId> {
    set id | id in order
  }

  /** The position of the oldest execution that is not outstanding, or the length. */
  function OldestFinished(order: seq<ExecutionId>, live: set<ExecutionId>): (i: nat)
    ensures i <= |order|
    ensures forall j :: 0 <= j < i ==> order[j] in live
    ensures i < |order| ==> order[i] !in live
  {
    if order == [] || order[0] !in live then 0 else 1 + OldestFinished(order[1..], live)
  }

  function Evict(h: History, i: nat): History
    requires i < |h.order|
  {
    History(h.records - {h.order[i]}, RemoveAt(h.order, i))
  }

  function Prune(h: History, live: set<ExecutionId>, limit: nat): History
    decreases |h.order|
  {
    var i := OldestFinished(h.order, live);
    if |h.records| <= limit || i == |h.order| then h else Prune(Evict(h, i), live, limit)
  }

  method FindOldestFinished(order: seq<ExecutionId>, live: set<ExecutionId>) returns (i: nat)
    ensures i == OldestFinished(order, live)
  {
    i := 0;
    while i < |order| && order[i] in live
      invariant i <= |order| && OldestFinished(order, live) == i + OldestFinished(order[i..], live)
    {
      i := i + 1;
    }
  }

  /** The eviction loop. */
  method PruneHistory(h: History, live: set<ExecutionId>, limit: nat) returns (pruned: History)
    ensures pruned == Prune(h, live, limit)
  {
    hide OldestFinished, Evict;
    pruned := h;
    while |pruned.records| > limit && pruned.order != []
      invariant Prune(h, live, limit) == Prune(pruned, live, limit)
      decreases |pruned.order|
    {
      var i := FindOldestFinished(pruned.order, live);
      if i == |pruned.order| {
        return;
      }
      EvictShortens(pruned, i);
      pruned := Evict(pruned, i);
    }
  }

  lemma EvictShortens(h: History, i: nat)
    requires i < |h.order|
    ensures |Evict(h, i).order| == |h.order| - 1
  {
  }

  // ---------------------------------------------------------------- what pruning does

  ghost predicate WellFormed(h: History, live: set<ExecutionId>) {
    NoDuplicates(h.order) && Listed(h.order) <= h.records.Keys && live <= Listed(h.order)
  }

  /** What one eviction does to the listing. */
  lemma EvictListed(order: seq<ExecutionId>, i: nat)
    requires NoDuplicates(order) && i < |order|
    ensures NoDuplicates(RemoveAt(order, i))
    ensures Listed(RemoveAt(order, i)) == Listed(order) - {order[i]}
  {
    var rest := RemoveAt(order, i);
    forall j | 0 <= j < |rest|
      ensures rest[j] == order[if j < i then j else j + 1]
    {
    }
    forall id | id in order && id != order[i]
      ensures id in rest
    {
      var k :| 0 <= k < |order| && order[k] == id;
      assert rest[if k < i then k else k - 1] == id;
    }
  }

  /** The executions that pruning evicts. */
  ghost function Evicted(h: History, live: set<ExecutionId>, limit: nat): set<ExecutionId> {
    Listed(h.order) - Listed(Prune(h, live, limit).order)
  }

  lemma EvictWellFormed(h: History, live: set<ExecutionId>, i: nat)
    requires WellFormed(h, live) && i < |h.order| && h.order[i] !in live
    ensures WellFormed(Evict(h, i), live)
    ensures Evict(h, i).records == h.records - {h.order[i]} && |Evict(h, i).records| == |h.records| - 1
    ensures Listed(Evict(h, i).order) == Listed(h.order) - {h.order[i]}
  {
    hide RemoveAt;
    EvictListed(h.order, i);
    assert h.order[i] in h.records;
    assert (h.records - {h.order[i]}).Keys == h.records.Keys - {h.order[i]};
    CardinalityWithout(h.records, h.order[i]);
  }

  lemma CardinalityWithout(records: map<ExecutionId, Status>, id: ExecutionId)
    requires id in records
    ensures |records - {id}| == |records| - 1
  {
    var fewer := records - {id};
    assert fewer.Keys == records.Keys - {id};
    assert |fewer| == |fewer.Keys| && |records| == |records.Keys|;
  }

  lemma {:induction false} PruneWellFormed(h: History, live: set<ExecutionId>, limit: nat)
    requires WellFormed(h, live)
    ensures var p := Prune(h, live, limit);
      WellFormed(p, live) && Listed(p.order) <= Listed(h.order) && (|p.records| <= limit || Listed(p.order) <= live)
    decreases |h.order|
  {
    hide RemoveAt, WellFormed, Evict, Listed;
    var i := OldestFinished(h.order, live);
    if |h.records| > limit && i < |h.order| {
      EvictShortens(h, i);
      EvictWellFormed(h, live, i);
      PruneWellFormed(Evict(h, i), live, limit);
    } else {
      AllListedLive(h.order, live);
    }
  }

  lemma AllListedLive(order: seq<ExecutionId>, live: set<ExecutionId>)
    ensures OldestFinished(order, live) == |order| ==> Listed(order) <= live
  {
  }

  lemma EvictedStep(h: History, live: set<ExecutionId>, limit: nat)
    requires WellFormed(h, live)
    ensures var i := OldestFinished(h.order, live);
      Evicted(h, live, limit) ==
        if |h.records| > limit && i < |h.order| then {h.order[i]} + Evicted(Evict(h, i), live, limit) else {}
  {
    hide RemoveAt, WellFormed, Evict, Listed;
    var i := OldestFinished(h.order, live);
    if |h.records| > limit && i < |h.order| {
      EvictWellFormed(h, live, i);
      PruneWellFormed(Evict(h, i), live, limit);
      ListedHas(h.order, i);
    }
  }

  lemma {:induction false} PruneRecords(h: History, live: set<ExecutionId>, limit: nat)
    requires WellFormed(h, live)
    ensures Prune(h, live, limit).records == h.records - Evicted(h, live, limit)
    decreases |h.order|
  {
    hide RemoveAt, WellFormed, Evict, Evicted;
    var i := OldestFinished(h.order, live);
    EvictedStep(h, live, limit);
    if |h.records| > limit && i < |h.order| {
      EvictShortens(h, i);
      EvictWellFormed(h, live, i);
      PruneRecords(Evict(h, i), live, limit);
      WithoutTwice(h.records, h.order[i], Evicted(Evict(h, i), live, limit));
    } else {
      WithoutNone(h.records);
    }
  }

  lemma {:induction false} PruneMinimal(h: History, live: set<ExecutionId>, limit: nat)
    requires WellFormed(h, live)
    ensures Evicted(h, live, limit) !! live
    ensures Evicted(h, live, limit) != {} ==> |Prune(h, live, limit).records| >= limit
    decreases |h.order|
  {
    hide RemoveAt, WellFormed, Evict, Evicted;
    var i := OldestFinished(h.order, live);
    EvictedStep(h, live, limit);
    if |h.records| > limit && i < |h.order| {
      EvictShortens(h, i);
      EvictWellFormed(h, live, i);
      var next := Evict(h, i);
      PruneMinimal(next, live, limit);
      PruneRecords(next, live, limit);
      WithoutNone(next.records);
    }
  }

  lemma WithoutNone(records: map<ExecutionId, Status>)
    ensures records - {} == records
  {
  }

  lemma ListedHas(order: seq<ExecutionId>, i: nat)
    requires i < |order|
    ensures order[i] in Listed(order)
  {
  }

  lemma WithoutTwice(records: map<ExecutionId, Status>, id: ExecutionId, gone: set<ExecutionId>)
    ensures records - {id} - gone == records - ({id} + gone)
  {
  }

  /** Pruning removes finished executions only, from both the records and the listing, and stops
      within the limit or when every listed execution is outstanding; it never goes below the limit. */
  lemma PruneKeeps(h: History, live: set<ExecutionId>, limit: nat)
    requires WellFormed(h, live)
    ensures var p, gone := Prune(h, live, limit), Evicted(h, live, limit);
      && WellFormed(p, live)
      && p.records == h.records - gone
      && gone !! live
      && Listed(p.order) == Listed(h.order) - gone
      && (|p.records| <= limit || Listed(p.order) <= live)
      && (gone != {} ==> |p.records| >= limit)
  {
    hide Prune, WellFormed, Listed;
    PruneWellFormed(h, live, limit);
    PruneRecords(h, live, limit);
    PruneMinimal(h, live, limit);
  }

  ghost predicate Earlier(order: seq<ExecutionId>, a: ExecutionId, b: ExecutionId) {
    exists i, j :: 0 <= i < j < |order| && order[i] == a && order[j] == b
  }

  lemma EvictKeepsEarlier(order: seq<ExecutionId>, i: nat, a: ExecutionId, b: ExecutionId)
    requires i < |order| && Earlier(RemoveAt(order, i), a, b)
    ensures Earlier(order, a, b)
  {
    var rest := RemoveAt(order, i);
    var x, y :| 0 <= x < y < |rest| && rest[x] == a && rest[y] == b;
    var k, l := if x < i then x else x + 1, if y < i then y else y + 1;
    assert order[k] == a && order[l] == b;
  }

  lemma {:induction false} PruneKeepsOrder(h: History, live: set<ExecutionId>, limit: nat)
    ensures forall a, b :: Earlier(Prune(h, live, limit).order, a, b) ==> Earlier(h.order, a, b)
    decreases |h.order|
  {
    hide RemoveAt, Earlier;
    var i := OldestFinished(h.order, live);
    if |h.records| > limit && i < |h.order| {
      EvictShortens(h, i);
      PruneKeepsOrder(Evict(h, i), live, limit);
      forall a, b | Earlier(Prune(h, live, limit).order, a, b)
        ensures Earlier(h.order, a, b)
      {
        EvictKeepsEarlier(h.order, i, a, b);
      }
    }
  }

  lemma {:induction false} EvictedBeforeKept(
      h: History, live: set<ExecutionId>, limit: nat, gone: ExecutionId, kept: ExecutionId)
    requires WellFormed(h, live)
    requires gone in Evicted(h, live, limit) && kept in Listed(Prune(h, live, limit).order) && kept !in live
    ensures Earlier(h.order, gone, kept)
    decreases |h.order|
  {
    hide RemoveAt, Earlier, Listed, WellFormed;
    var i := OldestFinished(h.order, live);
    EvictShortens(h, i);
    EvictWellFormed(h, live, i);
    var next := Evict(h, i);
    PruneWellFormed(next, live, limit);
    if gone == h.order[i] {
      OldestIsEarlier(h.order, live, i, kept);
    } else {
      EvictedBeforeKept(next, live, limit, gone, kept);
      EvictKeepsEarlier(h.order, i, gone, kept);
    }
  }

  /** Eviction is oldest-first: a finished execution is kept only if it was entered after every
      execution that is evicted. The order of the kept ones does not change. */
  lemma PruneIsOldestFirst(h: History, live: set<ExecutionId>, limit: nat)
    requires WellFormed(h, live)
    ensures forall gone, kept ::
      gone in Evicted(h, live, limit) && kept in Listed(Prune(h, live, limit).order) && kept !in live ==>
        Earlier(h.order, gone, kept)
    ensures forall a, b :: Earlier(Prune(h, live, limit).order, a, b) ==> Earlier(h.order, a, b)
  {
    hide Prune, Earlier, Listed, WellFormed, Evicted;
    PruneKeepsOrder(h, live, limit);
    forall gone, kept | gone in Evicted(h, live, limit) && kept in Listed(Prune(h, live, limit).order) && kept !in live
      ensures Earlier(h.order, gone, kept)
    {
      EvictedBeforeKept(h, live, limit, gone, kept);
    }
  }

  lemma OldestIsEarlier(order: seq<ExecutionId>, live: set<ExecutionId>, i: nat, kept: ExecutionId)
    requires i == OldestFinished(order, live) && i < |order| && kept in Listed(order) && kept !in live
    requires kept != order[i]
    ensures Earlier(order, order[i], kept)
  {
    var k :| 0 <= k < |order| && order[k] == kept;
    assert k > i;
  }
}
