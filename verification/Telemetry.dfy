/** The telemetry service's subscription identifiers: a cursor that wraps around. */
module Telemetry {

  type SubscriptionId = nat

  const Invalid: SubscriptionId := 0

  /** The id after `id` in an unsigned counter that skips zero when it starts over. */
  function Next(id: SubscriptionId, max: nat): SubscriptionId {
    if id >= max then 1 else id + 1
  }

  /** What an allocation gives after some attempts: an id or none, and the cursor it leaves. */
  function Allocate(
      cursor: SubscriptionId, used: set<SubscriptionId>, max: nat, attempts: nat): (SubscriptionId, SubscriptionId)
    decreases max - attempts
  {
    if attempts >= max then (Invalid, cursor)
    else if cursor != Invalid && cursor !in used then (cursor, Next(cursor, max))
    else Allocate(Next(cursor, max), used, max, attempts + 1)
  }

  // ---------------------------------------------------------------- completeness

  /** The id `k` places after `cursor`, where ids run from one to `max` and start over. */
  function Ahead(cursor: SubscriptionId, k: nat, max: nat): SubscriptionId
    requires 1 <= cursor <= max && k <= max
  {
    if cursor + k <= max then cursor + k else cursor + k - max
  }

  /** Going all the way round meets every id. */
  lemma EveryIdIsAhead(cursor: SubscriptionId, max: nat, id: SubscriptionId)
    requires 1 <= cursor <= max && 1 <= id <= max
    ensures exists k: nat :: k < max && Ahead(cursor, k, max) == id
  {
    var k := if id >= cursor then id - cursor else id + max - cursor;
    assert Ahead(cursor, k, max) == id;
  }

  /** The result is `k` places on, and everything before it is in use. */
  ghost predicate FirstFree(cursor: SubscriptionId, used: set<SubscriptionId>, max: nat, id: SubscriptionId, k: nat)
    requires 1 <= cursor <= max
  {
    k <= max && Ahead(cursor, k, max) == id && id !in used && forall j: nat :: j < k ==> Ahead(cursor, j, max) in used
  }

  lemma {:induction false} AllocatedIsFirstFree(
      cursor: SubscriptionId, used: set<SubscriptionId>, max: nat, attempts: nat)
    requires 1 <= cursor <= max && attempts <= max
    ensures var (id, next) := Allocate(cursor, used, max, attempts);
      && 1 <= next <= max
      && (id == Invalid ==> next == Ahead(cursor, max - attempts, max))
      && (id == Invalid ==> forall j: nat :: j < max - attempts ==> Ahead(cursor, j, max) in used)
      && (id != Invalid ==> 1 <= id <= max && next == Ahead(id, 1, max))
      && (id != Invalid ==> exists k: nat :: k < max - attempts && FirstFree(cursor, used, max, id, k))
    decreases max - attempts
  {
    if attempts < max {
      if cursor !in used {
        assert FirstFree(cursor, used, max, cursor, 0);
      } else {
        var second := Next(cursor, max);
        AllocatedIsFirstFree(second, used, max, attempts + 1);
        var id := Allocate(cursor, used, max, attempts).0;
        assert forall j: nat :: j < max ==> Ahead(second, j, max) == Ahead(cursor, j + 1, max);
        if id == Invalid {
          forall j: nat | j < max - attempts
            ensures Ahead(cursor, j, max) in used
          {
            assert j > 0 ==> Ahead(cursor, j, max) == Ahead(second, j - 1, max);
          }
        } else {
          var k: nat :| k < max - attempts - 1 && FirstFree(second, used, max, id, k);
          forall j: nat | j < k + 1
            ensures Ahead(cursor, j, max) in used
          {
            assert j > 0 ==> Ahead(cursor, j, max) == Ahead(second, j - 1, max);
          }
          assert FirstFree(cursor, used, max, id, k + 1);
        }
      }
    }
  }

  /** For every maximum id and every set of ids in use: an allocation fails exactly if all ids are
      in use, it gives the first unused id from the cursor on, and the cursor stays valid. */
  lemma AllocatorIsComplete(cursor: SubscriptionId, used: set<SubscriptionId>, max: nat)
    requires 1 <= cursor <= max
    ensures var (id, next) := Allocate(cursor, used, max, 0);
      && 1 <= next <= max
      && (id == Invalid <==> forall n: nat :: 1 <= n <= max ==> n in used)
      && (id != Invalid ==> 1 <= id <= max && id !in used && exists k: nat :: FirstFree(cursor, used, max, id, k))
  {
    AllocatedIsFirstFree(cursor, used, max, 0);
    if Allocate(cursor, used, max, 0).0 == Invalid {
      forall n: nat | 1 <= n <= max
        ensures n in used
      {
        EveryIdIsAhead(cursor, max, n);
      }
    }
  }

  // ---------------------------------------------------------------- the service

  class TelemetryService {
    const max: nat
    var nextId: SubscriptionId
    var listeners: set<SubscriptionId>

    ghost predicate Valid()
      reads this
    {
      1 <= nextId <= max && forall id :: id in listeners ==> 1 <= id <= max
    }

    constructor (max: nat)
      requires max >= 1
      ensures Valid() && this.max == max && nextId == 1 && listeners == {}
    {
      this.max, nextId, listeners := max, 1, {};
    }

    method AllocateSubscriptionId() returns (id: SubscriptionId)
      requires Valid()
      modifies this`nextId
      ensures Valid() && (id, nextId) == Allocate(old(nextId), listeners, max, 0)
    {
      AllocatorIsComplete(nextId, listeners, max);
      var attempts: nat := 0;
      while attempts < max
        invariant attempts <= max && 1 <= nextId <= max
        invariant Allocate(old(nextId), listeners, max, 0) == Allocate(nextId, listeners, max, attempts)
      {
        var candidate := nextId;
        nextId := if nextId == max then Invalid else nextId + 1;
        if nextId == Invalid {
          nextId := 1;
        }
        if candidate != Invalid && candidate !in listeners {
          return candidate;
        }
        attempts := attempts + 1;
      }
      return Invalid;
    }

    /** Fails for want of a listener or of a free id, and otherwise adds exactly one new id. */
    method Subscribe(hasListener: bool) returns (id: SubscriptionId)
      requires Valid()
      modifies this
      ensures Valid()
      ensures id == Invalid <==> !hasListener || AllInUse(max, old(listeners))
      ensures id == Invalid ==> listeners == old(listeners)
      ensures id != Invalid ==> id !in old(listeners) && listeners == old(listeners) + {id}
    {
      if !hasListener {
        return Invalid;
      }
      AllocatorIsComplete(nextId, listeners, max);
      id := AllocateSubscriptionId();
      if id != Invalid {
        listeners := listeners + {id};
      }
    }

    method Unsubscribe(id: SubscriptionId) returns (removed: bool)
      requires Valid()
      modifies this`listeners
      ensures Valid() && listeners == old(listeners) - {id} && (removed <==> id in old(listeners))
    {
      if id == Invalid {
        return false;
      }
      removed := id in listeners;
      listeners := listeners - {id};
    }
  }

  ghost predicate AllInUse(max: nat, used: set<SubscriptionId>) {
    forall n: nat :: 1 <= n <= max ==> n in used
  }
}
