/** The lease manager's methods, and the lock objects that own leases. */
module ResourceManager {
  import opened Basics
  import Model = ResourceModel
  import opened ResourceModel
  import opened ResourceTheorems

  class Manager {
    var resources: map<ResourceId, Resource>
    var nextLease: Lease
    // the threads inside the manager
    ghost var waiters: map<Thread, Waiter>
    ghost var notifying: set<Thread>

    ghost function View(): State
      reads this
    {
      State(resources, nextLease, waiters, notifying)
    }

    constructor ()
      ensures View() == Initial() && Inv(View())
    {
      resources, nextLease, waiters, notifying := map[], 1, map[], {};
    }

    function Entry(id: ResourceId): Resource
      reads this
    {
      if id in resources then resources[id] else Fresh
    }

    /** Hands out a new lease on an entry. */
    method CreateLock(id: ResourceId, mode: Mode, entry: Resource) returns (h: Handle)
      modifies this`resources, this`nextLease
      ensures View() == Model.CreateLock(old(View()), id, mode, entry)
      ensures h == Handle(id, mode, old(nextLease))
    {
      h := Handle(id, mode, nextLease);
      nextLease := nextLease + 1;
      if mode.Exclusive? {
        resources := resources[id := entry.(exclusive := Some(h.lease))];
      } else {
        resources := resources[id := entry.(shared := entry.shared + {h.lease})];
      }
    }

    method RemoveUnused(id: ResourceId)
      modifies this`resources
      ensures resources ==
        if id in old(resources) && Unused(old(resources)[id]) then old(resources) - {id} else old(resources)
    {
      if id in resources && Unused(resources[id]) {
        resources := resources - {id};
      }
    }

    /** A try succeeds exactly when the identifier is valid and the entry can be acquired, and
        then its handle is active; a failed try changes nothing. */
    method TryAcquire(ghost t: Thread, id: ResourceId, mode: Mode) returns (h: Option<Handle>)
      requires Inv(View()) && Free(View(), t)
      modifies this`resources, this`nextLease
      ensures Inv(View()) && View() == TryAcquireStep(old(View()), t, id, mode)
      ensures h.Some? <==> id != 0 && old(Grantable(View(), id, mode))
      ensures h.Some? ==> h.value.IsValid() && Holds(View(), h.value) && h.value.resource == id && h.value.mode == mode
      ensures h.None? ==> View() == old(View())
    {
      hide Inv, Grantable;
      GrantableMeans(View(), id, mode);
      AcquireInv(View(), t, id, mode, false);
      LeaseIds(View());
      if id == 0 {
        return None;
      }
      ghost var before := View();
      if id !in resources {
        resources := resources[id := Fresh];
      }
      if !CanAcquire(resources[id], mode) {
        Refused(before, id, mode);
        RemoveUnused(id);
        return None;
      }
      var handle := CreateLock(id, mode, resources[id]);
      assert View() == Model.CreateLock(before, id, mode, Lookup(before, id));
      return Some(handle);
    }

    /** An acquire up to its first wait. Without a handle the thread is parked, counted in
        the entry, and its predicate is false. */
    method BeginAcquire(ghost t: Thread, id: ResourceId, mode: Mode, ghost timed: bool) returns (h: Option<Handle>)
      requires Inv(View()) && Free(View(), t)
      modifies this
      ensures Inv(View()) && View() == AcquireStep(old(View()), t, id, mode, timed)
      ensures h.Some? <==> id != 0 && old(Grantable(View(), id, mode))
      ensures h.Some? ==> h.value.IsValid() && Holds(View(), h.value) && h.value.resource == id && h.value.mode == mode
      ensures h.None? && id != 0 ==> t in waiters && !waiters[t].notified
    {
      hide Inv, Grantable;
      GrantableMeans(View(), id, mode);
      AcquireInv(View(), t, id, mode, timed);
      LeaseIds(View());
      if id == 0 {
        return None;
      }
      var entry := Entry(id);
      if CanAcquire(entry, mode) {
        var handle := CreateLock(id, mode, entry);
        return Some(handle);
      }
      if mode.Exclusive? {
        resources := resources[id := entry.(waitingExclusive := entry.waitingExclusive + 1)];
      } else {
        resources := resources[id := entry.(waitingShared := entry.waitingShared + 1)];
      }
      waiters := waiters[t := Waiter(id, mode, timed, false)];
      return None;
    }

    /** A woken thread looks at its predicate: it takes its lease or parks again. */
    method Recheck(ghost t: Thread, id: ResourceId, mode: Mode) returns (h: Option<Handle>)
      requires Inv(View()) && t in waiters && waiters[t].notified && waiters[t].resource == id
      requires waiters[t].mode == mode
      modifies this
      ensures Inv(View()) && View() == WakeStep(old(View()), t)
      ensures h.Some? <==> old(Grantable(View(), id, mode))
      ensures h.None? ==> t in waiters && !waiters[t].notified && resources == old(resources)
      ensures h.Some? ==> Holds(View(), h.value) && h.value.resource == id && h.value.mode == mode
    {
      hide Inv, Grantable;
      GrantableMeans(View(), id, mode);
      WakeInv(View(), t);
      WaiterCounted(View(), t);
      var entry := resources[id];
      if !CanAcquire(entry, mode) {
        waiters := waiters[t := waiters[t].(notified := false)];
        return None;
      }
      waiters := waiters - {t};
      if mode.Exclusive? {
        entry := entry.(waitingExclusive := entry.waitingExclusive - 1);
      } else {
        entry := entry.(waitingShared := entry.waitingShared - 1);
      }
      var handle := CreateLock(id, mode, entry);
      return Some(handle);
    }

    /** The deadline of a timed wait whose predicate is false: the entry loses a waiter, is
        forgotten when unused, and an exclusive waiter wakes all the others. */
    method ExpireWait(ghost t: Thread, id: ResourceId, mode: Mode)
      requires Inv(View()) && t in waiters && waiters[t].timed && waiters[t].resource == id && waiters[t].mode == mode
      requires !Grantable(View(), id, mode)
      modifies this
      ensures Inv(View()) && View() == ExpireStep(old(View()), t)
      ensures t !in waiters && nextLease == old(nextLease) && notifying == old(notifying)
      ensures mode.Exclusive? ==> forall u :: u in waiters ==> waiters[u].notified
      ensures waiters.Keys == old(waiters.Keys) - {t}
      ensures forall l :: Active(View(), l) <==> old(Active(View(), l))
    {
      hide Inv, Grantable;
      GrantableMeans(View(), id, mode);
      ExpiryKeepsLeases(View(), t);
      ExpireInv(View(), t);
      WaiterCounted(View(), t);
      ghost var before := resources;
      waiters := waiters - {t};
      var entry := resources[id];
      if mode.Exclusive? {
        entry := entry.(waitingExclusive := entry.waitingExclusive - 1);
        waiters := NotifyAll(waiters);
      } else {
        entry := entry.(waitingShared := entry.waitingShared - 1);
      }
      resources := resources[id := entry];
      assert before[id := entry] - {id} == before - {id};
      RemoveUnused(id);
    }

    /** Releases the lease a handle names; a handle whose lease has ended releases nothing. */
    method Release(ghost t: Thread, h: Handle) returns (released: bool)
      requires Inv(View()) && Free(View(), t)
      modifies this`resources, this`notifying
      ensures Inv(View()) && View() == ReleaseStep(old(View()), t, h)
      ensures released <==>
        && h.resource != 0 && h.lease != 0 && h.resource in old(resources)
        && (if h.mode == Exclusive then old(resources)[h.resource].exclusive == Some(h.lease)
            else h.lease in old(resources)[h.resource].shared)
      ensures !released ==> View() == old(View())
      ensures released ==> !Active(View(), h.lease) && t in notifying
    {
      hide Inv;
      ReleaseInv(View(), t, h);
      if h.IsValid() && Holds(View(), h) {
        ReleaseEndsOneLease(View(), t, h, h.lease);
      }
      if !h.IsValid() || h.resource !in resources {
        return false;
      }
      var entry := resources[h.resource];
      released := false;
      if h.mode.Exclusive? {
        if entry.exclusive == Some(h.lease) {
          entry := entry.(exclusive := None);
          released := true;
        }
      } else {
        released := h.lease in entry.shared;
        entry := entry.(shared := entry.shared - {h.lease});
      }
      if !released {
        return;
      }
      if Unused(entry) {
        resources := resources - {h.resource};
      } else {
        resources := resources[h.resource := entry];
      }
      notifying := notifying + {t};
    }

    /** How many leases are active on a resource. */
    method ActiveLockCount(id: ResourceId) returns (count: nat)
      requires Inv(View())
      ensures count == |Leases(Entry(id))|
      ensures Entry(id).exclusive.Some? ==> count == 1
    {
      if id == 0 || id !in resources {
        NoEntry(View());
        return 0;
      }
      EntryId(resources, id);
      count := |resources[id].shared| + if resources[id].exclusive.Some? then 1 else 0;
    }
  }

  ghost function Leases(r: Resource): set<Lease> {
    r.shared + if r.exclusive.Some? then {r.exclusive.value} else {}
  }

  lemma NoEntry(s: State)
    requires Inv(s)
    ensures 0 !in s.resources
  {
  }

  lemma ExpiryKeepsLeases(s: State, t: Thread)
    requires Inv(s) && t in s.waiters && s.waiters[t].timed
    requires !CanAcquire(Lookup(s, s.waiters[t].resource), s.waiters[t].mode)
    ensures forall l :: Active(ExpireStep(s, t), l) <==> Active(s, l)
  {
    hide LeasesOk, WakeupsOk, CanAcquire, NotifyAll;
    WaiterEntries(s.resources, s.waiters);
    var after := ExpireStep(s, t);
    forall l, id | id in s.resources && IsLease(s.resources[id], l)
      ensures id in after.resources && IsLease(after.resources[id], l)
    {
    }
    forall l, id | id in after.resources && IsLease(after.resources[id], l)
      ensures id in s.resources && IsLease(s.resources[id], l)
    {
    }
  }

  lemma LeaseIds(s: State)
    requires Inv(s)
    ensures s.nextLease >= 1
  {
  }

  lemma WaiterCounted(s: State, t: Thread)
    requires Inv(s) && t in s.waiters
    ensures s.waiters[t].resource in s.resources
    ensures if s.waiters[t].mode.Exclusive? then s.resources[s.waiters[t].resource].waitingExclusive > 0
            else s.resources[s.waiters[t].resource].waitingShared > 0
  {
    hide ResourcesOk, LeasesOk, WakeupsOk;
    assert t in WaitersOn(s.waiters, s.waiters[t].resource, s.waiters[t].mode);
  }

  /** An entry that cannot be acquired is already there and in use. */
  lemma Refused(s: State, id: ResourceId, mode: Mode)
    requires Inv(s) && !CanAcquire(Lookup(s, id), mode)
    ensures id in s.resources && !Unused(s.resources[id])
  {
  }

  /** An object that may own a lease. */
  class Lock {
    var manager: Manager?
    var handle: Handle
    var owns: bool

    constructor (manager: Manager, handle: Handle)
      ensures this.manager == manager && this.handle == handle && owns == handle.IsValid()
    {
      this.manager, this.handle, owns := manager, handle, handle.IsValid();
    }

    /** Releases an owned lease once: a lock that owns nothing leaves the manager alone. */
    method Release(ghost t: Thread) returns (released: bool)
      requires manager != null ==> Inv(manager.View()) && Free(manager.View(), t)
      modifies this`owns, manager
      ensures manager != null ==> Inv(manager.View())
      ensures manager != null ==>
        manager.View() == if old(owns) then ReleaseStep(old(manager.View()), t, handle) else old(manager.View())
      ensures released <==> old(owns) && manager != null && handle.IsValid() && old(Holds(manager.View(), handle))
      ensures manager != null ==> !owns
    {
      if !owns || manager == null {
        return false;
      }
      released := manager.Release(t, handle);
      owns := false;
    }

    /** Move assignment: an owned lease is released first, then the other's changes owner. */
    method AssignFrom(ghost t: Thread, other: Lock)
      requires manager != null ==> Inv(manager.View()) && Free(manager.View(), t)
      modifies this, other`owns, manager
      ensures other != this ==>
        manager == old(other.manager) && handle == old(other.handle) && owns == old(other.owns) && !other.owns
      ensures other != this && old(manager) != null ==> Inv(old(manager).View())
      ensures other != this && old(manager) != null ==>
        old(manager).View() ==
          if old(owns) then ReleaseStep(old(manager.View()), t, old(handle)) else old(manager.View())
      ensures other == this ==> manager == old(manager) && handle == old(handle) && owns == old(owns)
    {
      if other != this {
        var _ := Release(t);
        manager, handle, owns := other.manager, other.handle, other.owns;
        other.owns := false;
      }
    }

    /** Move construction: the lease changes owner and is not released. */
    method MoveFrom(other: Lock)
      requires other != this && !owns
      modifies this, other`owns
      ensures manager == other.manager && handle == other.handle && owns == old(other.owns) && !other.owns
    {
      manager, handle, owns := other.manager, other.handle, other.owns;
      other.owns := false;
    }
  }
}
