/** Mutual exclusion, writer preference, no lost wakeup and no stale release, over every
    interleaving of the manager's callers. */
module ResourceTheorems {
  import opened Basics
  import opened ResourceModel

  // ---------------------------------------------------------------- invariant

  ghost function WaitersOn(waiters: map<Thread, Waiter>, id: ResourceId, mode: Mode): set<Thread> {
    set t | t in waiters && waiters[t].resource == id && waiters[t].mode == mode
  }

  ghost predicate IsLease(r: Resource, lease: Lease) {
    lease in r.shared || r.exclusive == Some(lease)
  }

  /** An exclusive lease excludes every other lease. */
  ghost predicate ExclusionOk(r: Resource) {
    r.exclusive.Some? ==> r.shared == {}
  }

  ghost predicate ResourcesOk(resources: map<ResourceId, Resource>) {
    forall id :: id in resources ==> id != 0 && ExclusionOk(resources[id]) && !Unused(resources[id])
  }

  /** Active leases are older than the next lease id and belong to one resource. */
  ghost predicate LeasesOk(resources: map<ResourceId, Resource>, next: Lease) {
    && next >= 1
    && (forall id, l: Lease :: id in resources && IsLease(resources[id], l) ==> 1 <= l < next)
    && (forall a, b, l :: a in resources && b in resources && IsLease(resources[a], l) && IsLease(resources[b], l) ==>
      a == b)
  }

  /** The entry's counters count its waiters, so an entry with a waiter exists. */
  ghost predicate WaitsOk(resources: map<ResourceId, Resource>, waiters: map<Thread, Waiter>) {
    && (forall t :: t in waiters ==> waiters[t].resource in resources)
    && (forall id :: id in resources ==>
          && resources[id].waitingShared == |WaitersOn(waiters, id, Shared)|
          && resources[id].waitingExclusive == |WaitersOn(waiters, id, Exclusive)|)
  }

  /** A parked thread whose predicate holds is about to be notified. */
  ghost predicate WakeupsOk(
      resources: map<ResourceId, Resource>, waiters: map<Thread, Waiter>, notifying: set<Thread>) {
    notifying == {} ==> forall t :: t in waiters && !waiters[t].notified && waiters[t].resource in resources ==>
      !CanAcquire(resources[waiters[t].resource], waiters[t].mode)
  }

  ghost predicate Inv(s: State) {
    && ResourcesOk(s.resources) && LeasesOk(s.resources, s.nextLease)
    && WaitsOk(s.resources, s.waiters) && WakeupsOk(s.resources, s.waiters, s.notifying)
  }

  // ---------------------------------------------------------------- counting waiters

  lemma AddWaiter(waiters: map<Thread, Waiter>, t: Thread, w: Waiter, id: ResourceId, mode: Mode)
    requires t !in waiters
    ensures |WaitersOn(waiters[t := w], id, mode)| ==
      |WaitersOn(waiters, id, mode)| + if w.resource == id && w.mode == mode then 1 else 0
  {
    assert WaitersOn(waiters[t := w], id, mode) ==
      WaitersOn(waiters, id, mode) + if w.resource == id && w.mode == mode then {t} else {};
  }

  lemma RemoveWaiter(waiters: map<Thread, Waiter>, t: Thread, id: ResourceId, mode: Mode)
    requires t in waiters
    ensures |WaitersOn(waiters, id, mode)| ==
            |WaitersOn(waiters - {t}, id, mode)| + if waiters[t].resource == id && waiters[t].mode == mode then 1 else 0
  {
    assert WaitersOn(waiters, id, mode) ==
           WaitersOn(waiters - {t}, id, mode)
             + if waiters[t].resource == id && waiters[t].mode == mode then {t} else {};
  }

  /** Notification flags do not matter for the counts. */
  ghost predicate SameWaits(a: map<Thread, Waiter>, b: map<Thread, Waiter>) {
    a.Keys == b.Keys && forall t :: t in a ==> a[t].resource == b[t].resource && a[t].mode == b[t].mode
  }

  lemma FlagsDoNotCount(resources: map<ResourceId, Resource>, a: map<Thread, Waiter>, b: map<Thread, Waiter>)
    requires WaitsOk(resources, a) && SameWaits(a, b)
    ensures WaitsOk(resources, b)
  {
    forall id, mode
      ensures WaitersOn(a, id, mode) == WaitersOn(b, id, mode)
    {
    }
  }

  /** Changing the leases of an entry keeps its counters. */
  lemma WaitsKeep(resources: map<ResourceId, Resource>, waiters: map<Thread, Waiter>, id: ResourceId, r: Resource)
    requires WaitsOk(resources, waiters)
    requires id in resources ==>
      r.waitingShared == resources[id].waitingShared && r.waitingExclusive == resources[id].waitingExclusive
    requires id !in resources ==> r.waitingShared == 0 && r.waitingExclusive == 0
    ensures WaitsOk(resources[id := r], waiters)
    ensures WaitsOk(Store(resources, id, r), waiters)
  {
    hide CanAcquire;
    if id !in resources {
      NobodyWaits(resources, waiters, id);
    }
    if Unused(r) && id in resources {
      EmptyWaits(resources, waiters, id);
    }
  }

  lemma NobodyWaits(resources: map<ResourceId, Resource>, waiters: map<Thread, Waiter>, id: ResourceId)
    requires WaitsOk(resources, waiters) && id !in resources
    ensures |WaitersOn(waiters, id, Shared)| == 0 && |WaitersOn(waiters, id, Exclusive)| == 0
  {
    assert WaitersOn(waiters, id, Shared) == {} == WaitersOn(waiters, id, Exclusive);
  }

  lemma EmptyWaits(resources: map<ResourceId, Resource>, waiters: map<Thread, Waiter>, id: ResourceId)
    requires WaitsOk(resources, waiters) && id in resources
    requires resources[id].waitingShared == 0 && resources[id].waitingExclusive == 0
    ensures forall t :: t in waiters ==> waiters[t].resource != id
  {
    forall t | t in waiters
      ensures waiters[t].resource != id
    {
      assert t !in WaitersOn(waiters, id, Shared) && t !in WaitersOn(waiters, id, Exclusive);
    }
  }

  lemma WaitsAdd(resources: map<ResourceId, Resource>, waiters: map<Thread, Waiter>, t: Thread, w: Waiter, r: Resource)
    requires WaitsOk(resources, waiters) && t !in waiters
    requires r == if w.resource in resources then resources[w.resource] else Fresh
    ensures WaitsOk(resources[w.resource := Wait(r, w.mode)], waiters[t := w])
  {
    if w.resource !in resources {
      NobodyWaits(resources, waiters, w.resource);
    }
    forall id, mode
      ensures |WaitersOn(waiters[t := w], id, mode)| ==
        |WaitersOn(waiters, id, mode)| + if w.resource == id && w.mode == mode then 1 else 0
    {
      AddWaiter(waiters, t, w, id, mode);
    }
  }

  lemma WaitsRemove(resources: map<ResourceId, Resource>, waiters: map<Thread, Waiter>, t: Thread)
    requires WaitsOk(resources, waiters) && t in waiters
    ensures
      var w := waiters[t];
      var r := Unwait(resources[w.resource], w.mode);
      && WaitsOk(resources[w.resource := r], waiters - {t})
      && (w.mode.Exclusive? ==> resources[w.resource].waitingExclusive > 0)
  {
    forall id, mode
      ensures |WaitersOn(waiters, id, mode)| ==
              |WaitersOn(waiters - {t}, id, mode)|
                + if waiters[t].resource == id && waiters[t].mode == mode then 1 else 0
    {
      RemoveWaiter(waiters, t, id, mode);
    }
  }

  // ---------------------------------------------------------------- entries and leases

  lemma StoreOk(resources: map<ResourceId, Resource>, id: ResourceId, r: Resource)
    requires ResourcesOk(resources) && id != 0 && ExclusionOk(r)
    ensures ResourcesOk(Store(resources, id, r))
  {
  }

  lemma FewerLeases(resources: map<ResourceId, Resource>, next: Lease, id: ResourceId, r: Resource)
    requires LeasesOk(resources, next)
    requires forall l :: IsLease(r, l) ==> id in resources && IsLease(resources[id], l)
    ensures LeasesOk(resources[id := r], next) && LeasesOk(Store(resources, id, r), next)
  {
  }

  lemma OneMoreLease(resources: map<ResourceId, Resource>, next: Lease, id: ResourceId, r: Resource, mode: Mode)
    requires LeasesOk(resources, next) && CanAcquire(r, mode)
    requires forall l :: IsLease(r, l) ==> id in resources && IsLease(resources[id], l)
    ensures LeasesOk(resources[id := Grant(r, mode, next)], next + 1)
  {
    assert forall l :: IsLease(Grant(r, mode, next), l) ==> l == next || IsLease(r, l);
  }

  // ---------------------------------------------------------------- wakeups

  /** An entry that became no more acquirable wakes nobody it should not. */
  lemma WakeupsKeep(resources: map<ResourceId, Resource>, waiters: map<Thread, Waiter>, notifying: set<Thread>,
      id: ResourceId, r: Resource)
    requires WakeupsOk(resources, waiters, notifying)
    requires forall t :: t in waiters && waiters[t].resource == id ==> id in resources
    requires id in resources ==> forall mode :: CanAcquire(r, mode) ==> CanAcquire(resources[id], mode)
    ensures WakeupsOk(resources[id := r], waiters, notifying)
  {
  }

  lemma AllAwake(resources: map<ResourceId, Resource>, waiters: map<Thread, Waiter>, notifying: set<Thread>)
    ensures WakeupsOk(resources, NotifyAll(waiters), notifying) && SameWaits(waiters, NotifyAll(waiters))
  {
  }

  lemma FewerWaiters(
      resources: map<ResourceId, Resource>, waiters: map<Thread, Waiter>, notifying: set<Thread>, t: Thread)
    requires WakeupsOk(resources, waiters, notifying)
    ensures WakeupsOk(resources, waiters - {t}, notifying)
  {
  }

  // ---------------------------------------------------------------- steps

  /** Granting a lease to a thread that does not wait. */
  lemma GrantInv(s: State, id: ResourceId, mode: Mode)
    requires Inv(s) && id != 0 && CanAcquire(Lookup(s, id), mode)
    ensures Inv(CreateLock(s, id, mode, Lookup(s, id)))
  {
    hide ResourcesOk, LeasesOk, WaitsOk, WakeupsOk;
    var r := Lookup(s, id);
    var granted := Grant(r, mode, s.nextLease);
    GrantedOk(s.resources, id, r, mode, s.nextLease);
    OneMoreLease(s.resources, s.nextLease, id, r, mode);
    WaitsKeep(s.resources, s.waiters, id, granted);
    WaiterEntries(s.resources, s.waiters);
    WakeupsKeep(s.resources, s.waiters, s.notifying, id, granted);
  }

  lemma WaiterEntries(resources: map<ResourceId, Resource>, waiters: map<Thread, Waiter>)
    requires WaitsOk(resources, waiters)
    ensures forall t :: t in waiters ==> waiters[t].resource in resources
  {
  }

  lemma GrantedOk(resources: map<ResourceId, Resource>, id: ResourceId, r: Resource, mode: Mode, lease: Lease)
    requires ResourcesOk(resources) && id != 0 && CanAcquire(r, mode)
    ensures ResourcesOk(resources[id := Grant(r, mode, lease)])
  {
    assert mode.Shared? ==> lease in Grant(r, mode, lease).shared;
  }

  lemma AcquireInv(s: State, t: Thread, id: ResourceId, mode: Mode, timed: bool)
    requires Inv(s)
    ensures Inv(AcquireStep(s, t, id, mode, timed)) && Inv(TryAcquireStep(s, t, id, mode))
  {
    hide ResourcesOk, LeasesOk, WaitsOk, WakeupsOk;
    if Free(s, t) && id != 0 {
      if CanAcquire(Lookup(s, id), mode) {
        GrantInv(s, id, mode);
      } else {
        ParkInv(s, t, id, mode, timed);
        TryFails(s, id, mode);
      }
    }
  }

  /** A failed try leaves the entry it looked at: something uses it. */
  lemma TryFails(s: State, id: ResourceId, mode: Mode)
    requires ResourcesOk(s.resources) && !CanAcquire(Lookup(s, id), mode)
    ensures id in s.resources && Store(s.resources, id, Lookup(s, id)) == s.resources
  {
  }

  lemma ParkInv(s: State, t: Thread, id: ResourceId, mode: Mode, timed: bool)
    requires Inv(s) && Free(s, t) && id != 0 && !CanAcquire(Lookup(s, id), mode)
    ensures Inv(AcquireStep(s, t, id, mode, timed))
  {
    hide ResourcesOk, LeasesOk, WaitsOk, WakeupsOk;
    TryFails(s, id, mode);
    var r := s.resources[id];
    var w := Waiter(id, mode, timed, false);
    assert ResourcesOk(s.resources[id := Wait(r, mode)]) by { WaitingEntry(s.resources, id, mode); }
    FewerLeases(s.resources, s.nextLease, id, Wait(r, mode));
    WaitsAdd(s.resources, s.waiters, t, w, r);
    WakeupsKeep(s.resources, s.waiters, s.notifying, id, Wait(r, mode));
    NewWaiterSleeps(s.resources[id := Wait(r, mode)], s.waiters, s.notifying, t, w);
  }

  lemma WaitingEntry(resources: map<ResourceId, Resource>, id: ResourceId, mode: Mode)
    requires ResourcesOk(resources) && id in resources
    ensures ResourcesOk(resources[id := Wait(resources[id], mode)])
  {
  }

  lemma NewWaiterSleeps(
      resources: map<ResourceId, Resource>, waiters: map<Thread, Waiter>, notifying: set<Thread>, t: Thread,
      w: Waiter)
    requires WakeupsOk(resources, waiters, notifying) && w.resource in resources
    requires !CanAcquire(resources[w.resource], w.mode)
    ensures WakeupsOk(resources, waiters[t := w], notifying)
  {
  }

  lemma AdmitInv(s: State, t: Thread)
    requires Inv(s) && t in s.waiters && CanAcquire(Lookup(s, s.waiters[t].resource), s.waiters[t].mode)
    ensures Inv(Admit(s, t))
  {
    hide ResourcesOk, LeasesOk, WaitsOk, WakeupsOk;
    var w := s.waiters[t];
    var id := w.resource;
    WaiterEntries(s.resources, s.waiters);
    EntryId(s.resources, id);
    var r := Unwait(s.resources[id], w.mode);
    var granted := Grant(r, w.mode, s.nextLease);
    GrantedOk(s.resources, id, r, w.mode, s.nextLease);
    OneMoreLease(s.resources, s.nextLease, id, r, w.mode);
    WaitsRemove(s.resources, s.waiters, t);
    WaitsKeep(s.resources[id := r], s.waiters - {t}, id, granted);
    assert s.resources[id := r][id := granted] == s.resources[id := granted];
    FewerWaiters(s.resources, s.waiters, s.notifying, t);
    WakeupsKeep(s.resources, s.waiters - {t}, s.notifying, id, granted);
  }

  lemma EntryId(resources: map<ResourceId, Resource>, id: ResourceId)
    requires ResourcesOk(resources) && id in resources
    ensures id != 0 && ExclusionOk(resources[id]) && !Unused(resources[id])
  {
  }

  lemma FlagInv(s: State, t: Thread, flag: bool)
    requires Inv(s) && t in s.waiters
    requires flag || !CanAcquire(Lookup(s, s.waiters[t].resource), s.waiters[t].mode)
    ensures Inv(s.(waiters := s.waiters[t := s.waiters[t].(notified := flag)]))
  {
    hide ResourcesOk, LeasesOk, WaitsOk;
    var after := s.waiters[t := s.waiters[t].(notified := flag)];
    assert SameWaits(s.waiters, after);
    FlagsDoNotCount(s.resources, s.waiters, after);
  }

  lemma WakeInv(s: State, t: Thread)
    requires Inv(s)
    ensures Inv(WakeStep(s, t)) && Inv(SpuriousStep(s, t))
  {
    hide Inv, CanAcquire;
    if t in s.waiters {
      FlagInv(s, t, true);
      if CanAcquire(Lookup(s, s.waiters[t].resource), s.waiters[t].mode) {
        AdmitInv(s, t);
      } else {
        FlagInv(s, t, false);
      }
    }
  }

  lemma ExpireInv(s: State, t: Thread)
    requires Inv(s)
    ensures Inv(ExpireStep(s, t))
  {
    hide ResourcesOk, LeasesOk, WaitsOk, WakeupsOk, NotifyAll;
    if t in s.waiters && s.waiters[t].timed {
      var w := s.waiters[t];
      if CanAcquire(Lookup(s, w.resource), w.mode) {
        AdmitInv(s, t);
      } else {
        LeaveInv(s, t);
      }
    }
  }

  /** A timed-out wait: the entry loses a waiter, and an exclusive one wakes the others. */
  lemma LeaveInv(s: State, t: Thread)
    requires Inv(s) && t in s.waiters && s.waiters[t].timed
    requires !CanAcquire(Lookup(s, s.waiters[t].resource), s.waiters[t].mode)
    ensures Inv(ExpireStep(s, t))
  {
    hide ResourcesOk, LeasesOk, WaitsOk, WakeupsOk, NotifyAll;
    var w := s.waiters[t];
    var id := w.resource;
    WaiterEntries(s.resources, s.waiters);
    EntryId(s.resources, id);
    var r := Unwait(s.resources[id], w.mode);
    var rest := s.waiters - {t};
    StoreOk(s.resources, id, r);
    FewerLeases(s.resources, s.nextLease, id, r);
    WaitsRemove(s.resources, s.waiters, t);
    WaitsKeep(s.resources[id := r], rest, id, r);
    assert Store(s.resources[id := r], id, r) == Store(s.resources, id, r);
    if w.mode.Exclusive? {
      AllAwake(Store(s.resources, id, r), rest, s.notifying);
      FlagsDoNotCount(Store(s.resources, id, r), rest, NotifyAll(rest));
    } else {
      FewerWaiters(s.resources, s.waiters, s.notifying, t);
      WakeupsKeep(s.resources, rest, s.notifying, id, r);
      StoredWakeups(s.resources, rest, s.notifying, id, r);
    }
  }

  lemma StoredWakeups(
      resources: map<ResourceId, Resource>, waiters: map<Thread, Waiter>, notifying: set<Thread>, id: ResourceId,
      r: Resource)
    requires WakeupsOk(resources[id := r], waiters, notifying)
    ensures WakeupsOk(Store(resources, id, r), waiters, notifying)
  {
  }

  lemma ReleaseInv(s: State, t: Thread, h: Handle)
    requires Inv(s)
    ensures Inv(ReleaseStep(s, t, h)) && Inv(NotifyStep(s, t))
  {
    hide ResourcesOk, LeasesOk, WaitsOk, NotifyAll;
    if t in s.notifying {
      AllAwake(s.resources, s.waiters, s.notifying - {t});
      FlagsDoNotCount(s.resources, s.waiters, NotifyAll(s.waiters));
    }
    if Free(s, t) && h.IsValid() && Holds(s, h) {
      var r := Ungrant(s.resources[h.resource], h);
      EntryId(s.resources, h.resource);
      StoreOk(s.resources, h.resource, r);
      FewerLeases(s.resources, s.nextLease, h.resource, r);
      WaitsKeep(s.resources, s.waiters, h.resource, r);
    }
  }

  lemma StepInv(s: State, e: Event)
    requires Inv(s)
    ensures Inv(Step(s, e))
  {
    hide Inv, AcquireStep, TryAcquireStep, WakeStep, ExpireStep, SpuriousStep, ReleaseStep, NotifyStep;
    match e
    case Acquire(t, id, mode, timed) => AcquireInv(s, t, id, mode, timed);
    case TryAcquire(t, id, mode) => AcquireInv(s, t, id, mode, false);
    case Wake(t) => WakeInv(s, t);
    case Expire(t) => ExpireInv(s, t);
    case Spurious(t) => WakeInv(s, t);
    case Release(t, h) => ReleaseInv(s, t, h);
    case Notify(t) => ReleaseInv(s, t, Handle(0, Shared, 0));
  }

  lemma {:induction false} RunInv(events: seq<Event>)
    ensures Inv(Run(events))
  {
    if events != [] {
      var n := |events| - 1;
      RunInv(events[..n]);
      StepInv(Run(events[..n]), events[n]);
    }
  }

  // ---------------------------------------------------------------- whole runs

  /** In every reachable state an exclusive lease is the only lease of its resource, an entry
      exists exactly while it has a lease or a waiter, and lease ids are never shared. */
  lemma LeasesExclude(events: seq<Event>)
    ensures
      var s := Run(events);
      && (forall id :: id in s.resources && s.resources[id].exclusive.Some? ==> s.resources[id].shared == {})
      && (forall id :: id in s.resources <==>
            (exists l :: id in s.resources && IsLease(s.resources[id], l)) ||
              (exists t :: t in s.waiters && s.waiters[t].resource == id))
      && (forall a, b, l ::
            a in s.resources && b in s.resources && IsLease(s.resources[a], l) && IsLease(s.resources[b], l) ==> a == b)
  {
    RunInv(events);
    var s := Run(events);
    forall id | id in s.resources
      ensures (exists l :: IsLease(s.resources[id], l)) || (exists t :: t in s.waiters && s.waiters[t].resource == id)
    {
      UsedEntry(s, id);
    }
  }

  lemma UsedEntry(s: State, id: ResourceId)
    requires Inv(s) && id in s.resources
    ensures (exists l :: IsLease(s.resources[id], l)) || (exists t :: t in s.waiters && s.waiters[t].resource == id)
  {
    hide LeasesOk, WakeupsOk;
    var r := s.resources[id];
    if r.exclusive.Some? {
      assert IsLease(r, r.exclusive.value);
    } else if l :| l in r.shared {
      assert IsLease(r, l);
    } else {
      var t := SomeWaiter(s, id);
    }
  }

  lemma SomeWaiter(s: State, id: ResourceId) returns (t: Thread)
    requires ResourcesOk(s.resources) && WaitsOk(s.resources, s.waiters) && id in s.resources
    requires s.resources[id].exclusive.None? && s.resources[id].shared == {}
    ensures t in s.waiters && s.waiters[t].resource == id
  {
    if s.resources[id].waitingShared > 0 {
      t :| t in WaitersOn(s.waiters, id, Shared);
    } else {
      t :| t in WaitersOn(s.waiters, id, Exclusive);
    }
  }

  // ---------------------------------------------------------------- who gets a lease

  /** Whether a lease can be had, told by the leases and the waiting threads: a shared one while no
      exclusive lease is active and no thread waits for one, an exclusive one while no lease is. */
  ghost predicate Grantable(s: State, id: ResourceId, mode: Mode) {
    match mode
    case Shared =>
      && (id in s.resources ==> s.resources[id].exclusive == None)
      && (forall t :: t in s.waiters && s.waiters[t].resource == id ==> s.waiters[t].mode != Exclusive)
    case Exclusive =>
      id in s.resources ==> forall l :: !IsLease(s.resources[id], l)
  }

  lemma GrantableMeans(s: State, id: ResourceId, mode: Mode)
    requires Inv(s)
    ensures CanAcquire(Lookup(s, id), mode) <==> Grantable(s, id, mode)
  {
    hide ResourcesOk, LeasesOk, WakeupsOk;
    ExclusiveWaiters(s, id);
    if id in s.resources {
      var r := s.resources[id];
      assert r.exclusive.Some? ==> IsLease(r, r.exclusive.value);
      assert r.shared != {} ==> exists l :: l in r.shared && IsLease(r, l);
    }
  }

  lemma ExclusiveWaiters(s: State, id: ResourceId)
    requires WaitsOk(s.resources, s.waiters)
    ensures Lookup(s, id).waitingExclusive == 0 <==>
      forall t :: t in s.waiters && s.waiters[t].resource == id ==> s.waiters[t].mode != Exclusive
  {
    var waiting := WaitersOn(s.waiters, id, Exclusive);
    assert forall t :: t in waiting <==>
      t in s.waiters && s.waiters[t].resource == id && s.waiters[t].mode == Exclusive;
    assert waiting == {} <==> |waiting| == 0;
  }

  /** The lease is new, it is the mode that was asked for, and no other lease or resource changed. */
  ghost predicate Granted(s: State, s': State, id: ResourceId, mode: Mode) {
    && s'.nextLease == s.nextLease + 1 && id in s'.resources && !Active(s, s.nextLease)
    && (mode == Shared ==> s.nextLease in s'.resources[id].shared)
    && (mode == Exclusive ==> s'.resources[id].exclusive == Some(s.nextLease))
    && (forall l :: l != s.nextLease ==> (Active(s, l) <==> Active(s', l)))
    && (forall other :: other != id ==>
          (other in s.resources <==> other in s'.resources) &&
          (other in s.resources ==> s.resources[other] == s'.resources[other]))
  }

  /** In every reachable state a free thread that asks for a lease gets a new one exactly if it can be
      had; else a try changes nothing, and an acquire waits. */
  lemma LeasesGrantedExactly(events: seq<Event>, t: Thread, id: ResourceId, mode: Mode, timed: bool)
    requires Free(Run(events), t) && id != 0
    ensures
      var s := Run(events);
      var tried, acquired := Step(s, TryAcquire(t, id, mode)), Step(s, Acquire(t, id, mode, timed));
      && (Grantable(s, id, mode) ==> Granted(s, tried, id, mode) && Granted(s, acquired, id, mode))
      && (Grantable(s, id, mode) ==> tried.waiters == s.waiters && acquired.waiters == s.waiters)
      && (!Grantable(s, id, mode) ==> tried == s && acquired.nextLease == s.nextLease)
      && (!Grantable(s, id, mode) ==> acquired.waiters == s.waiters[t := Waiter(id, mode, timed, false)])
  {
    hide Inv, CanAcquire, Grantable, Granted;
    RunInv(events);
    var s := Run(events);
    GrantableMeans(s, id, mode);
    if Grantable(s, id, mode) {
      GrantIs(s, id, mode, Lookup(s, id), s.waiters);
    } else {
      InvParts(s);
      TryFails(s, id, mode);
    }
  }

  lemma InvParts(s: State)
    requires Inv(s)
    ensures ResourcesOk(s.resources) && LeasesOk(s.resources, s.nextLease) && WaitsOk(s.resources, s.waiters)
  {
  }

  lemma GrantIs(s: State, id: ResourceId, mode: Mode, r: Resource, waiters: map<Thread, Waiter>)
    requires Inv(s) && CanAcquire(Lookup(s, id), mode)
    requires r.shared == Lookup(s, id).shared && r.exclusive == Lookup(s, id).exclusive
    ensures Granted(s, CreateLock(s.(waiters := waiters), id, mode, r), id, mode)
  {
    hide ResourcesOk, WaitsOk, WakeupsOk;
    var after := CreateLock(s.(waiters := waiters), id, mode, r);
    forall l | l != s.nextLease
      ensures Active(s, l) <==> Active(after, l)
    {
      assert IsLease(after.resources[id], l) <==> IsLease(Lookup(s, id), l);
      if Active(s, l) {
        var a :| a in s.resources && IsLease(s.resources[a], l);
        assert a in after.resources && IsLease(after.resources[a], l);
      }
    }
  }

  /** A woken thread takes its lease exactly if it can be had, and else parks again; so does a thread
      whose deadline has come, which else gives up. */
  lemma WokenGrantedExactly(events: seq<Event>, t: Thread)
    requires t in Run(events).waiters
    ensures
      var s := Run(events);
      var woken, expired, w := Step(s, Wake(t)), Step(s, Expire(t)), s.waiters[t];
      && (w.notified && Grantable(s, w.resource, w.mode) ==>
            Granted(s, woken, w.resource, w.mode) && woken.waiters == s.waiters - {t})
      && (w.notified && !Grantable(s, w.resource, w.mode) ==>
            woken == s.(waiters := s.waiters[t := w.(notified := false)]))
      && (w.timed && Grantable(s, w.resource, w.mode) ==>
            Granted(s, expired, w.resource, w.mode) && expired.waiters == s.waiters - {t})
      && (w.timed && !Grantable(s, w.resource, w.mode) ==>
            expired.nextLease == s.nextLease && expired.waiters.Keys == s.waiters.Keys - {t})
  {
    hide Inv, CanAcquire, Grantable, Granted;
    RunInv(events);
    var s := Run(events);
    var w := s.waiters[t];
    GrantableMeans(s, w.resource, w.mode);
    if Grantable(s, w.resource, w.mode) {
      GrantIs(s, w.resource, w.mode, Unwait(Lookup(s, w.resource), w.mode), s.waiters - {t});
    }
  }

  /** Any number of shared leases on one resource are reachable together. */
  lemma {:induction false} ReadersShare(id: ResourceId, n: nat) returns (events: seq<Event>)
    requires id != 0
    ensures
      var s := Run(events);
      && s.waiters == map[] && s.notifying == {}
      && (n > 0 ==> id in s.resources && |s.resources[id].shared| == n)
      && (n == 0 ==> id !in s.resources)
  {
    if n == 0 {
      events := [];
    } else {
      var fewer := ReadersShare(id, n - 1);
      events := fewer + [TryAcquire(0, id, Shared)];
      assert events[..|events| - 1] == fewer;
      LeasesGrantedExactly(fewer, 0, id, Shared, false);
      OneMoreReader(fewer, id, n);
    }
  }

  lemma OneMoreReader(fewer: seq<Event>, id: ResourceId, n: nat)
    requires id != 0 && n > 0
    requires
      var s := Run(fewer);
      && s.waiters == map[] && s.notifying == {}
      && (n > 1 ==> id in s.resources && |s.resources[id].shared| == n - 1)
      && (n == 1 ==> id !in s.resources)
    ensures
      var s' := Step(Run(fewer), TryAcquire(0, id, Shared));
      && s'.waiters == map[] && s'.notifying == {}
      && id in s'.resources && |s'.resources[id].shared| == n
  {
    hide Run;
    RunInv(fewer);
    var s := Run(fewer);
    FreshLease(s, id);
    if id in s.resources {
      SharedLeaseExists(s, id);
    }
    GrantableMeans(s, id, Shared);
  }

  lemma FreshLease(s: State, id: ResourceId)
    requires Inv(s)
    ensures s.nextLease !in Lookup(s, id).shared
  {
    assert s.nextLease in Lookup(s, id).shared ==> IsLease(Lookup(s, id), s.nextLease);
  }

  lemma SharedLeaseExists(s: State, id: ResourceId)
    requires Inv(s) && id in s.resources && s.resources[id].shared != {}
    ensures s.resources[id].exclusive == None
  {
  }

  /** No lost wakeup: whenever a parked thread could have its lease, a notification is on its way. */
  lemma {:induction false} NoLostWakeup(events: seq<Event>, t: Thread)
    requires
      var s := Run(events);
      && t in s.waiters && !s.waiters[t].notified
      && Grantable(s, s.waiters[t].resource, s.waiters[t].mode)
    ensures Run(events).notifying != {}
  {
    hide Grantable, CanAcquire;
    RunInv(events);
    var s := Run(events);
    GrantableMeans(s, s.waiters[t].resource, s.waiters[t].mode);
    hide ResourcesOk, LeasesOk;
  }

  /** A notification wakes every waiting thread, and the notifying thread owes it no longer. */
  lemma NotifyWakesAll(s: State, t: Thread)
    requires t in s.notifying
    ensures
      var s' := Step(s, Notify(t));
      && s'.notifying == s.notifying - {t} && s'.resources == s.resources && s'.nextLease == s.nextLease
      && s'.waiters.Keys == s.waiters.Keys
      && forall u :: u in s.waiters ==> s'.waiters[u] == s.waiters[u].(notified := true)
  {
  }

  /** A waiting thread that could have its lease is at most a notification and a wakeup away from it. */
  lemma WaiterCanTakeLease(events: seq<Event>, t: Thread) returns (more: seq<Event>)
    requires
      var s := Run(events);
      t in s.waiters && Grantable(s, s.waiters[t].resource, s.waiters[t].mode)
    ensures |more| <= 2
    ensures
      var s, s' := Run(events), Run(events + more);
      t !in s'.waiters && Granted(s, s', s.waiters[t].resource, s.waiters[t].mode)
  {
    hide Run, Step, Grantable, Granted;
    var s := Run(events);
    var w := s.waiters[t];
    if w.notified {
      more := [Wake(t)];
      Appended(events, Wake(t));
      WokenGrantedExactly(events, t);
    } else {
      NoLostWakeup(events, t);
      var u :| u in s.notifying;
      more := [Notify(u), Wake(t)];
      assert events + more == events + [Notify(u)] + [Wake(t)];
      Appended(events, Notify(u));
      Appended(events + [Notify(u)], Wake(t));
      NotifyWakesAll(s, u);
      SameGrants(s, Step(s, Notify(u)), w.resource, w.mode);
      WokenGrantedExactly(events + [Notify(u)], t);
      GrantedEarlier(s, Step(s, Notify(u)), Run(events + more), w.resource, w.mode);
    }
  }

  lemma Appended(events: seq<Event>, e: Event)
    ensures Run(events + [e]) == Step(Run(events), e)
  {
    hide Step;
    assert (events + [e])[..|events + [e]| - 1] == events;
  }

  lemma SameGrants(s: State, after: State, id: ResourceId, mode: Mode)
    requires after.resources == s.resources && SameWaits(s.waiters, after.waiters)
    ensures Grantable(after, id, mode) <==> Grantable(s, id, mode)
  {
  }

  lemma GrantedEarlier(s: State, before: State, after: State, id: ResourceId, mode: Mode)
    requires before.resources == s.resources && before.nextLease == s.nextLease && Granted(before, after, id, mode)
    ensures Granted(s, after, id, mode)
  {
    hide IsLease;
    assert forall l :: Active(before, l) <==> Active(s, l);
  }

  /** The only step that makes a parked thread's predicate true and leaves it parked is a
      release, and the releasing thread then owes the notification. */
  lemma WakingStepNotifies(s: State, e: Event, t: Thread)
    requires Inv(s) && t in s.waiters && !Grantable(s, s.waiters[t].resource, s.waiters[t].mode)
    requires
      var after := Step(s, e);
      t in after.waiters && !after.waiters[t].notified && Grantable(after, s.waiters[t].resource, s.waiters[t].mode)
    ensures e.Release? && e.thread in Step(s, e).notifying
  {
    hide Inv, Step, Grantable, CanAcquire;
    StepInv(s, e);
    GrantableMeans(s, s.waiters[t].resource, s.waiters[t].mode);
    GrantableMeans(Step(s, e), s.waiters[t].resource, s.waiters[t].mode);
    EnablingStep(s, e, t);
  }

  lemma EnablingStep(s: State, e: Event, t: Thread)
    requires Inv(s) && t in s.waiters && !CanAcquire(Lookup(s, s.waiters[t].resource), s.waiters[t].mode)
    requires
      var after := Step(s, e);
      t in after.waiters && !after.waiters[t].notified &&
        CanAcquire(Lookup(after, s.waiters[t].resource), s.waiters[t].mode)
    ensures e.Release? && e.thread in Step(s, e).notifying
  {
    hide LeasesOk, WakeupsOk, WaitsOk;
    WaiterEntries(s.resources, s.waiters);
  }

  /** Writer preference: while a thread waits for an exclusive lease, no step gives a shared
      lease on that resource. */
  lemma NoSharedOvertaking(s: State, e: Event, t: Thread)
    requires Inv(s) && t in s.waiters && s.waiters[t].mode.Exclusive?
    ensures var id := s.waiters[t].resource; Lookup(Step(s, e), id).shared <= Lookup(s, id).shared
  {
    hide ResourcesOk, LeasesOk, WakeupsOk;
    ExclusiveIsCounted(s, t);
    hide WaitsOk;
  }

  lemma ExclusiveIsCounted(s: State, t: Thread)
    requires WaitsOk(s.resources, s.waiters) && t in s.waiters && s.waiters[t].mode.Exclusive?
    ensures s.waiters[t].resource in s.resources && s.resources[s.waiters[t].resource].waitingExclusive > 0
  {
    assert t in WaitersOn(s.waiters, s.waiters[t].resource, Exclusive);
  }

  // ---------------------------------------------------------------- stale handles

  ghost predicate Active(s: State, lease: Lease) {
    exists id :: id in s.resources && IsLease(s.resources[id], lease)
  }

  /** A lease id that was given out and is no longer active is never active again. */
  lemma EndedLeaseStaysEnded(s: State, e: Event, lease: Lease)
    requires Inv(s) && lease < s.nextLease && !Active(s, lease)
    ensures lease < Step(s, e).nextLease && !Active(Step(s, e), lease)
  {
    hide Inv, CanAcquire;
    forall id | id in Step(s, e).resources
      ensures !IsLease(Step(s, e).resources[id], lease)
    {
      assert !IsLease(Lookup(s, id), lease);
    }
  }

  /** A stale handle releases nothing, however long it is kept and whatever leases, even on a
      recreated entry of the same resource, were given out since. */
  lemma {:induction false} StaleHandleIsInert(events: seq<Event>, more: seq<Event>, t: Thread, h: Handle)
    requires h.lease < Run(events).nextLease && !Active(Run(events), h.lease)
    ensures ReleaseStep(Run(events + more), t, h) == Run(events + more)
    ensures h.lease < Run(events + more).nextLease && !Active(Run(events + more), h.lease)
    decreases |more|
  {
    hide Step, Inv;
    if more == [] {
      assert events + more == events;
    } else {
      var n := |more| - 1;
      assert (events + more)[..|events + more| - 1] == events + more[..n];
      StaleHandleIsInert(events, more[..n], t, h);
      RunInv(events + more[..n]);
      EndedLeaseStaysEnded(Run(events + more[..n]), more[n], h.lease);
    }
    var s := Run(events + more);
    assert Holds(s, h) ==> IsLease(s.resources[h.resource], h.lease);
  }

  /** A successful release ends exactly the lease its handle names. */
  lemma ReleaseEndsOneLease(s: State, t: Thread, h: Handle, other: Lease)
    requires Inv(s) && ReleaseStep(s, t, h) != s
    ensures !Active(ReleaseStep(s, t, h), h.lease)
    ensures other != h.lease ==> (Active(ReleaseStep(s, t, h), other) <==> Active(s, other))
  {
    hide WaitsOk, WakeupsOk;
    var after := ReleaseStep(s, t, h);
    assert IsLease(s.resources[h.resource], h.lease);
    forall id | id in s.resources && other != h.lease && IsLease(s.resources[id], other)
      ensures id in after.resources && IsLease(after.resources[id], other)
    {
      if id == h.resource {
        assert other in Ungrant(s.resources[id], h).shared;
      }
    }
  }
}
