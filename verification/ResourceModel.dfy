/** The shared/exclusive lease manager as a state machine over its critical sections, with
    the threads that wait on its condition variable. */
module ResourceModel {
  import opened Basics

  /** A resource identifier; 0 stands for the empty one, which the manager refuses. */
  type ResourceId = nat

  type Lease = nat

  type Thread = nat

  datatype Mode = Shared | Exclusive

  datatype Resource = Resource(shared: set<Lease>, exclusive: Option<Lease>, waitingShared: nat, waitingExclusive: nat)

  datatype Handle = Handle(resource: ResourceId, mode: Mode, lease: Lease) {
    predicate IsValid() { resource != 0 && lease != 0 }
  }

  /** A thread inside a wait. It is parked until a notification (or a spurious wakeup)
      makes it look at its predicate again. */
  datatype Waiter = Waiter(resource: ResourceId, mode: Mode, timed: bool, notified: bool)

  /** `notifying` holds the threads that have left a successful release's critical section
      and have not notified yet. */
  datatype State = State(resources: map<ResourceId, Resource>, nextLease: Lease, waiters: map<Thread, Waiter>,
    notifying: set<Thread>)

  datatype Event =
    | Acquire(thread: Thread, id: ResourceId, mode: Mode, timed: bool)
    | TryAcquire(thread: Thread, id: ResourceId, mode: Mode)
    | Wake(thread: Thread)
    | Expire(thread: Thread)
    | Spurious(thread: Thread)
    | Release(thread: Thread, handle: Handle)
    | Notify(thread: Thread)

  const Fresh := Resource({}, None, 0, 0)

  function Initial(): State {
    State(map[], 1, map[], {})
  }

  predicate CanAcquireShared(r: Resource) {
    r.exclusive.None? && r.waitingExclusive == 0
  }

  predicate CanAcquireExclusive(r: Resource) {
    r.exclusive.None? && r.shared == {}
  }

  predicate CanAcquire(r: Resource, mode: Mode) {
    if mode.Shared? then CanAcquireShared(r) else CanAcquireExclusive(r)
  }

  predicate Unused(r: Resource) {
    r.shared == {} && r.exclusive.None? && r.waitingShared == 0 && r.waitingExclusive == 0
  }

  function Lookup(s: State, id: ResourceId): Resource {
    if id in s.resources then s.resources[id] else Fresh
  }

  function Grant(r: Resource, mode: Mode, lease: Lease): Resource {
    if mode.Exclusive? then r.(exclusive := Some(lease)) else r.(shared := r.shared + {lease})
  }

  function Wait(r: Resource, mode: Mode): Resource {
    if mode.Exclusive? then r.(waitingExclusive := r.waitingExclusive + 1) else r.(waitingShared := r.waitingShared + 1)
  }

  function Unwait(r: Resource, mode: Mode): Resource {
    if mode.Exclusive? then r.(waitingExclusive := if r.waitingExclusive > 0 then r.waitingExclusive - 1 else 0)
    else r.(waitingShared := if r.waitingShared > 0 then r.waitingShared - 1 else 0)
  }

  /** Stores an entry, or forgets it when nothing uses it any more. */
  function Store(resources: map<ResourceId, Resource>, id: ResourceId, r: Resource): map<ResourceId, Resource> {
    if Unused(r) then resources - {id} else resources[id := r]
  }

  function NotifyAll(waiters: map<Thread, Waiter>): map<Thread, Waiter> {
    map t | t in waiters :: waiters[t].(notified := true)
  }

  predicate Free(s: State, t: Thread) {
    t !in s.waiters && t !in s.notifying
  }

  function CreateLock(s: State, id: ResourceId, mode: Mode, r: Resource): State {
    s.(resources := s.resources[id := Grant(r, mode, s.nextLease)], nextLease := s.nextLease + 1)
  }

  /** A blocking or timed acquire up to its first wait: at once when the predicate holds. */
  function AcquireStep(s: State, t: Thread, id: ResourceId, mode: Mode, timed: bool): State {
    if !Free(s, t) || id == 0 then s
    else
      var r := Lookup(s, id);
      if CanAcquire(r, mode) then CreateLock(s, id, mode, r)
      else s.(resources := s.resources[id := Wait(r, mode)], waiters := s.waiters[t := Waiter(id, mode, timed, false)])
  }

  function TryAcquireStep(s: State, t: Thread, id: ResourceId, mode: Mode): State {
    if !Free(s, t) || id == 0 then s
    else
      var r := Lookup(s, id);
      if CanAcquire(r, mode) then CreateLock(s, id, mode, r)
      else s.(resources := Store(s.resources, id, r))
  }

  /** The predicate holds: the thread stops waiting and takes its lease. */
  function Admit(s: State, t: Thread): State
    requires t in s.waiters
  {
    var w := s.waiters[t];
    CreateLock(s.(waiters := s.waiters - {t}), w.resource, w.mode, Unwait(Lookup(s, w.resource), w.mode))
  }

  function WakeStep(s: State, t: Thread): State {
    if t !in s.waiters || !s.waiters[t].notified then s
    else if CanAcquire(Lookup(s, s.waiters[t].resource), s.waiters[t].mode) then Admit(s, t)
    else s.(waiters := s.waiters[t := s.waiters[t].(notified := false)])
  }

  /** The deadline of a timed wait: the predicate is looked at once more. */
  function ExpireStep(s: State, t: Thread): State {
    if t !in s.waiters || !s.waiters[t].timed then s
    else
      var w := s.waiters[t];
      if CanAcquire(Lookup(s, w.resource), w.mode) then Admit(s, t)
      else
        var rest := s.waiters - {t};
        s.(resources := Store(s.resources, w.resource, Unwait(Lookup(s, w.resource), w.mode)),
           waiters := if w.mode.Exclusive? then NotifyAll(rest) else rest)
  }

  function SpuriousStep(s: State, t: Thread): State {
    if t !in s.waiters then s else s.(waiters := s.waiters[t := s.waiters[t].(notified := true)])
  }

  predicate Holds(s: State, h: Handle) {
    && h.resource in s.resources
    && (if h.mode.Exclusive? then s.resources[h.resource].exclusive == Some(h.lease)
        else h.lease in s.resources[h.resource].shared)
  }

  function Ungrant(r: Resource, h: Handle): Resource {
    if h.mode.Exclusive? then r.(exclusive := None) else r.(shared := r.shared - {h.lease})
  }

  function ReleaseStep(s: State, t: Thread, h: Handle): State {
    if !Free(s, t) || !h.IsValid() || !Holds(s, h) then s
    else s.(resources := Store(s.resources, h.resource, Ungrant(s.resources[h.resource], h)),
      notifying := s.notifying + {t})
  }

  function NotifyStep(s: State, t: Thread): State {
    if t !in s.notifying then s else s.(waiters := NotifyAll(s.waiters), notifying := s.notifying - {t})
  }

  function Step(s: State, e: Event): State {
    match e
    case Acquire(t, id, mode, timed) => AcquireStep(s, t, id, mode, timed)
    case TryAcquire(t, id, mode) => TryAcquireStep(s, t, id, mode)
    case Wake(t) => WakeStep(s, t)
    case Expire(t) => ExpireStep(s, t)
    case Spurious(t) => SpuriousStep(s, t)
    case Release(t, h) => ReleaseStep(s, t, h)
    case Notify(t) => NotifyStep(s, t)
  }

  function Run(events: seq<Event>): State {
    if events == [] then Initial() else Step(Run(events[..|events| - 1]), events[|events| - 1])
  }
}
