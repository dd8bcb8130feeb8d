/** Behaviour-tree jobs that hold a resource lease around all their ticks. */
module TreeJobs {
  import opened ResourceModel
  import opened ResourceTheorems

  /** `resource == 0` asks for no resource; `timeout == 0` tries once. */
  datatype JobOptions = JobOptions(resource: ResourceId, mode: Mode, timeout: nat)

  /** A job acquires its resource, ticks its tree, and releases the resource when it returns. */
  datatype Phase = Waiting(options: JobOptions) | Ticking(options: JobOptions, handle: Handle) | Finished

  /** A job runs on the thread with its own number. */
  datatype World = World(manager: State, jobs: map<Thread, Phase>)

  datatype WorldEvent =
    | Start(job: Thread, options: JobOptions)
    | JobWake(job: Thread)
    | JobExpire(job: Thread)
    | JobEnd(job: Thread)
    | JobNotify(job: Thread)
    | Other(event: Event)

  const NoHandle := Handle(0, Shared, 0)

  function AfterAcquire(w: World, job: Thread, options: JobOptions, manager: State): World {
    if manager.nextLease > w.manager.nextLease then
      World(manager, w.jobs[job := Ticking(options, Handle(options.resource, options.mode, w.manager.nextLease))])
    else if job in manager.waiters then World(manager, w.jobs[job := Waiting(options)])
    else World(manager, w.jobs[job := Finished])
  }

  function StartStep(w: World, job: Thread, options: JobOptions): World {
    if job in w.jobs || !Free(w.manager, job) then w
    else if options.resource == 0 then w.(jobs := w.jobs[job := Ticking(options, NoHandle)])
    else if options.timeout == 0 then
      AfterAcquire(w, job, options, TryAcquireStep(w.manager, job, options.resource, options.mode))
    else
      AfterAcquire(w, job, options, AcquireStep(w.manager, job, options.resource, options.mode, true))
  }

  /** Leaving the job's function destroys its lock. */
  function EndStep(w: World, job: Thread): World {
    if job !in w.jobs || !w.jobs[job].Ticking? then w
    else World(ReleaseStep(w.manager, job, w.jobs[job].handle), w.jobs[job := Finished])
  }

  /** What other threads can do: anything, but not with a handle that a ticking job keeps to itself. */
  predicate Permitted(w: World, e: Event) {
    && (e.Spurious? || e.thread !in w.jobs)
    && (e.Release? ==> forall j :: j in w.jobs && w.jobs[j].Ticking? ==> w.jobs[j].handle != e.handle)
  }

  function WorldStep(w: World, e: WorldEvent): World {
    match e
    case Start(job, options) => StartStep(w, job, options)
    case JobWake(job) =>
      if job !in w.jobs || !w.jobs[job].Waiting? then w
      else AfterAcquire(w, job, w.jobs[job].options, WakeStep(w.manager, job))
    case JobExpire(job) =>
      if job !in w.jobs || !w.jobs[job].Waiting? then w
      else AfterAcquire(w, job, w.jobs[job].options, ExpireStep(w.manager, job))
    case JobEnd(job) => EndStep(w, job)
    case JobNotify(job) => if job in w.jobs then w.(manager := NotifyStep(w.manager, job)) else w
    case Other(event) => if Permitted(w, event) then w.(manager := Step(w.manager, event)) else w
  }

  function WorldRun(events: seq<WorldEvent>): World {
    if events == [] then World(Initial(), map[]) else WorldStep(WorldRun(events[..|events| - 1]), events[|events| - 1])
  }

  // ---------------------------------------------------------------- invariant

  ghost predicate LeaseKept(manager: State, p: Phase) {
    p.Ticking? && p.options.resource != 0 ==>
      && p.handle.resource == p.options.resource && p.handle.mode == p.options.mode
      && p.handle.IsValid() && Holds(manager, p.handle)
  }

  ghost predicate WaitKept(manager: State, j: Thread, p: Phase) {
    p.Waiting? ==>
      && p.options.resource != 0
      && (j in manager.waiters ==>
        manager.waiters[j].resource == p.options.resource && manager.waiters[j].mode == p.options.mode)
  }

  ghost predicate OwnLeases(jobs: map<Thread, Phase>) {
    && (forall j :: j in jobs && jobs[j].Ticking? && jobs[j].options.resource == 0 ==> jobs[j].handle == NoHandle)
    && (forall a, b ::
          a in jobs && b in jobs && a != b && jobs[a].Ticking? && jobs[b].Ticking? && jobs[a].options.resource != 0 ==>
            jobs[a].handle.lease != jobs[b].handle.lease)
  }

  ghost predicate WorldInv(w: World) {
    && Inv(w.manager)
    && OwnLeases(w.jobs)
    && (forall j :: j in w.jobs ==> LeaseKept(w.manager, w.jobs[j]) && WaitKept(w.manager, j, w.jobs[j]))
  }

  /** Only a release through the same handle ends a lease. */
  lemma HoldsKept(s: State, e: Event, h: Handle)
    requires Inv(s) && Holds(s, h) && (e.Release? ==> e.handle != h)
    ensures Holds(Step(s, e), h)
  {
    hide WaitsOk, WakeupsOk;
    assert ExclusionOk(s.resources[h.resource]);
    assert IsLease(s.resources[h.resource], h.lease);
    if h.mode.Shared? {
      assert s.resources[h.resource].shared != {};
    }
    match e
    case Wake(t) => HoldsAdmit(s, t, h);
    case Expire(t) => HoldsAdmit(s, t, h);
    case Release(t, other) => ReleaseKeepsOthers(s, t, other, h);
    case _ =>
  }

  lemma ReleaseKeepsOthers(s: State, t: Thread, other: Handle, h: Handle)
    requires ResourcesOk(s.resources) && Holds(s, h) && other != h
    ensures Holds(ReleaseStep(s, t, other), h)
  {
    assert ExclusionOk(s.resources[h.resource]);
    if h.mode.Shared? && Holds(s, other) && other.resource == h.resource {
      assert other.mode.Shared? && other.lease != h.lease;
      assert h.lease in Ungrant(s.resources[h.resource], other).shared;
    }
  }

  lemma HoldsAdmit(s: State, t: Thread, h: Handle)
    requires Inv(s) && Holds(s, h)
    ensures t in s.waiters && CanAcquire(Lookup(s, s.waiters[t].resource), s.waiters[t].mode) ==> Holds(Admit(s, t), h)
  {
    hide LeasesOk, WaitsOk, WakeupsOk;
  }

  lemma HeldLease(s: State, h: Handle)
    requires Inv(s) && Holds(s, h)
    ensures 1 <= h.lease < s.nextLease
  {
    hide ResourcesOk, WaitsOk, WakeupsOk;
    assert IsLease(s.resources[h.resource], h.lease);
  }

  lemma WaiterKept(s: State, e: Event, j: Thread)
    requires e.Spurious? || e.thread != j
    ensures j in Step(s, e).waiters ==>
      j in s.waiters && Step(s, e).waiters[j].resource == s.waiters[j].resource &&
        Step(s, e).waiters[j].mode == s.waiters[j].mode
  {
  }

  /** A step of another thread takes nothing from a job. */
  lemma OthersKept(w: World, e: Event, j: Thread)
    requires WorldInv(w) && j in w.jobs && (e.Spurious? || e.thread != j)
    requires e.Release? && w.jobs[j].Ticking? ==> e.handle != w.jobs[j].handle
    ensures LeaseKept(Step(w.manager, e), w.jobs[j]) && WaitKept(Step(w.manager, e), j, w.jobs[j])
  {
    hide Inv, Step, Holds;
    WaiterKept(w.manager, e, j);
    if w.jobs[j].Ticking? && w.jobs[j].options.resource != 0 {
      HoldsKept(w.manager, e, w.jobs[j].handle);
    }
  }

  /** The events by which a job acquires its resource. */
  ghost predicate AcquiringEvent(s: State, e: Event, options: JobOptions) {
    || (e.TryAcquire? && e.id == options.resource && e.mode == options.mode && Free(s, e.thread))
    || (e.Acquire? && e.id == options.resource && e.mode == options.mode && Free(s, e.thread))
    || ((e.Wake? || e.Expire?) &&
        (e.thread in s.waiters ==>
          s.waiters[e.thread].resource == options.resource && s.waiters[e.thread].mode == options.mode))
  }

  /** An acquiring event that gave out a lease gave it to the job, on its resource and mode. */
  lemma GrantHolds(s: State, e: Event, options: JobOptions)
    requires Inv(s) && AcquiringEvent(s, e, options) && options.resource != 0
    ensures Step(s, e).nextLease > s.nextLease ==>
      Holds(Step(s, e), Handle(options.resource, options.mode, s.nextLease))
    ensures e.thread in Step(s, e).waiters ==>
      Step(s, e).waiters[e.thread].resource == options.resource && Step(s, e).waiters[e.thread].mode == options.mode
  {
    hide Inv, CanAcquire;
  }

  lemma AcquireWorld(w: World, e: Event, options: JobOptions)
    requires WorldInv(w) && AcquiringEvent(w.manager, e, options) && options.resource != 0
    requires e.thread in w.jobs ==> w.jobs[e.thread].Waiting?
    ensures WorldInv(AfterAcquire(w, e.thread, options, Step(w.manager, e)))
  {
    hide Inv, Step, Holds;
    var after := AfterAcquire(w, e.thread, options, Step(w.manager, e));
    StepInv(w.manager, e);
    GrantHolds(w.manager, e, options);
    NextLease(w.manager);
    forall j | j in after.jobs
      ensures LeaseKept(after.manager, after.jobs[j]) && WaitKept(after.manager, j, after.jobs[j])
      ensures j != e.thread && after.jobs[j].Ticking? && after.jobs[j].options.resource != 0 ==>
        1 <= after.jobs[j].handle.lease < w.manager.nextLease
    {
      if j != e.thread {
        OthersKept(w, e, j);
        if after.jobs[j].Ticking? && after.jobs[j].options.resource != 0 {
          HeldLease(w.manager, after.jobs[j].handle);
        }
      }
    }
    assert OwnLeases(after.jobs);
  }

  lemma NextLease(s: State)
    requires Inv(s)
    ensures s.nextLease >= 1
  {
  }

  lemma EndWorld(w: World, job: Thread)
    requires WorldInv(w)
    ensures WorldInv(EndStep(w, job))
  {
    hide Inv, ReleaseStep, Holds;
    if job in w.jobs && w.jobs[job].Ticking? {
      var h := w.jobs[job].handle;
      var e := Release(job, h);
      StepInv(w.manager, e);
      forall j | j in w.jobs && j != job
        ensures LeaseKept(EndStep(w, job).manager, w.jobs[j]) && WaitKept(EndStep(w, job).manager, j, w.jobs[j])
      {
        if w.jobs[job].options.resource == 0 {
          EmptyRelease(w.manager, job);
        } else {
          OthersKept(w, e, j);
        }
      }
    }
  }

  lemma EmptyRelease(s: State, t: Thread)
    ensures ReleaseStep(s, t, NoHandle) == s
  {
  }

  lemma OtherWorld(w: World, e: Event)
    requires WorldInv(w)
    requires forall j :: j in w.jobs ==>
      (e.Spurious? || e.thread != j || w.jobs[j].Finished? || e.Notify?) &&
        (e.Release? && w.jobs[j].Ticking? ==> e.handle != w.jobs[j].handle)
    ensures WorldInv(w.(manager := Step(w.manager, e)))
  {
    hide Inv, Step, Holds;
    StepInv(w.manager, e);
    forall j | j in w.jobs
      ensures LeaseKept(Step(w.manager, e), w.jobs[j]) && WaitKept(Step(w.manager, e), j, w.jobs[j])
    {
      if e.Notify? {
        NotifyKeeps(w.manager, e.thread, j, w.jobs[j]);
      } else if !w.jobs[j].Finished? {
        OthersKept(w, e, j);
      }
    }
  }

  lemma NotifyKeeps(s: State, t: Thread, j: Thread, p: Phase)
    requires LeaseKept(s, p) && WaitKept(s, j, p)
    ensures LeaseKept(Step(s, Notify(t)), p) && WaitKept(Step(s, Notify(t)), j, p)
  {
  }

  lemma WorldStepInv(w: World, e: WorldEvent)
    requires WorldInv(w)
    ensures WorldInv(WorldStep(w, e))
  {
    hide WorldInv, AfterAcquire, EndStep, AcquireStep, TryAcquireStep, WakeStep, ExpireStep, NotifyStep;
    match e
    case Start(job, options) =>
      if job !in w.jobs && Free(w.manager, job) {
        if options.resource == 0 {
          StartFree(w, job, options);
        } else if options.timeout == 0 {
          AcquireWorld(w, TryAcquire(job, options.resource, options.mode), options);
        } else {
          AcquireWorld(w, Acquire(job, options.resource, options.mode, true), options);
        }
      }
    case JobWake(job) =>
      if job in w.jobs && w.jobs[job].Waiting? {
        WaitingOptions(w, job);
        AcquireWorld(w, Wake(job), w.jobs[job].options);
      }
    case JobExpire(job) =>
      if job in w.jobs && w.jobs[job].Waiting? {
        WaitingOptions(w, job);
        AcquireWorld(w, Expire(job), w.jobs[job].options);
      }
    case JobEnd(job) => EndWorld(w, job);
    case JobNotify(job) => OtherWorld(w, Notify(job));
    case Other(event) =>
      if Permitted(w, event) {
        OtherWorld(w, event);
      }
  }

  lemma StartFree(w: World, job: Thread, options: JobOptions)
    requires WorldInv(w) && job !in w.jobs && options.resource == 0
    ensures WorldInv(w.(jobs := w.jobs[job := Ticking(options, NoHandle)]))
  {
    hide Inv, Holds;
    forall j | j in w.jobs && w.jobs[j].Ticking? && w.jobs[j].options.resource != 0
      ensures w.jobs[j].handle.lease != 0
    {
      assert LeaseKept(w.manager, w.jobs[j]);
    }
  }

  lemma WaitingOptions(w: World, job: Thread)
    requires WorldInv(w) && job in w.jobs && w.jobs[job].Waiting?
    ensures w.jobs[job].options.resource != 0
    ensures AcquiringEvent(w.manager, Wake(job), w.jobs[job].options)
    ensures AcquiringEvent(w.manager, Expire(job), w.jobs[job].options)
  {
    hide Inv;
    assert WaitKept(w.manager, job, w.jobs[job]);
  }

  lemma {:induction false} WorldRunInv(events: seq<WorldEvent>)
    ensures WorldInv(WorldRun(events))
  {
    hide WorldStep;
    if events != [] {
      var n := |events| - 1;
      WorldRunInv(events[..n]);
      WorldStepInv(WorldRun(events[..n]), events[n]);
    }
  }

  /** Two jobs that tick at the same time on the same resource both hold it shared. */
  lemma TickWindowsExclude(events: seq<WorldEvent>, a: Thread, b: Thread)
    requires
      var w := WorldRun(events);
      && a in w.jobs && b in w.jobs && a != b && w.jobs[a].Ticking? && w.jobs[b].Ticking?
      && w.jobs[a].options.resource == w.jobs[b].options.resource != 0
    ensures WorldRun(events).jobs[a].options.mode.Shared? && WorldRun(events).jobs[b].options.mode.Shared?
  {
    WorldRunInv(events);
    var w := WorldRun(events);
    hide LeasesOk, WaitsOk, WakeupsOk;
    assert LeaseKept(w.manager, w.jobs[a]) && LeaseKept(w.manager, w.jobs[b]);
    assert ExclusionOk(w.manager.resources[w.jobs[a].options.resource]);
  }

  /** A new job ticks at once exactly if it needs no resource or can have it; else it waits if it was
      given a timeout, and gives up if not. */
  lemma JobTicksExactly(events: seq<WorldEvent>, job: Thread, options: JobOptions)
    requires var w := WorldRun(events); job !in w.jobs && Free(w.manager, job)
    ensures
      var w := WorldRun(events);
      var w' := WorldStep(w, Start(job, options));
      job in w'.jobs && w'.jobs.Keys == w.jobs.Keys + {job} &&
      if options.resource == 0 || Grantable(w.manager, options.resource, options.mode) then
        w'.jobs[job].Ticking? && w'.jobs[job].options == options
      else if options.timeout == 0 then w'.jobs[job] == Finished
      else w'.jobs[job] == Waiting(options)
  {
    hide WorldRun, Inv, Grantable, CanAcquire;
    WorldRunInv(events);
    var w := WorldRun(events);
    InvManager(w);
    GrantableMeans(w.manager, options.resource, options.mode);
    if options.resource != 0 && !Grantable(w.manager, options.resource, options.mode) {
      InvParts(w.manager);
      TryFails(w.manager, options.resource, options.mode);
    }
  }

  lemma InvManager(w: World)
    requires WorldInv(w)
    ensures Inv(w.manager)
  {
  }

  /** A job that returns gives its lease back and nobody else's. */
  lemma JobEndReleases(events: seq<WorldEvent>, job: Thread, lease: Lease)
    requires
      var w := WorldRun(events);
      job in w.jobs && w.jobs[job].Ticking? && w.jobs[job].options.resource != 0 && Free(w.manager, job)
    ensures
      var w, w' := WorldRun(events), WorldStep(WorldRun(events), JobEnd(job));
      && w'.jobs == w.jobs[job := Finished]
      && !Active(w'.manager, w.jobs[job].handle.lease)
      && (lease != w.jobs[job].handle.lease ==> (Active(w'.manager, lease) <==> Active(w.manager, lease)))
  {
    hide WorldRun, Inv, Active;
    WorldRunInv(events);
    var w := WorldRun(events);
    InvManager(w);
    assert LeaseKept(w.manager, w.jobs[job]) by {
      hide LeaseKept;
    }
    ReleaseEndsOneLease(w.manager, job, w.jobs[job].handle, lease);
  }
}
