/** Duality of sequences and selectors, the order of child ticks within a pass, and which
    leaves latch. */
module BehaviorTheorems {
  import opened BehaviorNodes

  // ---------------------------------------------------------------- duality

  /** When a child returns `go` and cancellation has been requested during its tick, every child
      that is ticked then aborts and touches nothing. */
  ghost predicate Yields<S(!new), W(!new)>(d: Dispatch<S, W>, go: Status) {
    forall s: S, t: S, w: W :: YieldsAt(d, go, s, t, w)
  }

  ghost predicate YieldsAt<S, W>(d: Dispatch<S, W>, go: Status, s: S, t: S, w: W) {
    var first := d.tick(s, w);
    !d.cancelled(w) && first.status == go && d.cancelled(first.world) ==>
      d.tick(t, first.world) == Outcome(Aborted, t, first.world)
  }

  lemma {:induction false} TraverseDual<S(!new), W(!new)>(
      d: Dispatch<S, W>, go: Status, memory: bool, children: seq<S>, index: nat, w: W)
    requires Yields(d, go) && (go == Success || go == Failure) && !d.cancelled(w)
    ensures var p, q := Traverse(d, go, memory, children, index, w),
      Traverse(InverterDispatch(d), Inverted(go), memory, children, index, w);
      q.status == Inverted(p.status) && q.node == p.node && q.world == p.world
    decreases |children| - index
  {
    hide Yields;
    if index < |children| {
      var child := d.tick(children[index], w);
      var next := children[index := child.node];
      if child.status == go && !d.cancelled(child.world) {
        TraverseDual(d, go, memory, next, index + 1, child.world);
      } else if child.status == go && index + 1 < |children| {
        YieldsHere(d, go, children[index], next[index + 1], w);
        AbortedNext(d, go, memory, next, index + 1, child.world);
      }
    }
  }

  lemma YieldsHere<S(!new), W(!new)>(d: Dispatch<S, W>, go: Status, s: S, t: S, w: W)
    requires Yields(d, go)
    ensures YieldsAt(d, go, s, t, w)
  {
  }

  /** A child that aborts untouched ends both traversals in the same way. */
  lemma AbortedNext<S, W>(d: Dispatch<S, W>, go: Status, memory: bool, children: seq<S>, index: nat, w: W)
    requires (go == Success || go == Failure) && index < |children| && d.cancelled(w)
    requires d.tick(children[index], w) == Outcome(Aborted, children[index], w)
    ensures var p, q := Traverse(d, go, memory, children, index, w),
      Traverse(InverterDispatch(d), Inverted(go), memory, children, index, w);
      q.status == p.status == Aborted && q.node == p.node && q.world == p.world
  {
    assert children[index := children[index]] == children;
  }

  lemma {:induction false} InitializeDual<S, W>(d: Dispatch<S, W>, children: seq<S>, index: nat, w: W)
    ensures InitializeFrom(InverterDispatch(d), children, index, w) == InitializeFrom(d, children, index, w)
    ensures ResetFrom(InverterDispatch(d), children, index, w) == ResetFrom(d, children, index, w)
    decreases |children| - index
  {
    if index < |children| {
      var first, last := d.initialize(children[index], w), d.reset(children[index], w);
      InitializeDual(d, children[index := first.node], index + 1, first.world);
      InitializeDual(d, children[index := last.node], index + 1, last.world);
    }
  }

  function Dual<S, W>(d: Dispatch<S, W>, go: Status, memory: bool): Dispatch<Composite<S>, W> {
    InverterDispatch(CompositeDispatch(InverterDispatch(d), Inverted(go), memory))
  }

  /** Once cancellation is requested it stays so, through child calls and between calls. */
  ghost predicate Sticky<S(!new), W(!new)>(d: Dispatch<S, W>, events: seq<Event<W>>) {
    && (forall s: S, w: W :: d.cancelled(w) ==>
      d.cancelled(d.initialize(s, w).world) && d.cancelled(d.reset(s, w).world))
    && (forall k, w: W :: 0 <= k < |events| && d.cancelled(w) ==> d.cancelled(events[k].change(w)))
  }

  /** The dual node after a cancelled tick keeps the index that the composite clears. */
  ghost predicate Agree<S, W>(d: Dispatch<S, W>, memory: bool, a: Composite<S>, c: Composite<S>, w: W) {
    a.children == c.children && (memory && !d.cancelled(w) ==> a.index == c.index)
  }

  lemma CallDual<S(!new), W(!new)>(
      d: Dispatch<S, W>, go: Status, memory: bool, call: Call, a: Composite<S>, c: Composite<S>, w: W)
    requires Yields(d, go) && (go == Success || go == Failure) && Agree(d, memory, a, c, w)
    ensures var x, y := Serve(Dual(d, go, memory), call, a, w), Serve(CompositeDispatch(d, go, memory), call, c, w);
      x.status == y.status && x.world == y.world && Agree(d, memory, x.node, y.node, y.world)
  {
    hide Yields, Traverse, InitializeFrom, ResetFrom;
    InitializeDual(d, c.children, 0, w);
    var e := InverterDispatch(d);
    if call == Tick && !d.cancelled(w) {
      var index := if memory then c.index else 0;
      TraverseDual(d, go, memory, c.children, index, w);
      var p, q := TickComposite(d, go, memory, c, w), TickComposite(e, Inverted(go), memory, a, w);
      assert q.status == Inverted(p.status) && q.node == p.node && q.world == p.world;
      assert CompositeDispatch(e, Inverted(go), memory).tick(a, w) == Outcome(q.status, q.node, q.world);
    }
  }

  /** An inverter over a selector over inverted children is a sequence over the children, and the
      other way round: the same statuses, children and contexts on every run of initializations,
      ticks and resets. Stateless composites do not need cancellation to stick. */
  lemma {:induction false} RunsAreDual<S(!new), W(!new)>(
      d: Dispatch<S, W>, go: Status, memory: bool, events: seq<Event<W>>, a: Composite<S>, c: Composite<S>, w: W)
    requires Yields(d, go) && (go == Success || go == Failure) && Agree(d, memory, a, c, w)
    requires memory ==> Sticky(d, events)
    ensures SameView(Run(Dual(d, go, memory), events, a, w), Run(CompositeDispatch(d, go, memory), events, c, w))
  {
    hide Yields, Dual, CompositeDispatch;
    if events != [] {
      var world := events[0].change(w);
      assert Agree(d, memory, a, c, world);
      CallDual(d, go, memory, events[0].call, a, c, world);
      var x := Serve(Dual(d, go, memory), events[0].call, a, world);
      var y := Serve(CompositeDispatch(d, go, memory), events[0].call, c, world);
      assert memory ==> Sticky(d, events[1..]) by {
        if memory {
          forall k, u: W | 0 <= k < |events[1..]| && d.cancelled(u)
            ensures d.cancelled(events[1..][k].change(u))
          {
            assert events[1..][k] == events[k + 1];
          }
        }
      }
      RunsAreDual(d, go, memory, events[1..], x.node, y.node, y.world);
    }
  }

  /** One tick from the first child shows the same in the dual node. */
  ghost predicate TickIsDual<S, W>(d: Dispatch<S, W>, go: Status, memory: bool, children: seq<S>, w: W) {
    var x, y := Dual(d, go, memory).tick(Composite(0, children), w),
      CompositeDispatch(d, go, memory).tick(Composite(0, children), w);
    x.status == y.status && x.node.children == y.node.children && x.world == y.world
  }

  /** The condition is exact: the dual node agrees on every tick if and only if the children yield
      to a cancellation that one of them has requested. */
  lemma DualityExactly<S(!new), W(!new)>(d: Dispatch<S, W>, go: Status, memory: bool)
    requires go == Success || go == Failure
    ensures (forall children: seq<S>, w: W :: TickIsDual(d, go, memory, children, w)) <==> Yields(d, go)
  {
    hide Yields, TickIsDual, YieldsAt;
    if Yields(d, go) {
      forall children: seq<S>, w: W
        ensures TickIsDual(d, go, memory, children, w)
      {
        YieldingTick(d, go, memory, children, w);
      }
    }
    if forall children: seq<S>, w: W :: TickIsDual(d, go, memory, children, w) {
      forall s: S, t: S, w: W
        ensures YieldsAt(d, go, s, t, w)
      {
        DualTickYields(d, go, memory, s, t, w);
      }
      YieldsIntro(d, go);
    }
  }

  /** So it is for whole runs of stateless composites, whatever happens to cancellation. */
  lemma StatelessRunsExactly<S(!new), W(!new)>(d: Dispatch<S, W>, go: Status)
    requires go == Success || go == Failure
    ensures (forall events: seq<Event<W>>, children: seq<S>, w: W :: RunIsDual(d, go, events, children, w)) <==>
      Yields(d, go)
  {
    hide Yields, TickIsDual, RunIsDual;
    if Yields(d, go) {
      forall events: seq<Event<W>>, children: seq<S>, w: W
        ensures RunIsDual(d, go, events, children, w)
      {
        YieldingRun(d, go, events, children, w);
      }
    }
    if forall events: seq<Event<W>>, children: seq<S>, w: W :: RunIsDual(d, go, events, children, w) {
      forall children: seq<S>, w: W
        ensures TickIsDual(d, go, false, children, w)
      {
        OneTickRun(d, go, children, w);
      }
      DualityExactly(d, go, false);
    }
  }

  ghost predicate RunIsDual<S, W>(d: Dispatch<S, W>, go: Status, events: seq<Event<W>>, children: seq<S>, w: W) {
    SameView(Run(Dual(d, go, false), events, Composite(0, children), w),
      Run(CompositeDispatch(d, go, false), events, Composite(0, children), w))
  }

  lemma YieldingRun<S(!new), W(!new)>(d: Dispatch<S, W>, go: Status, events: seq<Event<W>>, children: seq<S>, w: W)
    requires Yields(d, go) && (go == Success || go == Failure)
    ensures RunIsDual(d, go, events, children, w)
  {
    hide Yields, Dual, CompositeDispatch;
    RunsAreDual(d, go, false, events, Composite(0, children), Composite(0, children), w);
  }

  lemma OneTickRun<S, W>(d: Dispatch<S, W>, go: Status, children: seq<S>, w: W)
    requires RunIsDual(d, go, [Event(Tick, (u: W) => u)], children, w)
    ensures TickIsDual(d, go, false, children, w)
  {
    hide Dual, CompositeDispatch;
    var events := [Event(Tick, (u: W) => u)];
    var x, y := Run(Dual(d, go, false), events, Composite(0, children), w),
      Run(CompositeDispatch(d, go, false), events, Composite(0, children), w);
    assert x[0] == Dual(d, go, false).tick(Composite(0, children), w);
    assert y[0] == CompositeDispatch(d, go, false).tick(Composite(0, children), w);
  }

  lemma YieldsIntro<S(!new), W(!new)>(d: Dispatch<S, W>, go: Status)
    requires forall s: S, t: S, w: W :: YieldsAt(d, go, s, t, w)
    ensures Yields(d, go)
  {
    hide YieldsAt;
  }

  lemma YieldingTick<S(!new), W(!new)>(d: Dispatch<S, W>, go: Status, memory: bool, children: seq<S>, w: W)
    requires Yields(d, go) && (go == Success || go == Failure)
    ensures TickIsDual(d, go, memory, children, w)
  {
    hide Yields, Dual, CompositeDispatch;
    CallDual(d, go, memory, Tick, Composite(0, children), Composite(0, children), w);
  }

  /** Two children tell the nodes apart as soon as the second does not yield to the first. */
  lemma DualTickYields<S(!new), W(!new)>(d: Dispatch<S, W>, go: Status, memory: bool, s: S, t: S, w: W)
    requires (go == Success || go == Failure) && TickIsDual(d, go, memory, [s, t], w)
    ensures YieldsAt(d, go, s, t, w)
  {
    var first := d.tick(s, w);
    if !d.cancelled(w) && first.status == go && d.cancelled(first.world) {
      var e, next := InverterDispatch(d), [first.node, t];
      assert [s, t][0 := first.node] == next;
      var p, q := Traverse(d, go, memory, next, 1, first.world),
        Traverse(e, Inverted(go), memory, next, 1, first.world);
      SecondAborts(d, go, memory, first.node, t, first.world);
      assert Traverse(d, go, memory, [s, t], 0, w).status == p.status &&
        Traverse(d, go, memory, [s, t], 0, w).node == p.node;
      assert Traverse(e, Inverted(go), memory, [s, t], 0, w).status == q.status &&
        Traverse(e, Inverted(go), memory, [s, t], 0, w).node == q.node;
      assert CompositeDispatch(e, Inverted(go), memory).tick(Composite(0, [s, t]), w).status == Aborted;
      SecondOutcome(d, go, memory, first.node, t, first.world);
    }
  }

  lemma SecondAborts<S, W>(d: Dispatch<S, W>, go: Status, memory: bool, s: S, t: S, w: W)
    requires (go == Success || go == Failure) && d.cancelled(w)
    ensures Traverse(InverterDispatch(d), Inverted(go), memory, [s, t], 1, w) ==
      Pass(Aborted, Composite(0, [s, t]), w, [Visit(1, Aborted)])
  {
    assert [s, t][1 := t] == [s, t];
  }

  lemma SecondOutcome<S, W>(d: Dispatch<S, W>, go: Status, memory: bool, s: S, t: S, w: W)
    requires go == Success || go == Failure
    ensures var p := Traverse(d, go, memory, [s, t], 1, w);
      p.status == Aborted && p.node.children == [s, t] && p.world == w ==> d.tick(t, w) == Outcome(Aborted, t, w)
  {
    var o := d.tick(t, w);
    assert [s, t][1 := o.node] == [s, o.node];
    assert [s, o.node][1] == o.node && [s, t][1] == t;
    assert Traverse(d, go, memory, [s, o.node], 2, o.world).status == go;
  }

  // ---------------------------------------------------------------- latching instead of stickiness

  /** Inverted children latch the inverted status. */
  lemma InvertedLatches<S(!new), W(!new)>(d: Dispatch<S, W>, go: Status, good: S -> bool, done: S -> bool)
    requires Latching(d, go, good, done) && (go == Success || go == Failure)
    ensures Latching(InverterDispatch(d), Inverted(go), good, done)
  {
    var e := InverterDispatch(d);
    forall s: S, w: W | good(s)
      ensures good(e.tick(s, w).node) && good(e.initialize(s, w).node) && good(e.reset(s, w).node)
      ensures e.tick(s, w).status == Inverted(go) ==> done(e.tick(s, w).node)
      ensures done(s) && !e.cancelled(w) ==> e.tick(s, w) == Outcome(Inverted(go), s, w)
    {
      InvertedTwice(d.tick(s, w).status, go);
    }
    LatchingIntro(e, Inverted(go), good, done);
  }

  lemma InvertedTwice(status: Status, go: Status)
    ensures Inverted(status) == Inverted(go) <==> status == go
  {
  }

  /** One call on the dual nodes of the two policies. */
  lemma DualCallRefines<S(!new), W(!new)>(
      d: Dispatch<S, W>, go: Status, good: S -> bool, done: S -> bool, call: Call, m: Composite<S>, c: Composite<S>,
      w: W)
    requires Latching(d, go, good, done) && (go == Success || go == Failure)
    requires NodeInv(m, good, done) && c.children == m.children
    ensures var a, b := Serve(Dual(d, go, true), call, m, w), Serve(Dual(d, go, false), call, c, w);
      && a.status == b.status && a.node.children == b.node.children && a.world == b.world
      && NodeInv(a.node, good, done)
  {
    hide Latching, NodeInv, TickComposite, InitializeFrom, ResetFrom;
    InvertedLatches(d, go, good, done);
    CallRefines(InverterDispatch(d), Inverted(go), good, done, call, m, c, w);
  }

  lemma {:induction false} DualMemoryRefines<S(!new), W(!new)>(
      d: Dispatch<S, W>, go: Status, good: S -> bool, done: S -> bool, events: seq<Event<W>>, m: Composite<S>,
      c: Composite<S>, w: W)
    requires Latching(d, go, good, done) && (go == Success || go == Failure)
    requires NodeInv(m, good, done) && c.children == m.children
    ensures SameView(Run(Dual(d, go, true), events, m, w), Run(Dual(d, go, false), events, c, w))
  {
    hide Latching, NodeInv, Dual;
    if events != [] {
      var world := events[0].change(w);
      DualCallRefines(d, go, good, done, events[0].call, m, c, world);
      var a := Serve(Dual(d, go, true), events[0].call, m, world);
      var b := Serve(Dual(d, go, false), events[0].call, c, world);
      DualMemoryRefines(d, go, good, done, events[1..], a.node, b.node, a.world);
    }
  }

  /** Over yielding children whose status to go on with is latched, memory composites are dual on
      every run, even if a cancellation is taken back: forgetting where to resume does not show. */
  lemma LatchedRunsAreDual<S(!new), W(!new)>(
      d: Dispatch<S, W>, go: Status, good: S -> bool, done: S -> bool, events: seq<Event<W>>, c: Composite<S>, w: W)
    requires Latching(d, go, good, done) && Yields(d, go) && (go == Success || go == Failure)
    requires NodeInv(c, good, done)
    ensures SameView(Run(Dual(d, go, true), events, c, w), Run(CompositeDispatch(d, go, true), events, c, w))
  {
    hide Latching, Yields, NodeInv, Dual, CompositeDispatch, Run;
    DualMemoryRefines(d, go, good, done, events, c, c, w);
    RunsAreDual(d, go, false, events, c, c, w);
    MemoryRefinesStateless(d, go, good, done, events, c, c, w);
  }

  // ---------------------------------------------------------------- order of child ticks

  function Count(visits: seq<Visit>, go: Status): (n: nat)
    ensures n <= |visits|
  {
    if visits == [] then 0
    else Count(visits[..|visits| - 1], go) + (if visits[|visits| - 1].status == go then 1 else 0)
  }

  /** Each visit goes to the child after the ones that returned `go` since `first`. */
  ghost predicate InOrder(visits: seq<Visit>, go: Status, first: nat) {
    forall k :: 0 <= k < |visits| ==> visits[k].child == first + Count(visits[..k], go)
  }

  lemma {:induction false} CountConcat(a: seq<Visit>, b: seq<Visit>, go: Status)
    ensures Count(a + b, go) == Count(a, go) + Count(b, go)
  {
    if b == [] {
      assert a + b == a;
    } else {
      assert (a + b)[..|a + b| - 1] == a + b[..|b| - 1];
      CountConcat(a, b[..|b| - 1], go);
    }
  }

  lemma InOrderConcat(a: seq<Visit>, b: seq<Visit>, go: Status, first: nat)
    requires InOrder(a, go, first) && InOrder(b, go, first + Count(a, go))
    ensures InOrder(a + b, go, first)
  {
    hide Count;
    forall k | 0 <= k < |a + b|
      ensures (a + b)[k].child == first + Count((a + b)[..k], go)
    {
      if k < |a| {
        assert (a + b)[..k] == a[..k];
      } else {
        assert (a + b)[..k] == a + b[..k - |a|];
        CountConcat(a, b[..k - |a|], go);
      }
    }
  }

  lemma {:induction false} TraverseInOrder<S, W>(d: Dispatch<S, W>, go: Status, children: seq<S>, index: nat, w: W)
    requires go == Success || go == Failure
    ensures var p := Traverse(d, go, true, children, index, w);
      InOrder(p.visits, go, index) && (p.status == Running ==> p.node.index == index + Count(p.visits, go))
    decreases |children| - index
  {
    hide InOrder, Count;
    NoVisits(go, index);
    if index < |children| {
      var child := d.tick(children[index], w);
      var first := [Visit(index, child.status)];
      OneVisit(first[0], go);
      if child.status == go {
        TraverseInOrder(d, go, children[index := child.node], index + 1, child.world);
        var more := Traverse(d, go, true, children[index := child.node], index + 1, child.world);
        InOrderConcat(first, more.visits, go, index);
        CountConcat(first, more.visits, go);
      }
    }
  }

  lemma OneVisit(v: Visit, go: Status)
    ensures InOrder([v], go, v.child) && Count([v], go) == if v.status == go then 1 else 0
  {
    assert [v][..0] == [];
  }

  /** For each call of a run on a memory composite, the child ticks of the pass it belongs to so
      far. A pass ends when a tick returns anything but Running, or at a reset. */
  ghost function PassLogs<S, W>(
      d: Dispatch<S, W>, go: Status, events: seq<Event<W>>, c: Composite<S>, w: W, log: seq<Visit>):
    (logs: seq<seq<Visit>>)
    ensures |logs| == |events|
  {
    if events == [] then []
    else
      var world := events[0].change(w);
      if events[0].call == Tick then
        var p := TickComposite(d, go, true, c, world);
        [log + p.visits] + PassLogs(d, go, events[1..], p.node, p.world,
          if p.status == Running then log + p.visits else [])
      else
        var o := Serve(CompositeDispatch(d, go, true), events[0].call, c, world);
        [[]] + PassLogs(d, go, events[1..], o.node, o.world, [])
  }

  /** In every pass of every run each child tick is at the child after those that have returned
      `go`, whatever the children do. */
  lemma {:induction false} PassesAreInOrder<S, W>(
      d: Dispatch<S, W>, go: Status, events: seq<Event<W>>, c: Composite<S>, w: W, log: seq<Visit>)
    requires (go == Success || go == Failure) && InOrder(log, go, 0) && c.index == Count(log, go)
    ensures forall k :: 0 <= k < |events| ==> InOrder(PassLogs(d, go, events, c, w, log)[k], go, 0)
  {
    hide Traverse, InitializeFrom, ResetFrom, InOrder;
    assert InOrder([], go, 0) by { NoVisits(go, 0); }
    if events != [] {
      var world := events[0].change(w);
      if events[0].call == Tick {
        var p := TickComposite(d, go, true, c, world);
        TickInOrder(d, go, c, world, log);
        PassesAreInOrder(d, go, events[1..], p.node, p.world, if p.status == Running then log + p.visits else []);
      } else {
        var o := Serve(CompositeDispatch(d, go, true), events[0].call, c, world);
        PassesAreInOrder(d, go, events[1..], o.node, o.world, []);
      }
    }
  }

  lemma NoVisits(go: Status, first: nat)
    ensures InOrder([], go, first) && Count([], go) == 0
  {
  }

  lemma TickInOrder<S, W>(d: Dispatch<S, W>, go: Status, c: Composite<S>, w: W, log: seq<Visit>)
    requires (go == Success || go == Failure) && InOrder(log, go, 0) && c.index == Count(log, go)
    ensures var p := TickComposite(d, go, true, c, w);
      InOrder(log + p.visits, go, 0) && p.node.index == if p.status == Running then Count(log + p.visits, go) else 0
  {
    hide Traverse, InOrder, Count;
    if d.cancelled(w) {
      assert log + [] == log;
    } else {
      TraverseInOrder(d, go, c.children, c.index, w);
      TraverseEnds(d, go, true, c.children, c.index, w);
      var p := TickComposite(d, go, true, c, w);
      InOrderConcat(log, p.visits, go, 0);
      CountConcat(log, p.visits, go);
    }
  }

  /** What the order means: no child is ticked again after it returned `go`, and a child is
      ticked only after every earlier child has. */
  lemma OrderMeans(log: seq<Visit>, go: Status)
    requires InOrder(log, go, 0)
    ensures forall i, j :: 0 <= i < j < |log| && log[i].status == go ==> log[i].child < log[j].child
    ensures forall j, c: nat :: 0 <= j < |log| && c < log[j].child ==> Visit(c, go) in log[..j]
  {
    hide Count;
    forall i, j | 0 <= i < j < |log| && log[i].status == go
      ensures log[i].child < log[j].child
    {
      CountGrows(log, go, i, j);
    }
    forall j, c: nat | 0 <= j < |log| && c < log[j].child
      ensures Visit(c, go) in log[..j]
    {
      Counted(log, go, j, c);
    }
  }

  lemma {:induction false} CountGrows(log: seq<Visit>, go: Status, i: nat, j: nat)
    requires i < j <= |log| && log[i].status == go
    ensures Count(log[..i], go) < Count(log[..j], go)
  {
    assert log[..j][..j - 1] == log[..j - 1];
    if i < j - 1 {
      CountGrows(log, go, i, j - 1);
    }
  }

  lemma {:induction false} Counted(log: seq<Visit>, go: Status, j: nat, c: nat)
    requires InOrder(log, go, 0) && j <= |log| && c < Count(log[..j], go)
    ensures Visit(c, go) in log[..j]
  {
    if j > 0 {
      assert log[..j][..j - 1] == log[..j - 1];
      if c < Count(log[..j - 1], go) {
        Counted(log, go, j - 1, c);
      } else {
        assert log[..j][j - 1] == Visit(c, go);
      }
    }
  }
}
