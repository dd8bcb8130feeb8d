/** Ticking composite behaviour-tree nodes. A child is a value of any type `S` (its class and
    its fields), the context is a value of any type `W`, and a `Dispatch` is what the virtual
    calls do. */
module BehaviorNodes {

  datatype Status = Idle | Running | Success | Failure | Aborted

  datatype Outcome<+S, +W> = Outcome(status: Status, node: S, world: W)

  datatype Dispatch<!S, !W> = Dispatch(
    initialize: (S, W) -> Outcome<S, W>,
    tick: (S, W) -> Outcome<S, W>,
    reset: (S, W) -> Outcome<S, W>,
    cancelled: W -> bool)

  /** A sequence or a selector: the child to resume from, and the children. */
  datatype Composite<+S> = Composite(index: nat, children: seq<S>)

  /** One child tick: which child, and what it returned. */
  datatype Visit = Visit(child: nat, status: Status)

  /** A traversal: its outcome and the child ticks it made. */
  datatype Pass<+S, +W> = Pass(status: Status, node: Composite<S>, world: W, visits: seq<Visit>)

  // ---------------------------------------------------------------- ticking

  /** Ticks the children from `index` on while they return `go`: Success in a sequence, Failure
      in a selector. */
  function Traverse<S, W>(
      d: Dispatch<S, W>, go: Status, memory: bool, children: seq<S>, index: nat, w: W): (p: Pass<S, W>)
    ensures |p.node.children| == |children|
    decreases |children| - index
  {
    if index >= |children| then Pass(go, Composite(0, children), w, [])
    else
      var child := d.tick(children[index], w);
      var next := children[index := child.node];
      var visit := Visit(index, child.status);
      if child.status == go then
        var p := Traverse(d, go, memory, next, index + 1, child.world);
        p.(visits := [visit] + p.visits)
      else if child.status == Running || child.status == Idle then
        Pass(Running, Composite(if memory then index else 0, next), child.world, [visit])
      else Pass(child.status, Composite(0, next), child.world, [visit])
  }

  function TickComposite<S, W>(d: Dispatch<S, W>, go: Status, memory: bool, c: Composite<S>, w: W): (p: Pass<S, W>)
    ensures |p.node.children| == |c.children|
  {
    if d.cancelled(w) then Pass(Aborted, Composite(0, c.children), w, [])
    else Traverse(d, go, memory, c.children, if memory then c.index else 0, w)
  }

  /** Initializes the children from `index` on until one fails or aborts. */
  function InitializeFrom<S, W>(d: Dispatch<S, W>, children: seq<S>, index: nat, w: W): (o: Outcome<Composite<S>, W>)
    ensures |o.node.children| == |children| && o.node.index == 0
    decreases |children| - index
  {
    if index >= |children| then Outcome(Idle, Composite(0, children), w)
    else
      var child := d.initialize(children[index], w);
      var next := children[index := child.node];
      if child.status == Aborted || child.status == Failure then Outcome(child.status, Composite(0, next), child.world)
      else InitializeFrom(d, next, index + 1, child.world)
  }

  function ResetFrom<S, W>(d: Dispatch<S, W>, children: seq<S>, index: nat, w: W): (o: Outcome<Composite<S>, W>)
    ensures |o.node.children| == |children| && o.node.index == 0
    decreases |children| - index
  {
    if index >= |children| then Outcome(Idle, Composite(0, children), w)
    else
      var child := d.reset(children[index], w);
      ResetFrom(d, children[index := child.node], index + 1, child.world)
  }

  /** A composite is a node again. */
  function CompositeDispatch<S, W>(d: Dispatch<S, W>, go: Status, memory: bool): Dispatch<Composite<S>, W> {
    Dispatch(
      (c: Composite<S>, w: W) => InitializeFrom(d, c.children, 0, w),
      (c: Composite<S>, w: W) => var p := TickComposite(d, go, memory, c, w); Outcome(p.status, p.node, p.world),
      (c: Composite<S>, w: W) => ResetFrom(d, c.children, 0, w),
      d.cancelled)
  }

  function SequenceDispatch<S, W>(d: Dispatch<S, W>, memory: bool): Dispatch<Composite<S>, W> {
    CompositeDispatch(d, Success, memory)
  }

  function Inverted(status: Status): Status {
    match status
    case Success => Failure
    case Failure => Success
    case _ => status
  }

  /** An inverter with a child; it has no state of its own. */
  function InverterDispatch<S, W>(d: Dispatch<S, W>): Dispatch<S, W> {
    Dispatch(
      d.initialize,
      (s: S, w: W) =>
        if d.cancelled(w) then Outcome(Aborted, s, w)
        else var child := d.tick(s, w); Outcome(Inverted(child.status), child.node, child.world),
      d.reset,
      d.cancelled)
  }

  // ---------------------------------------------------------------- runs

  datatype Call = Initialize | Tick | Reset

  /** A call on a node, after whatever the rest of the system did to the context. */
  datatype Event<!W> = Event(call: Call, change: W -> W)

  function Serve<S, W>(d: Dispatch<S, W>, call: Call, s: S, w: W): Outcome<S, W> {
    match call
    case Initialize => d.initialize(s, w)
    case Tick => d.tick(s, w)
    case Reset => d.reset(s, w)
  }

  /** The outcomes of a run of calls. */
  function Run<S, W>(d: Dispatch<S, W>, events: seq<Event<W>>, s: S, w: W): (outcomes: seq<Outcome<S, W>>)
    ensures |outcomes| == |events|
  {
    if events == [] then []
    else
      var o := Serve(d, events[0].call, s, events[0].change(w));
      [o] + Run(d, events[1..], o.node, o.world)
  }

  /** What the callers of two runs can see is the same: statuses, children and context. */
  ghost predicate SameView<S, W>(a: seq<Outcome<Composite<S>, W>>, b: seq<Outcome<Composite<S>, W>>) {
    |a| == |b| && forall k :: 0 <= k < |a| ==>
      a[k].status == b[k].status && a[k].node.children == b[k].node.children && a[k].world == b[k].world
  }

  // ---------------------------------------------------------------- memory refines stateless

  /** Children in a `good` state whose `go` status is latched: once returned, and until the
      child is initialized or reset, the child is `done` and a tick without cancellation
      changes nothing and returns it again. */
  ghost predicate Latching<S(!new), W(!new)>(d: Dispatch<S, W>, go: Status, good: S -> bool, done: S -> bool) {
    && (forall s: S, w: W :: good(s) ==>
         good(d.tick(s, w).node) && good(d.initialize(s, w).node) && good(d.reset(s, w).node))
    && (forall s: S, w: W :: good(s) && d.tick(s, w).status == go ==> done(d.tick(s, w).node))
    && (forall s: S, w: W :: good(s) && done(s) && !d.cancelled(w) ==> d.tick(s, w) == Outcome(go, s, w))
  }

  ghost predicate AllGood<S>(children: seq<S>, good: S -> bool) {
    forall i :: 0 <= i < |children| ==> good(children[i])
  }

  /** The children before `index` are done. */
  ghost predicate PrefixDone<S>(children: seq<S>, index: nat, done: S -> bool) {
    index <= |children| && forall i :: 0 <= i < index ==> done(children[i])
  }

  ghost predicate NodeInv<S>(c: Composite<S>, good: S -> bool, done: S -> bool) {
    AllGood(c.children, good) && PrefixDone(c.children, c.index, done)
  }

  /** A stateless traversal walks over the done prefix and arrives where memory resumes. */
  lemma {:induction false} PrefixIsSkipped<S(!new), W(!new)>(
      d: Dispatch<S, W>, go: Status, good: S -> bool, done: S -> bool, children: seq<S>, from: nat, index: nat, w: W)
    requires Latching(d, go, good, done) && AllGood(children, good) && PrefixDone(children, index, done)
    requires !d.cancelled(w) && from <= index
    ensures var p, q := Traverse(d, go, false, children, from, w), Traverse(d, go, false, children, index, w);
      p.status == q.status && p.node == q.node && p.world == q.world
    decreases index - from
  {
    if from < index {
      assert done(children[from]);
      assert children[from := children[from]] == children;
      PrefixIsSkipped(d, go, good, done, children, from + 1, index, w);
    }
  }

  /** The policy only decides the index that is kept. */
  lemma {:induction false} PolicyOnlyKeepsIndex<S, W>(d: Dispatch<S, W>, go: Status, children: seq<S>, index: nat, w: W)
    ensures var p, q := Traverse(d, go, false, children, index, w), Traverse(d, go, true, children, index, w);
      p.status == q.status && p.node.children == q.node.children && p.world == q.world && p.node.index == 0
    decreases |children| - index
  {
    if index < |children| {
      var child := d.tick(children[index], w);
      PolicyOnlyKeepsIndex(d, go, children[index := child.node], index + 1, child.world);
    }
  }

  lemma {:induction false} TraverseKeepsInv<S(!new), W(!new)>(
      d: Dispatch<S, W>, go: Status, memory: bool, good: S -> bool, done: S -> bool, children: seq<S>, index: nat, w: W)
    requires Latching(d, go, good, done) && AllGood(children, good) && PrefixDone(children, index, done)
    ensures var p := Traverse(d, go, memory, children, index, w);
      NodeInv(p.node, good, done) && (p.status == go && go != Running ==> PrefixDone(p.node.children, |children|, done))
    decreases |children| - index
  {
    if index < |children| {
      var child := d.tick(children[index], w);
      assert good(children[index]);
      TraverseStep(good, done, children, index, child.node);
      if child.status == go {
        TraverseKeepsInv(d, go, memory, good, done, children[index := child.node], index + 1, child.world);
      }
    }
  }

  lemma TraverseStep<S>(good: S -> bool, done: S -> bool, children: seq<S>, index: nat, child: S)
    requires AllGood(children, good) && PrefixDone(children, index, done) && index < |children| && good(child)
    ensures AllGood(children[index := child], good) && PrefixDone(children[index := child], index, done)
    ensures done(child) ==> PrefixDone(children[index := child], index + 1, done)
  {
  }

  /** One call on the two forms of a composite whose children and contexts agree. */
  lemma CallRefines<S(!new), W(!new)>(
      d: Dispatch<S, W>, go: Status, good: S -> bool, done: S -> bool, call: Call, m: Composite<S>, c: Composite<S>,
      w: W)
    requires Latching(d, go, good, done) && NodeInv(m, good, done) && c.children == m.children
    ensures var a, b := Serve(CompositeDispatch(d, go, true), call, m, w),
      Serve(CompositeDispatch(d, go, false), call, c, w);
      a.status == b.status && a.node.children == b.node.children && a.world == b.world && NodeInv(a.node, good, done)
  {
    hide Latching, Traverse;
    match call
    case Initialize => InitializeKeepsGood(d, go, good, done, m.children, 0, w);
    case Reset => ResetKeepsGood(d, go, good, done, m.children, 0, w);
    case Tick =>
      if !d.cancelled(w) {
        PrefixIsSkipped(d, go, good, done, m.children, 0, m.index, w);
        PolicyOnlyKeepsIndex(d, go, m.children, m.index, w);
        TraverseKeepsInv(d, go, true, good, done, m.children, m.index, w);
      }
  }

  lemma {:induction false} InitializeKeepsGood<S(!new), W(!new)>(
      d: Dispatch<S, W>, go: Status, good: S -> bool, done: S -> bool, children: seq<S>, index: nat, w: W)
    requires Latching(d, go, good, done) && AllGood(children, good)
    ensures AllGood(InitializeFrom(d, children, index, w).node.children, good)
    decreases |children| - index
  {
    if index < |children| {
      var child := d.initialize(children[index], w);
      assert good(children[index]);
      InitializeKeepsGood(d, go, good, done, children[index := child.node], index + 1, child.world);
    }
  }

  lemma {:induction false} ResetKeepsGood<S(!new), W(!new)>(
      d: Dispatch<S, W>, go: Status, good: S -> bool, done: S -> bool, children: seq<S>, index: nat, w: W)
    requires Latching(d, go, good, done) && AllGood(children, good)
    ensures AllGood(ResetFrom(d, children, index, w).node.children, good)
    decreases |children| - index
  {
    if index < |children| {
      var child := d.reset(children[index], w);
      assert good(children[index]);
      ResetKeepsGood(d, go, good, done, children[index := child.node], index + 1, child.world);
    }
  }

  /** Memory and stateless traversal cannot be told apart, on every run of calls, over children
      whose `go` status is latched: sequences with go = Success, selectors with go = Failure. */
  lemma {:induction false} MemoryRefinesStateless<S(!new), W(!new)>(
      d: Dispatch<S, W>, go: Status, good: S -> bool, done: S -> bool, events: seq<Event<W>>, m: Composite<S>,
      c: Composite<S>, w: W)
    requires Latching(d, go, good, done) && NodeInv(m, good, done) && c.children == m.children
    ensures SameView(Run(CompositeDispatch(d, go, true), events, m, w),
      Run(CompositeDispatch(d, go, false), events, c, w))
  {
    hide Latching, NodeInv, CompositeDispatch;
    if events != [] {
      var world := events[0].change(w);
      CallRefines(d, go, good, done, events[0].call, m, c, world);
      var a := Serve(CompositeDispatch(d, go, true), events[0].call, m, world);
      var b := Serve(CompositeDispatch(d, go, false), events[0].call, c, world);
      MemoryRefinesStateless(d, go, good, done, events[1..], a.node, b.node, a.world);
    }
  }

  /** Latching is inherited: a sequence (or selector) over latching children latches too, so the
      refinement holds at every level of a tree. */
  lemma CompositeLatches<S(!new), W(!new)>(
      d: Dispatch<S, W>, go: Status, memory: bool, good: S -> bool, done: S -> bool)
    requires Latching(d, go, good, done) && go != Running && go != Aborted
    ensures Latching(CompositeDispatch(d, go, memory), go,
              (c: Composite<S>) => NodeInv(c, good, done),
              (c: Composite<S>) => c.index == 0 && PrefixDone(c.children, |c.children|, done))
  {
    hide Latching, Traverse;
    var e := CompositeDispatch(d, go, memory);
    var goodNode := (c: Composite<S>) => NodeInv(c, good, done);
    var doneNode := (c: Composite<S>) => c.index == 0 && PrefixDone(c.children, |c.children|, done);
    forall c: Composite<S>, w: W | goodNode(c)
      ensures goodNode(e.tick(c, w).node) && goodNode(e.initialize(c, w).node) && goodNode(e.reset(c, w).node)
      ensures e.tick(c, w).status == go ==> doneNode(e.tick(c, w).node)
      ensures doneNode(c) && !e.cancelled(w) ==> e.tick(c, w) == Outcome(go, c, w)
    {
      InitializeKeepsGood(d, go, good, done, c.children, 0, w);
      ResetKeepsGood(d, go, good, done, c.children, 0, w);
      var index := if memory then c.index else 0;
      TraverseKeepsInv(d, go, memory, good, done, c.children, index, w);
      TraverseEnds(d, go, memory, c.children, index, w);
      if doneNode(c) && !d.cancelled(w) {
        DonePass(d, go, memory, good, done, c.children, 0, w);
      }
    }
    LatchingIntro(e, go, goodNode, doneNode);
  }

  lemma LatchingIntro<S(!new), W(!new)>(d: Dispatch<S, W>, go: Status, good: S -> bool, done: S -> bool)
    requires forall s: S, w: W :: good(s) ==>
      good(d.tick(s, w).node) && good(d.initialize(s, w).node) && good(d.reset(s, w).node)
    requires forall s: S, w: W :: good(s) && d.tick(s, w).status == go ==> done(d.tick(s, w).node)
    requires forall s: S, w: W :: good(s) && done(s) && !d.cancelled(w) ==> d.tick(s, w) == Outcome(go, s, w)
    ensures Latching(d, go, good, done)
  {
  }

  lemma {:induction false} TraverseEnds<S, W>(
      d: Dispatch<S, W>, go: Status, memory: bool, children: seq<S>, index: nat, w: W)
    requires go != Running
    ensures var p := Traverse(d, go, memory, children, index, w); p.status != Running ==> p.node.index == 0
    decreases |children| - index
  {
    if index < |children| {
      var child := d.tick(children[index], w);
      TraverseEnds(d, go, memory, children[index := child.node], index + 1, child.world);
    }
  }

  lemma {:induction false} DonePass<S(!new), W(!new)>(
      d: Dispatch<S, W>, go: Status, memory: bool, good: S -> bool, done: S -> bool, children: seq<S>, index: nat, w: W)
    requires Latching(d, go, good, done) && AllGood(children, good) && PrefixDone(children, |children|, done)
    requires !d.cancelled(w)
    ensures var p := Traverse(d, go, memory, children, index, w);
      p.status == go && p.node == Composite(0, children) && p.world == w
    decreases |children| - index
  {
    if index < |children| {
      assert good(children[index]) && done(children[index]);
      assert children[index := children[index]] == children;
      DonePass(d, go, memory, good, done, children, index + 1, w);
    }
  }
}
