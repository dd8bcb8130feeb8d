/** The leaves that wait, send a command or let time pass, and which of them latch success. */
module BehaviorLeaves {
  import opened Basics
  import opened BehaviorNodes
  import opened BehaviorTheorems

  /** The context: a clock, the cancellation request and whatever else predicates look at. */
  datatype World = World(now: nat, cancelled: bool, facts: set<nat>)

  /** What a predicate answers, None if it throws, and how it leaves the context it is given. */
  datatype Check = Check(answer: Option<bool>, world: World)

  datatype Leaf =
    | Wait(satisfied: bool, condition: World -> Check)
    | Command(terminal: Option<Status>, poll: World -> Option<Status>)
    | Delay(duration: int, start: Option<nat>, completed: bool)

  function InitializeLeaf(leaf: Leaf, w: World): Outcome<Leaf, World> {
    match leaf
    case Wait(_, condition) => Outcome(Idle, Wait(false, condition), w)
    case Command(_, poll) => Outcome(Idle, Command(None, poll), w)
    case Delay(duration, _, _) => Outcome(Idle, Delay(duration, None, false), w)
  }

  function ResetLeaf(leaf: Leaf, w: World): Outcome<Leaf, World> {
    InitializeLeaf(leaf, w)
  }

  function TickWait(leaf: Leaf, w: World): Outcome<Leaf, World>
    requires leaf.Wait?
  {
    if w.cancelled then Outcome(Aborted, leaf.(satisfied := false), w)
    else if leaf.satisfied then Outcome(Success, leaf, w)
    else
      var check := leaf.condition(w);
      match check.answer
      case None => Outcome(Failure, leaf, check.world)
      case Some(holds) => Outcome(if holds then Success else Running, leaf.(satisfied := holds), check.world)
  }

  /** What polling shows: None is a command that is still under way. */
  function TickCommand(leaf: Leaf, w: World): Outcome<Leaf, World>
    requires leaf.Command?
  {
    if leaf.terminal.Some? then Outcome(leaf.terminal.value, leaf, w)
    else if w.cancelled then Outcome(Aborted, leaf.(terminal := Some(Aborted)), w)
    else
      match leaf.poll(w)
      case None => Outcome(Running, leaf, w)
      case Some(status) => Outcome(status, leaf.(terminal := Some(status)), w)
  }

  function TickDelay(leaf: Leaf, w: World): Outcome<Leaf, World>
    requires leaf.Delay?
  {
    if w.cancelled then Outcome(Aborted, Delay(leaf.duration, None, false), w)
    else if leaf.completed then Outcome(Success, leaf, w)
    else if leaf.duration <= 0 then Outcome(Success, leaf.(completed := true), w)
    else if leaf.start.None? then Outcome(Running, leaf.(start := Some(w.now)), w)
    else if w.now - leaf.start.value >= leaf.duration then Outcome(Success, Delay(leaf.duration, None, false), w)
    else Outcome(Running, leaf, w)
  }

  function TickLeaf(leaf: Leaf, w: World): Outcome<Leaf, World> {
    match leaf
    case Wait(_, _) => TickWait(leaf, w)
    case Command(_, _) => TickCommand(leaf, w)
    case Delay(_, _, _) => TickDelay(leaf, w)
  }

  function LeafDispatch(): Dispatch<Leaf, World> {
    Dispatch(InitializeLeaf, TickLeaf, ResetLeaf, (w: World) => w.cancelled)
  }

  predicate Patient(leaf: Leaf) {
    leaf.Delay? ==> leaf.duration <= 0
  }

  predicate Done(leaf: Leaf) {
    match leaf
    case Wait(satisfied, _) => satisfied
    case Command(terminal, _) => terminal == Some(Success)
    case Delay(_, _, completed) => completed
  }

  /** Every leaf but a delay of positive duration latches its success. */
  lemma PatientLeavesLatch()
    ensures Latching(LeafDispatch(), Success, Patient, Done)
  {
    LatchingIntro(LeafDispatch(), Success, Patient, Done);
  }

  /** So over such leaves the two policies agree on every run from a fresh node. */
  lemma PatientSequences(events: seq<Event<World>>, leaves: seq<Leaf>, w: World)
    requires forall i :: 0 <= i < |leaves| ==> Patient(leaves[i])
    ensures SameView(Run(SequenceDispatch(LeafDispatch(), true), events, Composite(0, leaves), w),
                     Run(SequenceDispatch(LeafDispatch(), false), events, Composite(0, leaves), w))
  {
    PatientLeavesLatch();
    MemoryRefinesStateless(LeafDispatch(), Success, Patient, Done, events, Composite(0, leaves), Composite(0, leaves),
      w);
  }

  /** A leaf that succeeds from a given time on. */
  function Until(time: nat): Leaf {
    Wait(false, (w: World) => Check(Some(w.now >= time), w))
  }

  function At(time: nat): World {
    World(time, false, {})
  }

  /** Statuses of ticks at given times. */
  function TicksAt(memory: bool, times: seq<nat>, c: Composite<Leaf>): seq<Status> {
    if times == [] then []
    else
      var p := TickComposite(LeafDispatch(), Success, memory, c, At(times[0]));
      [p.status] + TicksAt(memory, times[1..], p.node)
  }

  /** A delay of any positive duration forgets its success, and the policies part: before a leaf
      that is still running, the stateless sequence starts the delay again. */
  lemma DelayTellsPoliciesApart(duration: nat)
    requires duration > 0
    ensures var c := Composite(0, [Delay(duration, None, false), Until(duration + 1)]);
      var times := [0, duration, duration + 1];
      TicksAt(true, times, c) == [Running, Running, Success] && TicksAt(false, times, c) == [Running, Running, Running]
  {
    var c := Composite(0, [Delay(duration, None, false), Until(duration + 1)]);
    var started := Composite(0, [Delay(duration, Some(0), false), Until(duration + 1)]);
    var resumed := Composite(1, c.children);
    FirstTick(true, duration);
    FirstTick(false, duration);
    SecondTick(true, duration);
    SecondTick(false, duration);
    ThirdTicks(duration);
    var later := [duration, duration + 1];
    assert [0, duration, duration + 1][1..] == later && later[1..] == [duration + 1] && [duration + 1][1..] == [];
    assert TicksAt(true, [duration + 1], resumed) == [Success];
    assert TicksAt(false, [duration + 1], c) == [Running];
    assert TicksAt(true, later, started) == [Running] + [Success];
    assert TicksAt(false, later, started) == [Running] + [Running];
  }

  // ---------------------------------------------------------------- which leaves are safe

  predicate Fresh(leaf: Leaf) {
    match leaf
    case Wait(satisfied, _) => !satisfied
    case Command(terminal, _) => terminal.None?
    case Delay(_, start, completed) => start.None? && !completed
  }

  /** Before a leaf that succeeds from some time on, the two policies agree at all times. */
  ghost predicate SafeBeforeWaits(leaf: Leaf) {
    forall time: nat, times: seq<nat> :: SameTicks(Composite(0, [leaf, Until(time)]), times)
  }

  ghost predicate SameTicks(c: Composite<Leaf>, times: seq<nat>) {
    TicksAt(true, times, c) == TicksAt(false, times, c)
  }

  lemma {:induction false} LatchedTicks(m: Composite<Leaf>, c: Composite<Leaf>, times: seq<nat>)
    requires NodeInv(m, Patient, Done) && c.children == m.children
    ensures TicksAt(true, times, m) == TicksAt(false, times, c)
    decreases |times|
  {
    hide NodeInv, Latching, TickComposite;
    if times != [] {
      PatientLeavesLatch();
      CallRefines(LeafDispatch(), Success, Patient, Done, Tick, m, c, At(times[0]));
      var p, q := TickComposite(LeafDispatch(), Success, true, m, At(times[0])),
        TickComposite(LeafDispatch(), Success, false, c, At(times[0]));
      LatchedTicks(p.node, q.node, times[1..]);
    }
  }

  /** A fresh leaf is safe before every wait if and only if it is not a delay of positive duration. */
  lemma SafeLeavesExactly(leaf: Leaf)
    requires Fresh(leaf)
    ensures SafeBeforeWaits(leaf) <==> Patient(leaf)
  {
    hide TicksAt;
    if Patient(leaf) {
      forall time: nat, times: seq<nat>
        ensures SameTicks(Composite(0, [leaf, Until(time)]), times)
      {
        var c := Composite(0, [leaf, Until(time)]);
        assert NodeInv(c, Patient, Done);
        LatchedTicks(c, c, times);
      }
    } else {
      var duration: nat := leaf.duration;
      DelayTellsPoliciesApart(duration);
      var c, times := Composite(0, [leaf, Until(duration + 1)]), [0, duration, duration + 1];
      assert [Running, Running, Success][2] != [Running, Running, Running][2];
      assert !SameTicks(c, times);
    }
  }

  // ---------------------------------------------------------------- duality needs yielding children

  /** A wait whose predicate requests cancellation and holds. */
  function Canceller(): Leaf {
    Wait(false, (w: World) => Check(Some(true), w.(cancelled := true)))
  }

  /** A command that has completed answers before it looks at cancellation. */
  function Latched(): Leaf {
    Command(Some(Success), (w: World) => None)
  }

  /** So these two do not yield: their sequence succeeds, while an inverter over a selector over
      their inversions aborts. */
  lemma CancellationBreaksDuality()
    ensures !Yields(LeafDispatch(), Success)
    ensures var pair := Composite(0, [Canceller(), Latched()]);
      CompositeDispatch(LeafDispatch(), Success, false).tick(pair, At(0)).status == Success
    ensures Dual(LeafDispatch(), Success, false).tick(Composite(0, [Canceller(), Latched()]), At(0)).status == Aborted
  {
    var d, e, w := LeafDispatch(), InverterDispatch(LeafDispatch()), At(0).(cancelled := true);
    var first := TickLeaf(Canceller(), At(0));
    assert first == Outcome(Success, Canceller().(satisfied := true), w);
    assert !YieldsAt(d, Success, Canceller(), Latched(), At(0));
    var children, next := [Canceller(), Latched()], [first.node, Latched()];
    assert children[0 := first.node] == next && next[1 := Latched()] == next;
    assert Traverse(d, Success, false, next, 2, w).status == Success;
    assert Traverse(d, Success, false, next, 1, w).status == Success;
    assert e.tick(Canceller(), At(0)) == Outcome(Failure, first.node, w);
    assert Traverse(e, Failure, false, next, 1, w).status == Aborted;
    assert Traverse(e, Failure, false, children, 0, At(0)).status == Aborted;
    assert CompositeDispatch(e, Failure, false).tick(Composite(0, children), At(0)).status == Aborted;
  }

  // ---------------------------------------------------------------- a cancellation that is taken back

  /** A delay that is about to end, and a wait that is over one tick later. */
  function EndingDelay(): Composite<Leaf> {
    Composite(0, [Delay(1, Some(0), false), Until(2)])
  }

  function CancelledAt(time: nat): World {
    At(time).(cancelled := true)
  }

  /** Three ticks: the second while cancellation is requested, which the third no longer sees. */
  function TakenBack(): seq<Event<World>> {
    [Event(Tick, (w: World) => At(1)), Event(Tick, (w: World) => CancelledAt(1)), Event(Tick, (w: World) => At(2))]
  }

  /** With memory the sequence starts the delay again while its dual resumes at the wait, although no
      child requests cancellation: duality of memory composites needs it to stick, or latched children. */
  lemma TakenBackCancellationParts()
    ensures Run(Dual(LeafDispatch(), Success, true), TakenBack(), EndingDelay(), At(0))[2].status == Success
    ensures Run(SequenceDispatch(LeafDispatch(), true), TakenBack(), EndingDelay(), At(0))[2].status == Running
  {
    hide Dual, SequenceDispatch, LeafDispatch;
    FirstTickEnds();
    SecondTickCancelled();
    ThirdTickParts();
    var e := TakenBack();
    ThreeTicks(Dual(LeafDispatch(), Success, true), e, EndingDelay(), At(0));
    ThreeTicks(SequenceDispatch(LeafDispatch(), true), e, EndingDelay(), At(0));
  }

  lemma ThreeTicks(d: Dispatch<Composite<Leaf>, World>, e: seq<Event<World>>, c: Composite<Leaf>, w: World)
    requires |e| == 3 && e[0].call == e[1].call == e[2].call == Tick
    ensures var first := d.tick(c, e[0].change(w));
      var second := d.tick(first.node, e[1].change(first.world));
      Run(d, e, c, w)[2] == d.tick(second.node, e[2].change(second.world))
  {
    var first := d.tick(c, e[0].change(w));
    var second := d.tick(first.node, e[1].change(first.world));
    assert e[1..][0] == e[1] && e[1..][1..][0] == e[2];
    assert Run(d, e[1..][1..], second.node, second.world)[0] == d.tick(second.node, e[2].change(second.world));
    assert Run(d, e[1..], first.node, first.world) == [second] + Run(d, e[1..][1..], second.node, second.world);
    assert Run(d, e, c, w) == [first] + Run(d, e[1..], first.node, first.world);
  }

  lemma FirstTickEnds()
    ensures var next := Composite(1, [Delay(1, None, false), Until(2)]);
      && SequenceDispatch(LeafDispatch(), true).tick(EndingDelay(), At(1)) == Outcome(Running, next, At(1))
      && Dual(LeafDispatch(), Success, true).tick(EndingDelay(), At(1)) == Outcome(Running, next, At(1))
  {
    var d, e := LeafDispatch(), InverterDispatch(LeafDispatch());
    var start, next := EndingDelay().children, [Delay(1, None, false), Until(2)];
    assert start[0 := next[0]] == next && next[1 := next[1]] == next;
    assert TickLeaf(start[0], At(1)) == Outcome(Success, next[0], At(1));
    assert TickLeaf(next[1], At(1)) == Outcome(Running, next[1], At(1));
    var p, q := Traverse(d, Success, true, next, 1, At(1)), Traverse(e, Failure, true, next, 1, At(1));
    assert p.status == q.status == Running && p.node == q.node == Composite(1, next);
    assert Traverse(d, Success, true, start, 0, At(1)).node == p.node;
    assert Traverse(e, Failure, true, start, 0, At(1)).node == q.node;
    assert CompositeDispatch(e, Failure, true).tick(EndingDelay(), At(1)) ==
      Outcome(Running, Composite(1, next), At(1));
  }

  lemma SecondTickCancelled()
    ensures var next := Composite(1, [Delay(1, None, false), Until(2)]);
      && SequenceDispatch(LeafDispatch(), true).tick(next, CancelledAt(1))
           == Outcome(Aborted, next.(index := 0), CancelledAt(1))
      && Dual(LeafDispatch(), Success, true).tick(next, CancelledAt(1)) == Outcome(Aborted, next, CancelledAt(1))
  {
  }

  lemma ThirdTickParts()
    ensures var next := Composite(1, [Delay(1, None, false), Until(2)]);
      && SequenceDispatch(LeafDispatch(), true).tick(next.(index := 0), At(2)).status == Running
      && Dual(LeafDispatch(), Success, true).tick(next, At(2)).status == Success
  {
    var e, next := InverterDispatch(LeafDispatch()), [Delay(1, None, false), Until(2)];
    var tick := TickLeaf(next[1], At(2));
    assert tick.status == Success;
    assert LeafDispatch().tick(next[1], At(2)) == tick && !e.cancelled(At(2));
    assert Inverted(Success) == Failure;
    assert e.tick(next[1], At(2)).status == Inverted(tick.status);
    assert e.tick(next[1], At(2)) == Outcome(Failure, tick.node, tick.world);
    assert Traverse(e, Failure, true, next[1 := tick.node], 2, tick.world).status == Failure;
    assert Traverse(e, Failure, true, next, 1, At(2)).status == Failure;
    assert CompositeDispatch(e, Failure, true).tick(Composite(1, next), At(2)).status == Failure;
  }

  // ---------------------------------------------------------------- three ticks of a delay

  lemma FirstTick(memory: bool, duration: nat)
    requires duration > 0
    ensures var p := TickComposite(LeafDispatch(), Success, memory,
      Composite(0, [Delay(duration, None, false), Until(duration + 1)]), At(0));
      p.status == Running && p.node == Composite(0, [Delay(duration, Some(0), false), Until(duration + 1)])
  {
    var children := [Delay(duration, None, false), Until(duration + 1)];
    assert children[0 := Delay(duration, Some(0), false)] == [Delay(duration, Some(0), false), Until(duration + 1)];
  }

  lemma SecondTick(memory: bool, duration: nat)
    requires duration > 0
    ensures var p := TickComposite(LeafDispatch(), Success, memory,
      Composite(0, [Delay(duration, Some(0), false), Until(duration + 1)]), At(duration));
      p.status == Running &&
        p.node == Composite(if memory then 1 else 0, [Delay(duration, None, false), Until(duration + 1)])
  {
    var children, next := [Delay(duration, Some(0), false), Until(duration + 1)],
      [Delay(duration, None, false), Until(duration + 1)];
    assert children[0 := next[0]] == next && next[1 := next[1]] == next;
    assert TickLeaf(next[1], At(duration)) == Outcome(Running, next[1], At(duration));
    var last := Traverse(LeafDispatch(), Success, memory, next, 1, At(duration));
    assert last.status == Running && last.node == Composite(if memory then 1 else 0, next);
    var all := Traverse(LeafDispatch(), Success, memory, children, 0, At(duration));
    assert all.status == last.status && all.node == last.node;
  }

  lemma ThirdTicks(duration: nat)
    requires duration > 0
    ensures var children := [Delay(duration, None, false), Until(duration + 1)];
      TickComposite(LeafDispatch(), Success, true, Composite(1, children), At(duration + 1)).status == Success &&
      TickComposite(LeafDispatch(), Success, false, Composite(0, children), At(duration + 1)).status == Running
  {
    var children := [Delay(duration, None, false), Until(duration + 1)];
    var tick := TickLeaf(children[1], At(duration + 1));
    assert tick.status == Success;
    assert Traverse(LeafDispatch(), Success, true, children[1 := tick.node], 2, tick.world).status == Success;
    assert Traverse(LeafDispatch(), Success, true, children, 1, At(duration + 1)).status == Success;
  }
}
