/** What a tick, an initialization and a reset of a node answer, told by what its children answer
    when they are called in turn. */
module BehaviorLaws {
  import opened BehaviorNodes

  /** The outcomes of ticking some children one after the other, each in the context that the one
      before has left. */
  ghost predicate Ticked<S, W>(d: Dispatch<S, W>, children: seq<S>, w: W, outcomes: seq<Outcome<S, W>>) {
    |outcomes| == |children| && forall i :: 0 <= i < |children| ==>
      outcomes[i] == d.tick(children[i], Context(w, outcomes, i))
  }

  /** The context after the first `i` outcomes. */
  function Context<S, W>(w: W, outcomes: seq<Outcome<S, W>>, i: nat): W
    requires i <= |outcomes|
  {
    if i == 0 then w else outcomes[i - 1].world
  }

  /** The first outcome with another status than `go`, or past the end. */
  ghost predicate Stops<S, W>(outcomes: seq<Outcome<S, W>>, go: Status, k: nat) {
    && k <= |outcomes|
    && (forall i :: 0 <= i < k ==> outcomes[i].status == go)
    && (k < |outcomes| ==> outcomes[k].status != go)
  }

  /** The children after the first `n` calls from `first` on. */
  ghost function Left<S, W>(children: seq<S>, first: nat, outcomes: seq<Outcome<S, W>>, n: nat): seq<S>
    requires n <= |outcomes| && first + n <= |children|
  {
    seq(|children|, i requires 0 <= i < |children| =>
      if first <= i < first + n then outcomes[i - first].node else children[i])
  }

  lemma Onward<S, W>(d: Dispatch<S, W>, go: Status, children: seq<S>, w: W, outcomes: seq<Outcome<S, W>>, k: nat)
    requires Ticked(d, children, w, outcomes) && Stops(outcomes, go, k) && k > 0
    ensures children != [] && outcomes[0] == d.tick(children[0], w) && outcomes[0].status == go
    ensures Ticked(d, children[1..], outcomes[0].world, outcomes[1..]) && Stops(outcomes[1..], go, k - 1)
  {
    forall i | 0 <= i < |children[1..]|
      ensures outcomes[1..][i] == d.tick(children[1..][i], Context(outcomes[0].world, outcomes[1..], i))
    {
      assert outcomes[i + 1] == d.tick(children[i + 1], Context(w, outcomes, i + 1));
    }
  }

  /** What a traversal that ends at child `first + k` has done. */
  ghost predicate Answers<S, W>(
      go: Status, memory: bool, children: seq<S>, first: nat, w: W, outcomes: seq<Outcome<S, W>>, k: nat,
      status: Status, node: Composite<S>, world: W)
    requires k <= |outcomes| && first + |outcomes| == |children|
  {
    if k == |outcomes| then
      status == go && node == Composite(0, Left(children, first, outcomes, k)) && world == Context(w, outcomes, k)
    else
      && status == (if outcomes[k].status == Idle then Running else outcomes[k].status)
      && node.index ==
           (if memory && (outcomes[k].status == Running || outcomes[k].status == Idle) then first + k else 0)
      && node.children == Left(children, first, outcomes, k + 1) && world == outcomes[k].world
  }

  lemma {:induction false} TraverseAnswers<S, W>(
      d: Dispatch<S, W>, go: Status, memory: bool, children: seq<S>, first: nat, w: W,
      outcomes: seq<Outcome<S, W>>, k: nat)
    requires (go == Success || go == Failure) && first <= |children|
    requires Ticked(d, children[first..], w, outcomes) && Stops(outcomes, go, k)
    ensures var p := Traverse(d, go, memory, children, first, w);
      Answers(go, memory, children, first, w, outcomes, k, p.status, p.node, p.world)
    decreases k
  {
    if first == |children| {
      assert Left(children, first, outcomes, 0) == children;
    } else if k == 0 {
      assert outcomes[0] == d.tick(children[first], Context(w, outcomes, 0));
      assert Left(children, first, outcomes, 1) == children[first := outcomes[0].node];
    } else {
      Onward(d, go, children[first..], w, outcomes, k);
      var next := children[first := outcomes[0].node];
      assert next[first + 1..] == children[first..][1..];
      TraverseAnswers(d, go, memory, next, first + 1, outcomes[0].world, outcomes[1..], k - 1);
      LeftOnward(children, first, outcomes, k, next);
    }
  }

  lemma LeftOnward<S, W>(children: seq<S>, first: nat, outcomes: seq<Outcome<S, W>>, k: nat, next: seq<S>)
    requires 0 < k <= |outcomes| && first + |outcomes| == |children| && next == children[first := outcomes[0].node]
    ensures Left(next, first + 1, outcomes[1..], k - 1) == Left(children, first, outcomes, k)
    ensures k < |outcomes| ==> Left(next, first + 1, outcomes[1..], k) == Left(children, first, outcomes, k + 1)
  {
  }

  // ---------------------------------------------------------------- sequences and selectors

  /** Where a tick starts. */
  function Start<S>(memory: bool, c: Composite<S>): nat {
    if memory then c.index else 0
  }

  /** A sequence succeeds if and only if all its children do, from where it resumes. Otherwise it
      answers what the first other child answers, Idle shown as Running, and with memory it
      remembers a child that is not finished. Later children are not touched. */
  lemma SequenceAnswers<S, W>(
      d: Dispatch<S, W>, memory: bool, c: Composite<S>, w: W, outcomes: seq<Outcome<S, W>>, k: nat)
    requires !d.cancelled(w) && Start(memory, c) <= |c.children|
    requires Ticked(d, c.children[Start(memory, c)..], w, outcomes) && Stops(outcomes, Success, k)
    ensures var o := SequenceDispatch(d, memory).tick(c, w);
      && (o.status == Success <==> forall i :: 0 <= i < |outcomes| ==> outcomes[i].status == Success)
      && (o.status == Failure <==> k < |outcomes| && outcomes[k].status == Failure)
      && (o.status == Aborted <==> k < |outcomes| && outcomes[k].status == Aborted)
      && (o.status == Running <==> k < |outcomes| && (outcomes[k].status == Running || outcomes[k].status == Idle))
      && o.node.index == (if memory && o.status == Running then c.index + k else 0)
      && o.node.children ==
           Left(c.children, Start(memory, c), outcomes, if k == |outcomes| then k else k + 1)
      && o.world == Context(w, outcomes, if k == |outcomes| then k else k + 1)
  {
    hide Ticked;
    TraverseAnswers(d, Success, memory, c.children, Start(memory, c), w, outcomes, k);
    TickedLength(d, c.children[Start(memory, c)..], w, outcomes);
  }

  lemma TickedLength<S, W>(d: Dispatch<S, W>, children: seq<S>, w: W, outcomes: seq<Outcome<S, W>>)
    requires Ticked(d, children, w, outcomes)
    ensures |outcomes| == |children|
  {
  }

  /** A selector fails if and only if all its children do. Otherwise it answers what the first other
      child answers, Idle shown as Running. */
  lemma SelectorAnswers<S, W>(
      d: Dispatch<S, W>, memory: bool, c: Composite<S>, w: W, outcomes: seq<Outcome<S, W>>, k: nat)
    requires !d.cancelled(w) && Start(memory, c) <= |c.children|
    requires Ticked(d, c.children[Start(memory, c)..], w, outcomes) && Stops(outcomes, Failure, k)
    ensures var o := CompositeDispatch(d, Failure, memory).tick(c, w);
      && (o.status == Failure <==> forall i :: 0 <= i < |outcomes| ==> outcomes[i].status == Failure)
      && (o.status == Success <==> k < |outcomes| && outcomes[k].status == Success)
      && (o.status == Aborted <==> k < |outcomes| && outcomes[k].status == Aborted)
      && (o.status == Running <==> k < |outcomes| && (outcomes[k].status == Running || outcomes[k].status == Idle))
      && o.node.index == (if memory && o.status == Running then c.index + k else 0)
      && o.node.children ==
           Left(c.children, Start(memory, c), outcomes, if k == |outcomes| then k else k + 1)
      && o.world == Context(w, outcomes, if k == |outcomes| then k else k + 1)
  {
    hide Ticked;
    TraverseAnswers(d, Failure, memory, c.children, Start(memory, c), w, outcomes, k);
    TickedLength(d, c.children[Start(memory, c)..], w, outcomes);
  }

  /** Every tick is described by the two laws: there is one list of outcomes, and one place in it. */
  lemma {:induction false} OutcomesExist<S, W>(d: Dispatch<S, W>, go: Status, children: seq<S>, w: W)
    returns (outcomes: seq<Outcome<S, W>>, k: nat)
    ensures Ticked(d, children, w, outcomes) && Stops(outcomes, go, k)
    decreases |children|
  {
    if children == [] {
      outcomes, k := [], 0;
    } else {
      var first := d.tick(children[0], w);
      var rest, n := OutcomesExist(d, go, children[1..], first.world);
      outcomes := [first] + rest;
      k := if first.status == go then n + 1 else 0;
      forall i | 0 <= i < |children|
        ensures outcomes[i] == d.tick(children[i], Context(w, outcomes, i))
      {
        assert i > 0 ==> rest[i - 1] == d.tick(children[1..][i - 1], Context(first.world, rest, i - 1));
      }
    }
  }

  /** Under a requested cancellation no child is ticked: composites abort and forget where to
      resume, and inverters abort. */
  lemma CancelledAborts<S, W>(d: Dispatch<S, W>, go: Status, memory: bool, c: Composite<S>, s: S, w: W)
    requires d.cancelled(w)
    ensures CompositeDispatch(d, go, memory).tick(c, w) == Outcome(Aborted, Composite(0, c.children), w)
    ensures InverterDispatch(d).tick(s, w) == Outcome(Aborted, s, w)
  {
  }

  /** An inverter exchanges success and failure and changes nothing else. */
  lemma InverterAnswers<S, W>(d: Dispatch<S, W>, s: S, w: W)
    requires !d.cancelled(w)
    ensures var o, child := InverterDispatch(d).tick(s, w), d.tick(s, w);
      && o.node == child.node && o.world == child.world
      && (o.status == Success <==> child.status == Failure) && (o.status == Failure <==> child.status == Success)
      && (child.status != Success && child.status != Failure ==> o.status == child.status)
  {
  }

  // ---------------------------------------------------------------- initialization and reset

  ghost predicate Initialized<S, W>(d: Dispatch<S, W>, children: seq<S>, w: W, outcomes: seq<Outcome<S, W>>) {
    |outcomes| == |children| && forall i :: 0 <= i < |children| ==>
      outcomes[i] == d.initialize(children[i], Context(w, outcomes, i))
  }

  ghost predicate WasReset<S, W>(d: Dispatch<S, W>, children: seq<S>, w: W, outcomes: seq<Outcome<S, W>>) {
    |outcomes| == |children| && forall i :: 0 <= i < |children| ==>
      outcomes[i] == d.reset(children[i], Context(w, outcomes, i))
  }

  predicate Refuses(status: Status) {
    status == Failure || status == Aborted
  }

  lemma {:induction false} InitializeFromAnswers<S, W>(
      d: Dispatch<S, W>, children: seq<S>, first: nat, w: W, outcomes: seq<Outcome<S, W>>, k: nat)
    requires first <= |children| && Initialized(d, children[first..], w, outcomes) && k <= |outcomes|
    requires forall i :: 0 <= i < k ==> !Refuses(outcomes[i].status)
    requires k < |outcomes| ==> Refuses(outcomes[k].status)
    ensures var o, n := InitializeFrom(d, children, first, w), if k == |outcomes| then k else k + 1;
      && o.status == (if k == |outcomes| then Idle else outcomes[k].status)
      && o.node == Composite(0, Left(children, first, outcomes, n)) && o.world == Context(w, outcomes, n)
    decreases k
  {
    if first == |children| {
      assert Left(children, first, outcomes, 0) == children;
    } else {
      assert outcomes[0] == d.initialize(children[first], Context(w, outcomes, 0));
      var next := children[first := outcomes[0].node];
      if k == 0 {
        assert Left(children, first, outcomes, 1) == next;
      } else {
        forall i | 0 <= i < |children[first..]| - 1
          ensures outcomes[1..][i] == d.initialize(next[first + 1..][i], Context(outcomes[0].world, outcomes[1..], i))
        {
          assert outcomes[i + 1] == d.initialize(children[first..][i + 1], Context(w, outcomes, i + 1));
        }
        InitializeFromAnswers(d, next, first + 1, outcomes[0].world, outcomes[1..], k - 1);
        LeftOnward(children, first, outcomes, k, next);
      }
    }
  }

  /** A composite is initialized by initializing its children in order, up to the first that fails
      or aborts, whose status it answers; it forgets where to resume. */
  lemma InitializeAnswers<S, W>(
      d: Dispatch<S, W>, go: Status, memory: bool, c: Composite<S>, w: W, outcomes: seq<Outcome<S, W>>, k: nat)
    requires Initialized(d, c.children, w, outcomes) && k <= |outcomes|
    requires forall i :: 0 <= i < k ==> outcomes[i].status != Failure && outcomes[i].status != Aborted
    requires k < |outcomes| ==> outcomes[k].status == Failure || outcomes[k].status == Aborted
    ensures var o, n := CompositeDispatch(d, go, memory).initialize(c, w), if k == |outcomes| then k else k + 1;
      && o.status == (if k == |outcomes| then Idle else outcomes[k].status)
      && o.node == Composite(0, Left(c.children, 0, outcomes, n)) && o.world == Context(w, outcomes, n)
  {
    assert c.children[0..] == c.children;
    InitializeFromAnswers(d, c.children, 0, w, outcomes, k);
  }

  lemma {:induction false} ResetFromAnswers<S, W>(
      d: Dispatch<S, W>, children: seq<S>, first: nat, w: W, outcomes: seq<Outcome<S, W>>)
    requires first <= |children| && WasReset(d, children[first..], w, outcomes)
    ensures var o := ResetFrom(d, children, first, w);
      && o.node == Composite(0, Left(children, first, outcomes, |outcomes|))
      && o.world == Context(w, outcomes, |outcomes|)
    decreases |outcomes|
  {
    if first == |children| {
      assert Left(children, first, outcomes, 0) == children;
    } else {
      assert outcomes[0] == d.reset(children[first], Context(w, outcomes, 0));
      var next := children[first := outcomes[0].node];
      forall i | 0 <= i < |children[first..]| - 1
        ensures outcomes[1..][i] == d.reset(next[first + 1..][i], Context(outcomes[0].world, outcomes[1..], i))
      {
        assert outcomes[i + 1] == d.reset(children[first..][i + 1], Context(w, outcomes, i + 1));
      }
      ResetFromAnswers(d, next, first + 1, outcomes[0].world, outcomes[1..]);
      LeftOnward(children, first, outcomes, |outcomes|, next);
    }
  }

  /** A composite is reset by resetting every child in order; it forgets where to resume. */
  lemma ResetAnswers<S, W>(
      d: Dispatch<S, W>, go: Status, memory: bool, c: Composite<S>, w: W, outcomes: seq<Outcome<S, W>>)
    requires WasReset(d, c.children, w, outcomes)
    ensures var o := CompositeDispatch(d, go, memory).reset(c, w);
      && |o.node.children| == |c.children| && o.node.index == 0
      && (forall i :: 0 <= i < |c.children| ==> o.node.children[i] == outcomes[i].node)
      && o.world == Context(w, outcomes, |outcomes|)
  {
    assert c.children[0..] == c.children;
    ResetFromAnswers(d, c.children, 0, w, outcomes);
  }
}
