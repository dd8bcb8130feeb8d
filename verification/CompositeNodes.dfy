/** The composite nodes as objects. A sequence and a selector differ in their tick only. */
module CompositeNodes {
  import opened Basics
  import opened BehaviorNodes

  class CompositeNode<!S, !W> {
    const dispatch: Dispatch<S, W>
    const memory: bool
    var children: seq<S>
    var currentIndex: nat

    function Value(): Composite<S>
      reads this
    {
      Composite(currentIndex, children)
    }

    constructor (dispatch: Dispatch<S, W>, memory: bool, children: seq<S>)
      ensures this.dispatch == dispatch && this.memory == memory && Value() == Composite(0, children)
    {
      this.dispatch, this.memory, this.children, currentIndex := dispatch, memory, children, 0;
    }

    /** Refuses a missing child; a new one comes last and does not change where a tick resumes. */
    method AddChild(child: Option<S>) returns (added: bool)
      modifies this
      ensures added <==> child.Some?
      ensures Value() == if added then Composite(old(currentIndex), old(children) + [child.value]) else old(Value())
    {
      if child.None? {
        return false;
      }
      children := children + [child.value];
      return true;
    }

    method Initialize(context: W) returns (status: Status, world: W)
      modifies this
      ensures Outcome(status, Value(), world) == InitializeFrom(dispatch, old(children), 0, context)
    {
      currentIndex := 0;
      world := context;
      for index := 0 to |children|
        invariant currentIndex == 0 && |children| == |old(children)|
        invariant InitializeFrom(dispatch, old(children), 0, context) ==
          InitializeFrom(dispatch, children, index, world)
      {
        var child := dispatch.initialize(children[index], world);
        children, world := children[index := child.node], child.world;
        if child.status == Aborted || child.status == Failure {
          return child.status, world;
        }
      }
      status := Idle;
    }

    method Reset(context: W) returns (world: W)
      modifies this
      ensures Outcome(Idle, Value(), world) == ResetFrom(dispatch, old(children), 0, context)
    {
      currentIndex := 0;
      world := context;
      for index := 0 to |children|
        invariant currentIndex == 0 && |children| == |old(children)|
        invariant ResetFrom(dispatch, old(children), 0, context) == ResetFrom(dispatch, children, index, world)
      {
        var child := dispatch.reset(children[index], world);
        children, world := children[index := child.node], child.world;
      }
    }

    method TickSequence(context: W) returns (status: Status, world: W)
      modifies this
      ensures var p := TickComposite(dispatch, Success, memory, old(Value()), context);
        status == p.status && Value() == p.node && world == p.world
    {
      world := context;
      if dispatch.cancelled(world) {
        currentIndex := 0;
        return Aborted, world;
      }
      if children == [] {
        currentIndex := 0;
        return Success, world;
      }
      var index := if memory then currentIndex else 0;
      ghost var first := index;
      while index < |children|
        invariant |children| == |old(children)| && index >= first
        invariant Same(Traverse(dispatch, Success, memory, old(children), first, context),
                       Traverse(dispatch, Success, memory, children, index, world))
        decreases |children| - index
      {
        var child := dispatch.tick(children[index], world);
        children, world := children[index := child.node], child.world;
        match child.status
        case Success =>
          index := index + 1;
        case Running | Idle =>
          currentIndex := if memory then index else 0;
          return Running, world;
        case Failure =>
          currentIndex := 0;
          return Failure, world;
        case Aborted =>
          currentIndex := 0;
          return Aborted, world;
      }
      currentIndex := 0;
      status := Success;
    }

    method TickSelector(context: W) returns (status: Status, world: W)
      modifies this
      ensures var p := TickComposite(dispatch, Failure, memory, old(Value()), context);
        status == p.status && Value() == p.node && world == p.world
    {
      world := context;
      if dispatch.cancelled(world) {
        currentIndex := 0;
        return Aborted, world;
      }
      if children == [] {
        currentIndex := 0;
        return Failure, world;
      }
      var index := if memory then currentIndex else 0;
      ghost var first := index;
      while index < |children|
        invariant |children| == |old(children)| && index >= first
        invariant Same(Traverse(dispatch, Failure, memory, old(children), first, context),
                       Traverse(dispatch, Failure, memory, children, index, world))
        decreases |children| - index
      {
        var child := dispatch.tick(children[index], world);
        children, world := children[index := child.node], child.world;
        match child.status
        case Failure =>
          index := index + 1;
        case Running | Idle =>
          currentIndex := if memory then index else 0;
          return Running, world;
        case Success =>
          currentIndex := 0;
          return Success, world;
        case Aborted =>
          currentIndex := 0;
          return Aborted, world;
      }
      currentIndex := 0;
      status := Failure;
    }
  }

  /** The same result, whatever was visited on the way. */
  ghost predicate Same<S, W>(p: Pass<S, W>, q: Pass<S, W>) {
    p.status == q.status && p.node == q.node && p.world == q.world
  }
}
