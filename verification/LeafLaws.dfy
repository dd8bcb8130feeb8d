/** What the leaves answer over a series of ticks. */
module LeafLaws {
  import opened Basics
  import opened BehaviorNodes
  import opened BehaviorLeaves

  /** The statuses of a leaf that is ticked in given contexts, one after the other. */
  function Answers(leaf: Leaf, worlds: seq<World>): (statuses: seq<Status>)
    ensures |statuses| == |worlds|
    decreases |worlds|
  {
    if worlds == [] then []
    else
      var o := TickLeaf(leaf, worlds[0]);
      [o.status] + Answers(o.node, worlds[1..])
  }

  ghost predicate Undisturbed(worlds: seq<World>) {
    forall i :: 0 <= i < |worlds| ==> !worlds[i].cancelled
  }

  /** A delay runs until its duration has passed since its first tick, and then succeeds. */
  lemma {:induction false} DelayElapses(duration: nat, worlds: seq<World>, k: nat)
    requires duration > 0 && 0 < k < |worlds| && Undisturbed(worlds)
    requires forall i :: 0 <= i < k ==> worlds[i].now - worlds[0].now < duration
    requires worlds[k].now - worlds[0].now >= duration
    ensures var statuses := Answers(Delay(duration, None, false), worlds);
      (forall i :: 0 <= i < k ==> statuses[i] == Running) && statuses[k] == Success
  {
    var rest := worlds[1..];
    DelayRuns(duration, worlds[0].now, rest, k - 1);
    var statuses := Answers(Delay(duration, None, false), worlds);
    assert statuses == [Running] + Answers(Delay(duration, Some(worlds[0].now), false), rest);
  }

  lemma {:induction false} DelayRuns(duration: nat, start: nat, worlds: seq<World>, k: nat)
    requires duration > 0 && k < |worlds| && Undisturbed(worlds)
    requires forall i :: 0 <= i < k ==> worlds[i].now - start < duration
    requires worlds[k].now - start >= duration
    ensures var statuses := Answers(Delay(duration, Some(start), false), worlds);
      (forall i :: 0 <= i < k ==> statuses[i] == Running) && statuses[k] == Success
  {
    if k > 0 {
      DelayRuns(duration, start, worlds[1..], k - 1);
      assert Answers(Delay(duration, Some(start), false), worlds) ==
        [Running] + Answers(Delay(duration, Some(start), false), worlds[1..]);
    }
  }

  /** A delay without a positive duration succeeds at every tick. */
  lemma {:induction false} NoDelay(duration: int, completed: bool, worlds: seq<World>)
    requires duration <= 0 && Undisturbed(worlds)
    ensures forall i :: 0 <= i < |worlds| ==> Answers(Delay(duration, None, completed), worlds)[i] == Success
    decreases |worlds|
  {
    if worlds != [] {
      NoDelay(duration, true, worlds[1..]);
    }
  }

  /** A wait runs while its predicate does not hold, fails at a tick at which the predicate throws, and
      once it has held succeeds at every later tick. */
  lemma {:induction false} WaitLatches(condition: World -> Check, worlds: seq<World>, k: nat)
    requires k <= |worlds| && Undisturbed(worlds)
    requires forall i :: 0 <= i < k ==> condition(worlds[i]).answer != Some(true)
    requires k < |worlds| ==> condition(worlds[k]).answer == Some(true)
    ensures var statuses := Answers(Wait(false, condition), worlds);
      && (forall i :: 0 <= i < k ==>
            statuses[i] == if condition(worlds[i]).answer == None then Failure else Running)
      && (forall i :: k <= i < |worlds| ==> statuses[i] == Success)
  {
    if worlds == [] {
    } else if k == 0 {
      Satisfied(condition, worlds[1..]);
    } else {
      WaitLatches(condition, worlds[1..], k - 1);
      assert TickWait(Wait(false, condition), worlds[0]).node == Wait(false, condition);
    }
  }

  lemma {:induction false} Satisfied(condition: World -> Check, worlds: seq<World>)
    requires Undisturbed(worlds)
    ensures forall i :: 0 <= i < |worlds| ==> Answers(Wait(true, condition), worlds)[i] == Success
  {
    if worlds != [] {
      Satisfied(condition, worlds[1..]);
    }
  }

  /** A command runs until polling shows how it ended, or aborts when a cancellation comes first, and
      repeats that for good, cancelled or not. */
  lemma {:induction false} CommandLatches(poll: World -> Option<Status>, worlds: seq<World>, k: nat)
    requires k <= |worlds|
    requires forall i :: 0 <= i < k ==> !worlds[i].cancelled && poll(worlds[i]) == None
    requires k < |worlds| ==> worlds[k].cancelled || poll(worlds[k]) != None
    ensures var statuses := Answers(Command(None, poll), worlds);
      && (forall i :: 0 <= i < k ==> statuses[i] == Running)
      && (forall i :: k <= i < |worlds| ==>
            statuses[i] == if worlds[k].cancelled then Aborted else poll(worlds[k]).value)
  {
    if worlds == [] {
    } else if k == 0 {
      Repeats(if worlds[0].cancelled then Aborted else poll(worlds[0]).value, poll, worlds[1..]);
    } else {
      CommandLatches(poll, worlds[1..], k - 1);
      assert Answers(Command(None, poll), worlds) == [Running] + Answers(Command(None, poll), worlds[1..]);
    }
  }

  lemma {:induction false} Repeats(status: Status, poll: World -> Option<Status>, worlds: seq<World>)
    ensures forall i :: 0 <= i < |worlds| ==> Answers(Command(Some(status), poll), worlds)[i] == status
  {
    if worlds != [] {
      Repeats(status, poll, worlds[1..]);
    }
  }

  /** Under a requested cancellation a wait and a delay abort and start over as after initialization. */
  lemma CancelledStartsOver(leaf: Leaf, w: World)
    requires w.cancelled && !leaf.Command?
    ensures TickLeaf(leaf, w) == Outcome(Aborted, InitializeLeaf(leaf, w).node, w)
    ensures InitializeLeaf(leaf, w).status == Idle && InitializeLeaf(leaf, w).world == w
    ensures Fresh(InitializeLeaf(leaf, w).node)
  {
  }
}
