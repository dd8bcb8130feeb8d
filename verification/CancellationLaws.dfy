/** What the operations on sources bring about in every continuation: registered callbacks run, linked
    sources follow, and unregistered callbacks stay silent. */
module CancellationLaws {
  import opened Basics
  import opened Cancellation
  import opened CancellationTheorems

  /** What a registration leaves behind as long as nobody takes it back. */
  ghost predicate Stands(s: State, t: Ticket, note: Note) {
    && t < |s.notes| && t < |s.places| && s.notes[t] == note && s.places[t] != Unregistered
    && (note.kind.Link? ==> note.kind.child in s.alive)
  }

  lemma StandsOn(s: State, e: Event, t: Ticket, note: Note)
    requires Inv(s) && Stands(s, t, note) && e != Unregister(t)
    requires note.kind.Link? ==> e != Drop(note.kind.child)
    ensures Stands(Step(s, e), t, note)
  {
    hide RemoveFirst, ShapeInv, RunInvariant, LinkInv, CauseInv, KeptBy;
    InRange(s);
  }

  lemma {:induction false} StandsAlways(events: seq<Event>, more: seq<Event>, t: Ticket, note: Note)
    requires Stands(Run(events), t, note) && Unregister(t) !in more
    requires note.kind.Link? ==> Drop(note.kind.child) !in more
    ensures Stands(Run(events + more), t, note)
    decreases |more|
  {
    hide Inv, Step, Stands;
    if more == [] {
      assert events + more == events;
    } else {
      var n := |more| - 1;
      assert (events + more)[..|events + more| - 1] == events + more[..n];
      assert more[n] in more;
      StandsAlways(events, more[..n], t, note);
      RunInv(events + more[..n]);
      StandsOn(Run(events + more[..n]), more[n], t, note);
    }
  }

  lemma Appended(events: seq<Event>, e: Event)
    ensures Run(events + [e]) == Step(Run(events), e)
  {
    hide Step;
    assert (events + [e])[..|events + [e]| - 1] == events;
  }

  /** A callback registered with a source, and never unregistered, has run exactly once if the source is
      cancelled, and not at all if it is not, whenever no cancellation is in progress. */
  lemma RegisteredRuns(events: seq<Event>, source: Source, more: seq<Event>)
    requires source in Run(events).callbacks && Unregister(|Run(events).notes|) !in more
    requires Quiet(Run(events + [Register(source)] + more))
    ensures
      var t, s := |Run(events).notes|, Run(events + [Register(source)] + more);
      && t < |s.notes| && s.notes[t] == Note(source, User)
      && s.runs[t] == if source in s.cancelled then 1 else 0
  {
    hide Run, Step, Inv, Quiet;
    var t := |Run(events).notes|;
    RunInv(events);
    Appended(events, Register(source));
    Registered(Run(events), source);
    StandsAlways(events + [Register(source)], more, t, Note(source, User));
    RunInv(events + [Register(source)] + more);
    PlaceCount(Run(events + [Register(source)] + more));
    ExactlyOnce(events + [Register(source)] + more, t);
  }

  lemma Registered(s: State, source: Source)
    requires Inv(s) && source in s.callbacks
    ensures Stands(Step(s, Register(source)), |s.notes|, Note(source, User))
  {
    InRange(s);
  }

  /** A source created from another one's token follows it: whenever no cancellation is in progress and
      the link was neither unregistered nor its source dropped, it is cancelled if its parent is. */
  lemma LinkedFollows(events: seq<Event>, parent: Source, more: seq<Event>)
    requires parent in Run(events).callbacks
    requires Unregister(|Run(events).notes|) !in more && Drop(Run(events).next) !in more
    requires Quiet(Run(events + [CreateLinked(parent)] + more))
    ensures
      var child, s := Run(events).next, Run(events + [CreateLinked(parent)] + more);
      && child in s.callbacks && child !in Run(events).callbacks
      && (parent in s.cancelled ==> child in s.cancelled)
  {
    hide Run, Step, Inv, Quiet;
    var t, child := |Run(events).notes|, Run(events).next;
    RunInv(events);
    Appended(events, CreateLinked(parent));
    Linked(Run(events), parent);
    StandsAlways(events + [CreateLinked(parent)], more, t, Note(parent, Link(child)));
    var s := Run(events + [CreateLinked(parent)] + more);
    RunInv(events + [CreateLinked(parent)] + more);
    AliveIsKnown(s, child);
    assert [t][1..] == [];
    assert LiveChain(s, [t], parent, child);
    if parent in s.cancelled {
      CancelledIsClosed(events + [CreateLinked(parent)] + more, [t], parent, child);
    }
  }

  lemma Linked(s: State, parent: Source)
    requires Inv(s) && parent in s.callbacks
    ensures Stands(Step(s, CreateLinked(parent)), |s.notes|, Note(parent, Link(s.next)))
    ensures s.next !in s.callbacks
  {
    InRange(s);
  }

  lemma AliveIsKnown(s: State, n: Source)
    requires Inv(s) && n in s.alive
    ensures n in s.callbacks
  {
  }

  /** Cancelling a known source cancels it, takes all its callbacks, and cancels nothing else yet. */
  lemma CancelTakes(events: seq<Event>, source: Source)
    requires source in Run(events).callbacks
    ensures
      var s, s' := Run(events), Run(events + [Cancel(source)]);
      && s'.cancelled == s.cancelled + {source} && s'.notes == s.notes && |s.notes| == |s.places| == |s'.places|
      && forall t :: 0 <= t < |s.places| ==>
           s'.places[t] == if s.places[t] == Kept && s.notes[t].source == source then Taken else s.places[t]
  {
    hide Run, Inv, Step;
    RunInv(events);
    Appended(events, Cancel(source));
    TakesAll(Run(events), source);
  }

  lemma TakesAll(s: State, source: Source)
    requires Inv(s) && source in s.callbacks
    ensures
      var s' := Step(s, Cancel(source));
      && s'.cancelled == s.cancelled + {source} && s'.notes == s.notes && |s.notes| == |s.places| == |s'.places|
      && forall t :: 0 <= t < |s.places| ==>
           s'.places[t] == if s.places[t] == Kept && s.notes[t].source == source then Taken else s.places[t]
  {
    hide RunInvariant, LinkInv, CauseInv;
    InRange(s);
    assert KeptBy(source, s.callbacks[source], s.notes, s.places);
    if source in s.cancelled {
      assert s.cancelled == s.cancelled + {source} && s.callbacks[source] == [];
    }
  }

  /** Whatever a cancellation has taken can be invoked, and then has run once. */
  lemma TakenCanRun(events: seq<Event>, t: Ticket)
    requires t < |Run(events).places| && Run(events).places[t] == Taken
    ensures
      var s, s' := Run(events), Run(events + [Invoke(t)]);
      && s.runs[t] == 0 && s'.runs[t] == 1 && t < |s'.places| && s'.places[t] == Invoked
  {
    hide Run, Inv, Step;
    RunInv(events);
    Appended(events, Invoke(t));
    RunsOnce(Run(events), t);
  }

  lemma RunsOnce(s: State, t: Ticket)
    requires Inv(s) && t < |s.places| && s.places[t] == Taken
    ensures var s' := Step(s, Invoke(t));
      && s.runs[t] == 0 && s'.runs[t] == 1 && t < |s'.places| && s'.places[t] == Invoked
  {
    hide RemoveFirst, KeptBy, LinkInv, CauseInv, Take;
    InRange(s);
  }

  /** A callback that is unregistered before a cancellation takes it never runs. */
  lemma {:induction false} UnregisteredIsSilent(events: seq<Event>, t: Ticket, more: seq<Event>)
    requires t < |Run(events).places| && Run(events).places[t] == Kept
    ensures var s := Run(events + [Unregister(t)] + more);
      t < |s.places| && s.places[t] == Unregistered && s.runs[t] == 0
    decreases |more|
  {
    hide Run, Step, Inv;
    var before := events + [Unregister(t)];
    RunInv(before + more);
    if more == [] {
      assert before + more == before;
      RunInv(events);
      Appended(events, Unregister(t));
      Silenced(Run(events), t);
    } else {
      var n := |more| - 1;
      assert before + more == (before + more[..n]) + [more[n]];
      UnregisteredIsSilent(events, t, more[..n]);
      RunInv(before + more[..n]);
      Appended(before + more[..n], more[n]);
      SilentOn(Run(before + more[..n]), more[n], t);
    }
    NeverRan(Run(before + more), t);
  }

  lemma NeverRan(s: State, t: Ticket)
    requires Inv(s) && t < |s.places| && s.places[t] == Unregistered
    ensures s.runs[t] == 0
  {
  }

  lemma Silenced(s: State, t: Ticket)
    requires Inv(s) && t < |s.places| && s.places[t] == Kept
    ensures var s' := Step(s, Unregister(t)); t < |s'.places| && s'.places[t] == Unregistered
  {
    hide RemoveFirst;
    InRange(s);
  }

  lemma SilentOn(s: State, e: Event, t: Ticket)
    requires Inv(s) && t < |s.places| && s.places[t] == Unregistered
    ensures var s' := Step(s, e); t < |s'.places| && s'.places[t] == Unregistered
  {
    hide RemoveFirst, ShapeInv, RunInvariant, LinkInv, CauseInv, KeptBy;
    InRange(s);
    forall n, u | n in s.callbacks && u in s.callbacks[n]
      ensures u < |s.places| && s.places[u] == Kept
    {
      KeptThere(s, n, u);
    }
  }
}
