/** What holds of linked cancellation over whole runs, and the cascade of one cancellation. */
module CancellationTheorems {
  import opened Basics
  import opened Cancellation

  /** No cancellation is in progress: every callback taken has been invoked. */
  ghost predicate Quiet(s: State) {
    forall t :: 0 <= t < |s.places| ==> s.places[t] != Taken
  }

  /** In every run a callback runs at most once, and only after its source was cancelled. */
  lemma AtMostOnce(events: seq<Event>, t: Ticket)
    ensures var s := Run(events);
      s.runs[t] <= 1 && (s.runs[t] == 1 ==> t < |s.notes| && s.notes[t].source in s.cancelled)
  {
    hide Run, ShapeInv, KeptInv, LinkInv;
    RunInv(events);
  }

  /** Once no cancellation is in progress, a callback that was never unregistered has run exactly
      once if its source is cancelled, and not at all if it is not. */
  lemma ExactlyOnce(events: seq<Event>, t: Ticket)
    requires var s := Run(events); Quiet(s) && t < |s.places| == |s.notes| && s.places[t] != Unregistered
    ensures var s := Run(events); s.runs[t] == if s.notes[t].source in s.cancelled then 1 else 0
  {
    hide Run, LinkInv;
    RunInv(events);
  }

  /** A chain of links, each from a source to one created from its token, whose sources still
      exist and which were never unregistered. */
  ghost predicate LiveChain(s: State, chain: seq<Ticket>, from: Source, to: Source) {
    if chain == [] then from == to
    else
      var t := chain[0];
      && t < |s.notes| && t < |s.places| && s.places[t] != Unregistered
      && s.notes[t].source == from && s.notes[t].kind.Link?
      && s.notes[t].kind.child in s.alive
      && LiveChain(s, chain[1..], s.notes[t].kind.child, to)
  }

  lemma {:induction false} ChainCancelled(s: State, chain: seq<Ticket>, from: Source, to: Source)
    requires Inv(s) && Quiet(s) && LiveChain(s, chain, from, to) && from in s.cancelled
    ensures to in s.cancelled
  {
    if chain != [] {
      var t := chain[0];
      assert s.places[t] != Kept && s.places[t] != Taken;
      ChainCancelled(s, chain[1..], s.notes[t].kind.child, to);
    }
  }

  /** Whenever no cancellation is in progress, the cancelled sources are closed under live links,
      at any depth and whenever the links were made; and links go from older to younger sources. */
  lemma CancelledIsClosed(events: seq<Event>, chain: seq<Ticket>, from: Source, to: Source)
    requires var s := Run(events); Quiet(s) && LiveChain(s, chain, from, to) && from in s.cancelled
    ensures to in Run(events).cancelled && from + |chain| <= to
  {
    hide Run, Inv;
    RunInv(events);
    ChainCancelled(Run(events), chain, from, to);
    ChainAges(Run(events), chain, from, to);
  }

  lemma {:induction false} ChainAges(s: State, chain: seq<Ticket>, from: Source, to: Source)
    requires Inv(s) && LiveChain(s, chain, from, to)
    ensures from + |chain| <= to
  {
    if chain != [] {
      assert NoteOk(s.notes[chain[0]], s.next);
      ChainAges(s, chain[1..], s.notes[chain[0]].kind.child, to);
    }
  }

  /** A cancelled source stays cancelled. */
  lemma CancelledIsSticky(s: State, e: Event)
    ensures s.cancelled <= Step(s, e).cancelled
  {
    hide RemoveFirst, Take;
  }

  ghost predicate LinkReached(s: State, n: Source) {
    exists t :: 0 <= t < |s.notes| && t < |s.places| && s.places[t] == Invoked && s.notes[t].kind == Link(n)
  }

  /** An invoked callback stays invoked, whatever happens. */
  lemma InvokedStays(s: State, e: Event)
    requires Inv(s)
    ensures var u := Step(s, e);
      |s.notes| == |s.places| && |u.notes| == |u.places| && s.notes <= u.notes &&
      forall t :: 0 <= t < |s.places| && s.places[t] == Invoked ==> u.places[t] == Invoked
  {
    hide RemoveFirst, KeptBy, ShapeInv, RunInvariant, LinkInv, CauseInv;
    InRange(s);
    forall n, t | n in s.callbacks && t in s.callbacks[n]
      ensures t < |s.places| && s.places[t] == Kept
    {
      KeptThere(s, n, t);
    }
  }

  lemma KeptThere(s: State, n: Source, t: Ticket)
    requires Inv(s) && n in s.callbacks && t in s.callbacks[n]
    ensures t < |s.places| && s.places[t] == Kept
  {
    assert KeptBy(n, s.callbacks[n], s.notes, s.places);
  }

  lemma ReachedStays(s: State, e: Event, n: Source)
    requires Inv(s) && LinkReached(s, n)
    ensures LinkReached(Step(s, e), n)
  {
    hide Inv, Step;
    InvokedStays(s, e);
    var t :| 0 <= t < |s.notes| && t < |s.places| && s.places[t] == Invoked && s.notes[t].kind == Link(n);
    assert Step(s, e).notes[t] == s.notes[t];
  }

  lemma NewlyCancelled(s: State, e: Event, n: Source)
    requires Inv(s) && n in Step(s, e).cancelled && n !in s.cancelled
    ensures e == Cancel(n) || LinkReached(Step(s, e), n)
  {
    hide RemoveFirst, Take, Inv;
    InRange(s);
    if e.Invoke? {
      var u := Step(s, e);
      assert u.notes == s.notes && u.places[e.ticket] == Invoked && u.notes[e.ticket].kind == Link(n);
    }
  }

  /** Nothing is cancelled without a cause: a call of Cancel on the source itself, or a link
      from a source that was cancelled. */
  lemma {:induction false} CancelledHasCause(events: seq<Event>, n: Source)
    requires n in Run(events).cancelled
    ensures Cancel(n) in events || LinkReached(Run(events), n)
  {
    hide Inv, Step, LinkReached;
    if events != [] {
      var before, e := events[..|events| - 1], events[|events| - 1];
      RunInv(before);
      if n in Run(before).cancelled {
        CancelledHasCause(before, n);
        if LinkReached(Run(before), n) {
          ReachedStays(Run(before), e, n);
        }
      } else {
        NewlyCancelled(Run(before), e, n);
      }
    }
  }

  /** A chain of links that have been invoked, from one source to another. */
  ghost predicate InvokedChain(s: State, chain: seq<Ticket>, from: Source, to: Source) {
    if chain == [] then from == to
    else
      var last := chain[|chain| - 1];
      && last < |s.notes| && last < |s.places| && s.places[last] == Invoked && s.notes[last].kind == Link(to)
      && InvokedChain(s, chain[..|chain| - 1], from, s.notes[last].source)
  }

  /** The whole cause: an invoked chain leads back to a source on which Cancel was called. */
  lemma {:induction false} CancelledTracesBack(events: seq<Event>, n: Source) returns (root: Source, chain: seq<Ticket>)
    requires n in Run(events).cancelled
    ensures Cancel(root) in events && InvokedChain(Run(events), chain, root, n)
    decreases n
  {
    hide Run, Inv;
    CancelledHasCause(events, n);
    if Cancel(n) in events {
      root, chain := n, [];
    } else {
      var s := Run(events);
      var t :| 0 <= t < |s.notes| && t < |s.places| && s.places[t] == Invoked && s.notes[t].kind == Link(n);
      RunInv(events);
      LinkCause(s, t);
      var before;
      root, before := CancelledTracesBack(events, s.notes[t].source);
      chain := before + [t];
      assert chain[..|chain| - 1] == before;
    }
  }

  lemma LinkCause(s: State, t: Ticket)
    requires Inv(s) && t < |s.notes| && t < |s.places| && s.places[t] == Invoked && s.notes[t].kind.Link?
    ensures s.notes[t].source in s.cancelled && s.notes[t].source < s.notes[t].kind.child
  {
    assert NoteOk(s.notes[t], s.next);
  }

  // ---------------------------------------------------------------- the cascade

  /** Taken by somebody else. */
  ghost predicate SameTaken(a: State, b: State) {
    |a.places| == |b.places| && forall t :: 0 <= t < |a.places| ==> (a.places[t] == Taken <==> b.places[t] == Taken)
  }

  /** What a cascade leaves alone. */
  ghost predicate Extends(a: State, b: State) {
    && b.next == a.next && b.alive == a.alive && b.notes == a.notes && b.callbacks.Keys == a.callbacks.Keys
    && a.cancelled <= b.cancelled && |b.places| == |a.places|
    && forall t :: 0 <= t < |a.places| && (a.places[t] == Unregistered || a.places[t] == Invoked) ==>
      b.places[t] == a.places[t]
  }

  /** Taken in `b` are those taken in `a` and the tickets still to be invoked. */
  ghost predicate TakenBeyond(a: State, b: State, todo: seq<Ticket>) {
    && |a.places| == |b.places| == |b.notes|
    && (forall t :: 0 <= t < |a.places| ==> (b.places[t] == Taken <==> a.places[t] == Taken || t in todo))
    && (forall i :: 0 <= i < |todo| ==> todo[i] < |a.places|)
    && (forall i, j :: 0 <= i < j < |todo| ==> todo[i] != todo[j])
  }

  ghost predicate AllFrom(s: State, source: Source, todo: seq<Ticket>) {
    forall i :: 0 <= i < |todo| ==> todo[i] < |s.notes| && s.notes[todo[i]].source == source
  }

  class Sources {
    /** The states of all sources, and the callbacks taken by cancellations under way. */
    var s: State

    constructor ()
      ensures Inv(s) && s == Initial()
    {
      s := Initial();
      new;
      InitialInv();
    }

    /** The critical section of a cancellation. */
    method CancelLocked(source: Source) returns (taken: seq<Ticket>)
      requires Inv(s) && source in s.callbacks && source !in s.cancelled
      modifies this
      ensures Inv(s) && TicketsInRange(old(s)) && s == CancelStep(old(s), source)
      ensures taken == old(s).callbacks[source] && AllFrom(s, source, taken) && TakenBeyond(old(s), s, taken)
      ensures Extends(old(s), s)
      ensures source in s.cancelled && forall i :: 0 <= i < |taken| ==> old(s).places[taken[i]] != Taken
    {
      hide Inv;
      CancelInv(s, source);
      TakenFacts(s, source);
      taken := s.callbacks[source];
      s := s.(cancelled := s.cancelled + {source});
      s := s.(callbacks := s.callbacks[source := []], places := Take(s.places, taken));
    }

    /** Invokes the callbacks that a cancellation of `source` took, in order of registration. A
        link cancels its child, which is younger, and invokes the child's callbacks in turn. */
    method InvokeAll(source: Source, taken: seq<Ticket>, ghost before: State)
      requires Inv(s) && AllFrom(s, source, taken) && TakenBeyond(before, s, taken) && source < s.next
      requires forall i :: 0 <= i < |taken| ==> before.places[taken[i]] != Taken
      modifies this
      ensures Inv(s) && SameTaken(before, s) && Extends(old(s), s)
      decreases s.next - source, 0
    {
      hide Inv;
      ghost var start := s;
      for i := 0 to |taken|
        invariant Inv(s) && AllFrom(s, source, taken) && TakenBeyond(before, s, taken[i..]) && Extends(start, s)
      {
        var t := taken[i];
        assert taken[i..][0] == t && taken[i..][1..] == taken[i + 1..];
        InvokeOne(t, taken[i..], before);
      }
      assert taken[|taken|..] == [];
    }

    /** Invokes the first of the callbacks to do, and everything it sets off. */
    method InvokeOne(t: Ticket, ghost todo: seq<Ticket>, ghost before: State)
      requires Inv(s) && TakenBeyond(before, s, todo) && todo != [] && todo[0] == t && t < |s.notes|
      requires before.places[t] != Taken
      modifies this
      ensures Inv(s) && TakenBeyond(before, s, todo[1..]) && Extends(old(s), s) && s.places[t] == Invoked
      decreases s.next - s.notes[t].source, 0, 0
    {
      hide Inv;
      ghost var start := s;
      InvokeInv(s, t);
      LinkIsYounger(s, t);
      var kind := s.notes[t].kind;
      if kind.Link? && kind.child in s.alive && kind.child !in s.cancelled {
        CancelReaches(s, kind.child, t);
        var taken := CancelLocked(kind.child);
        ghost var cancelled := s;
        s := s.(places := s.places[t := Invoked], runs := s.runs + multiset{t});
        InvokedBeyond(before, start, cancelled, s, todo, taken, t);
        ghost var middle := s;
        InvokeAll(kind.child, taken, AfterInvoking(start, t));
        DoneBeyond(before, start, middle, s, todo, t);
      } else {
        NoCascade(s, t);
        s := s.(places := s.places[t := Invoked], runs := s.runs + multiset{t});
        FirstDone(before, start, s, todo, t);
      }
    }
  }

  /** The state with one callback invoked. */
  ghost function AfterInvoking(s: State, t: Ticket): State
    requires t < |s.places|
  {
    s.(places := s.places[t := Invoked])
  }

  lemma TakenFacts(s: State, source: Source)
    requires Inv(s) && source in s.callbacks && source !in s.cancelled
    ensures TicketsInRange(s)
    ensures var taken, t := s.callbacks[source], CancelStep(s, source);
      && AllFrom(t, source, taken) && TakenBeyond(s, t, taken) && Extends(s, t)
      && forall i :: 0 <= i < |taken| ==> taken[i] < |s.places| && s.places[taken[i]] != Taken
  {
    InRange(s);
    assert KeptBy(source, s.callbacks[source], s.notes, s.places);
  }

  lemma LinkIsYounger(s: State, t: Ticket)
    requires Inv(s) && t < |s.notes|
    ensures t < |s.places| == |s.notes|
    ensures s.notes[t].kind.Link? ==> s.notes[t].source < s.notes[t].kind.child < s.next
    ensures s.notes[t].kind.Link? && s.notes[t].kind.child in s.alive ==> s.notes[t].kind.child in s.callbacks
  {
    assert NoteOk(s.notes[t], s.next);
  }

  lemma NoCascade(s: State, t: Ticket)
    requires Inv(s) && TicketsInRange(s) && t < |s.notes| && t < |s.places| && s.places[t] == Taken
    requires s.notes[t].kind.Link? && s.notes[t].kind.child in s.alive ==> s.notes[t].kind.child in s.cancelled
    ensures InvokeStep(s, t) == s.(places := s.places[t := Invoked], runs := s.runs + multiset{t})
  {
    hide Inv;
  }

  lemma FirstDone(before: State, start: State, after: State, todo: seq<Ticket>, t: Ticket)
    requires TakenBeyond(before, start, todo) && todo != [] && todo[0] == t && t < |start.places|
    requires before.places[t] != Taken
    requires after == start.(places := start.places[t := Invoked], runs := after.runs) && start.places[t] == Taken
    ensures TakenBeyond(before, after, todo[1..]) && Extends(start, after)
  {
    assert todo == [t] + todo[1..];
  }

  lemma InvokedBeyond(
      before: State, start: State, cancelled: State, after: State, todo: seq<Ticket>, taken: seq<Ticket>, t: Ticket)
    requires TakenBeyond(before, start, todo) && todo != [] && todo[0] == t && t < |start.places|
    requires TakenBeyond(start, cancelled, taken) && Extends(start, cancelled) && start.places[t] == Taken
    requires forall i :: 0 <= i < |taken| ==> start.places[taken[i]] != Taken
    requires after == cancelled.(places := cancelled.places[t := Invoked], runs := after.runs)
    requires cancelled.places[t] == Taken
    ensures TakenBeyond(AfterInvoking(start, t), after, taken) && Extends(start, after)
    ensures forall i :: 0 <= i < |taken| ==> AfterInvoking(start, t).places[taken[i]] != Taken
  {
  }

  lemma DoneBeyond(before: State, start: State, middle: State, after: State, todo: seq<Ticket>, t: Ticket)
    requires TakenBeyond(before, start, todo) && todo != [] && todo[0] == t && t < |start.places|
    requires before.places[t] != Taken
    requires SameTaken(AfterInvoking(start, t), after) && Extends(start, middle) && Extends(middle, after)
    requires |after.notes| == |after.places| && t < |middle.places| && middle.places[t] == Invoked
    ensures TakenBeyond(before, after, todo[1..]) && Extends(start, after) && after.places[t] == Invoked
  {
    assert todo == [t] + todo[1..];
  }

  /** Cancelling a source while nothing else is in progress: the cascade terminates, leaves
      nothing in progress, and every live descendant is cancelled. */
  method CancelSource(sources: Sources, source: Source) returns (first: bool)
    requires Inv(sources.s) && Quiet(sources.s) && source in sources.s.callbacks
    modifies sources
    ensures Inv(sources.s) && Quiet(sources.s) && Extends(old(sources.s), sources.s)
    ensures first <==> source !in old(sources.s).cancelled
    ensures source in sources.s.cancelled
    ensures !first ==> sources.s == old(sources.s)
    ensures forall chain, to :: LiveChain(sources.s, chain, source, to) ==> to in sources.s.cancelled
  {
    hide Inv;
    ghost var before := sources.s;
    if source in sources.s.cancelled {
      first := false;
    } else {
      KnownSource(sources.s, source);
      var taken := sources.CancelLocked(source);
      sources.InvokeAll(source, taken, before);
      first := true;
    }
    forall chain, to | LiveChain(sources.s, chain, source, to)
      ensures to in sources.s.cancelled
    {
      ChainCancelled(sources.s, chain, source, to);
    }
  }

  lemma KnownSource(s: State, source: Source)
    requires Inv(s) && source in s.callbacks
    ensures source < s.next
  {
  }
}
