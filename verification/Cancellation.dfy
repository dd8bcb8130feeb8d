/** Linked cancellation sources. Sources are numbered in creation order, and callbacks carry the
    number of their registration. Every event is one critical section, or the invocation of one
    callback that a cancellation has taken out of its source. */
module Cancellation {
  import opened Basics

  type Source = nat

  type Ticket = nat

  /** A callback of the user, or the one that links a source to a source created from its token. */
  datatype Kind = User | Link(child: Source)

  datatype Note = Note(source: Source, kind: Kind)

  /** Where a callback is: kept by its source, taken by a cancellation and not yet invoked,
      invoked, or unregistered before that. */
  datatype Place = Kept | Taken | Invoked | Unregistered

  /** `notes` and `places` are indexed by ticket. `alive` are the sources whose state still
      exists, so that a link can reach it. `runs` counts invocations. */
  datatype State = State(
    next: Source,
    alive: set<Source>,
    cancelled: set<Source>,
    callbacks: map<Source, seq<Ticket>>,
    notes: seq<Note>,
    places: seq<Place>,
    runs: multiset<Ticket>)

  function Initial(): State {
    State(0, {}, {}, map[], [], [], multiset{})
  }

  datatype Event =
    | Create
    | CreateLinked(parent: Source)
    | Register(source: Source)
    | Unregister(ticket: Ticket)
    | Cancel(source: Source)
    | Invoke(ticket: Ticket)
    | Drop(source: Source)

  function CreateStep(s: State): State {
    s.(next := s.next + 1, alive := s.alive + {s.next}, callbacks := s.callbacks[s.next := []])
  }

  /** Registration with a cancelled source hands the callback over for invocation at once. */
  function RegisterStep(s: State, source: Source, kind: Kind): State
    requires source in s.callbacks
  {
    var ticket := |s.notes|;
    var t := s.(notes := s.notes + [Note(source, kind)],
      places := s.places + [if source in s.cancelled then Taken else Kept]);
    if source in s.cancelled then t else t.(callbacks := s.callbacks[source := s.callbacks[source] + [ticket]])
  }

  function UnregisterStep(s: State, ticket: Ticket): State {
    if || ticket >= |s.notes|
       || ticket >= |s.places|
       || s.notes[ticket].source !in s.callbacks
       || ticket !in s.callbacks[s.notes[ticket].source]
    then s
    else
      var source := s.notes[ticket].source;
      s.(callbacks := s.callbacks[source := RemoveFirst(s.callbacks[source], ticket)],
        places := s.places[ticket := Unregistered])
  }

  function Take(places: seq<Place>, tickets: seq<Ticket>): (after: seq<Place>)
    requires forall i :: 0 <= i < |tickets| ==> tickets[i] < |places|
    ensures |after| == |places|
    ensures forall t :: 0 <= t < |places| ==> after[t] == if t in tickets then Taken else places[t]
  {
    if tickets == [] then places else Take(places, tickets[..|tickets| - 1])[tickets[|tickets| - 1] := Taken]
  }

  ghost predicate TicketsInRange(s: State) {
    forall n, i :: n in s.callbacks && 0 <= i < |s.callbacks[n]| ==> s.callbacks[n][i] < |s.places|
  }

  /** The first cancellation takes all callbacks out; another one changes nothing. */
  function CancelStep(s: State, source: Source): State
    requires TicketsInRange(s)
  {
    if source !in s.callbacks || source in s.cancelled then s
    else s.(cancelled := s.cancelled + {source},
            callbacks := s.callbacks[source := []],
            places := Take(s.places, s.callbacks[source]))
  }

  function InvokeStep(s: State, ticket: Ticket): State
    requires TicketsInRange(s)
  {
    if ticket >= |s.places| || ticket >= |s.notes| || s.places[ticket] != Taken then s
    else
      var kind := s.notes[ticket].kind;
      var t := if kind.Link? && kind.child in s.alive then CancelStep(s, kind.child) else s;
      t.(places := t.places[ticket := Invoked], runs := t.runs + multiset{ticket})
  }

  ghost function Step(s: State, e: Event): State {
    if !TicketsInRange(s) then s
    else
      match e
      case Create => CreateStep(s)
      case CreateLinked(parent) =>
        if parent in s.callbacks then RegisterStep(CreateStep(s), parent, Link(s.next)) else s
      case Register(source) => if source in s.callbacks then RegisterStep(s, source, User) else s
      case Unregister(ticket) => UnregisterStep(s, ticket)
      case Cancel(source) => CancelStep(s, source)
      case Invoke(ticket) => InvokeStep(s, ticket)
      case Drop(source) => s.(alive := s.alive - {source})
  }

  ghost function Run(events: seq<Event>): State {
    if events == [] then Initial() else Step(Run(events[..|events| - 1]), events[|events| - 1])
  }

  // ---------------------------------------------------------------- invariant

  ghost predicate ShapeInv(
      next: Source, alive: set<Source>, cancelled: set<Source>, callbacks: map<Source, seq<Ticket>>, notes: seq<Note>) {
    && (forall n: Source :: n in callbacks <==> n < next)
    && alive <= callbacks.Keys && cancelled <= callbacks.Keys
    && (forall t :: 0 <= t < |notes| ==> NoteOk(notes[t], next))
    && (forall n :: n in cancelled ==> n in callbacks && callbacks[n] == [])
  }

  /** A link goes from an older source to a younger one. */
  predicate NoteOk(note: Note, next: Source) {
    note.source < next && (note.kind.Link? ==> note.source < note.kind.child < next)
  }

  ghost predicate KeptInv(callbacks: map<Source, seq<Ticket>>, notes: seq<Note>, places: seq<Place>) {
    && |places| == |notes|
    && (forall n :: n in callbacks ==> KeptBy(n, callbacks[n], notes, places))
    && (forall t :: 0 <= t < |places| && places[t] == Kept ==>
      notes[t].source in callbacks && t in callbacks[notes[t].source])
  }

  ghost predicate KeptBy(n: Source, tickets: seq<Ticket>, notes: seq<Note>, places: seq<Place>)
    requires |places| == |notes|
  {
    && (forall i :: 0 <= i < |tickets| ==>
      tickets[i] < |notes| && notes[tickets[i]].source == n && places[tickets[i]] == Kept)
    && (forall i, j :: 0 <= i < j < |tickets| ==> tickets[i] != tickets[j])
  }

  ghost predicate RunInvariant(places: seq<Place>, runs: multiset<Ticket>) {
    forall t: Ticket :: runs[t] == if t < |places| && places[t] == Invoked then 1 else 0
  }

  ghost predicate LinkInv(alive: set<Source>, cancelled: set<Source>, notes: seq<Note>, places: seq<Place>) {
    |places| == |notes| &&
    forall t :: 0 <= t < |notes| && places[t] == Invoked && notes[t].kind.Link? ==>
      notes[t].kind.child in cancelled || notes[t].kind.child !in alive
  }

  /** Callbacks are taken only by a cancellation of their source. */
  ghost predicate CauseInv(cancelled: set<Source>, notes: seq<Note>, places: seq<Place>) {
    |places| == |notes| &&
    forall t :: 0 <= t < |notes| && (places[t] == Taken || places[t] == Invoked) ==> notes[t].source in cancelled
  }

  ghost predicate Inv(s: State) {
    && ShapeInv(s.next, s.alive, s.cancelled, s.callbacks, s.notes)
    && KeptInv(s.callbacks, s.notes, s.places)
    && RunInvariant(s.places, s.runs)
    && LinkInv(s.alive, s.cancelled, s.notes, s.places)
    && CauseInv(s.cancelled, s.notes, s.places)
  }

  lemma InRange(s: State)
    requires Inv(s)
    ensures TicketsInRange(s)
  {
    forall n, i | n in s.callbacks && 0 <= i < |s.callbacks[n]|
      ensures s.callbacks[n][i] < |s.places|
    {
      assert KeptBy(n, s.callbacks[n], s.notes, s.places);
    }
  }

  lemma InitialInv()
    ensures Inv(Initial())
  {
  }

  lemma CreateInv(s: State)
    requires Inv(s)
    ensures Inv(CreateStep(s)) && s.next in CreateStep(s).callbacks
  {
    hide KeptBy;
    CreateKept(s.callbacks, s.notes, s.places, s.next);
  }

  lemma CreateKept(callbacks: map<Source, seq<Ticket>>, notes: seq<Note>, places: seq<Place>, n: Source)
    requires KeptInv(callbacks, notes, places) && n !in callbacks
    ensures KeptInv(callbacks[n := []], notes, places)
  {
    assert KeptBy(n, [], notes, places);
  }

  lemma RegisterInv(s: State, source: Source, kind: Kind)
    requires Inv(s) && source in s.callbacks && NoteOk(Note(source, kind), s.next)
    ensures Inv(RegisterStep(s, source, kind))
  {
    hide KeptInv;
    RegisterKept(s.callbacks, s.notes, s.places, Note(source, kind), source in s.cancelled);
  }

  lemma RegisterKept(callbacks: map<Source, seq<Ticket>>, notes: seq<Note>, places: seq<Place>, note: Note, late: bool)
    requires KeptInv(callbacks, notes, places) && note.source in callbacks
    ensures KeptInv(if late then callbacks else callbacks[note.source := callbacks[note.source] + [|notes|]],
      notes + [note], places + [if late then Taken else Kept])
  {
    var n, m := notes + [note], places + [if late then Taken else Kept];
    var after := if late then callbacks else callbacks[note.source := callbacks[note.source] + [|notes|]];
    forall k | k in after
      ensures KeptBy(k, after[k], n, m)
    {
      assert KeptBy(k, callbacks[k], notes, places);
    }
    forall t | 0 <= t < |m| && m[t] == Kept
      ensures n[t].source in after && t in after[n[t].source]
    {
      if t == |notes| {
        assert after[note.source][|callbacks[note.source]|] == t;
      }
    }
  }

  lemma {:induction false} WithoutKeeps(tickets: seq<Ticket>, t: Ticket)
    requires t in tickets && forall i, j :: 0 <= i < j < |tickets| ==> tickets[i] != tickets[j]
    ensures var rest := RemoveFirst(tickets, t);
      && (forall u :: u in rest <==> u in tickets && u != t)
      && (forall i, j :: 0 <= i < j < |rest| ==> rest[i] != rest[j])
  {
    if tickets[0] != t {
      assert t in tickets[1..];
      WithoutKeeps(tickets[1..], t);
      var rest := RemoveFirst(tickets[1..], t);
      assert tickets[0] !in tickets[1..];
      assert RemoveFirst(tickets, t) == [tickets[0]] + rest;
      assert forall u :: u in tickets <==> u == tickets[0] || u in tickets[1..];
    } else {
      assert tickets == [t] + tickets[1..];
    }
  }

  lemma UnregisterInv(s: State, ticket: Ticket)
    requires Inv(s)
    ensures Inv(UnregisterStep(s, ticket))
  {
    hide KeptInv, KeptBy, RemoveFirst;
    PlaceCount(s);
    if ticket < |s.notes| && s.notes[ticket].source in s.callbacks && ticket in s.callbacks[s.notes[ticket].source] {
      KeptPlace(s, ticket);
      UnregisterKept(s.callbacks, s.notes, s.places, ticket);
    }
  }

  lemma PlaceCount(s: State)
    requires Inv(s)
    ensures |s.places| == |s.notes|
  {
  }

  lemma KeptPlace(s: State, ticket: Ticket)
    requires Inv(s) && ticket < |s.notes| && s.notes[ticket].source in s.callbacks
    requires ticket in s.callbacks[s.notes[ticket].source]
    ensures s.places[ticket] == Kept && s.notes[ticket].source !in s.cancelled
  {
    assert KeptBy(s.notes[ticket].source, s.callbacks[s.notes[ticket].source], s.notes, s.places);
  }

  lemma UnregisterKept(callbacks: map<Source, seq<Ticket>>, notes: seq<Note>, places: seq<Place>, t: Ticket)
    requires KeptInv(callbacks, notes, places) && t < |notes| && notes[t].source in callbacks
    requires t in callbacks[notes[t].source]
    ensures KeptInv(callbacks[notes[t].source := RemoveFirst(callbacks[notes[t].source], t)], notes,
      places[t := Unregistered])
  {
    var source := notes[t].source;
    var rest, m := RemoveFirst(callbacks[source], t), places[t := Unregistered];
    assert KeptBy(source, callbacks[source], notes, places);
    WithoutKeeps(callbacks[source], t);
    var after := callbacks[source := rest];
    forall k | k in after
      ensures KeptBy(k, after[k], notes, m)
    {
      assert KeptBy(k, callbacks[k], notes, places);
      forall i | 0 <= i < |after[k]|
        ensures after[k][i] < |notes| && notes[after[k][i]].source == k && m[after[k][i]] == Kept
      {
        assert after[k][i] in after[k];
        assert after[k][i] in callbacks[k];
      }
    }
  }

  lemma CancelKept(callbacks: map<Source, seq<Ticket>>, notes: seq<Note>, places: seq<Place>, source: Source)
    requires KeptInv(callbacks, notes, places) && source in callbacks
    ensures forall i :: 0 <= i < |callbacks[source]| ==>
      callbacks[source][i] < |places| && places[callbacks[source][i]] == Kept
    ensures forall i :: 0 <= i < |callbacks[source]| ==> notes[callbacks[source][i]].source == source
    ensures KeptInv(callbacks[source := []], notes, Take(places, callbacks[source]))
  {
    assert KeptBy(source, callbacks[source], notes, places);
    var after, m := callbacks[source := []], Take(places, callbacks[source]);
    forall k | k in after
      ensures KeptBy(k, after[k], notes, m)
    {
      assert KeptBy(k, callbacks[k], notes, places);
    }
  }

  lemma CancelInv(s: State, source: Source)
    requires Inv(s)
    ensures TicketsInRange(s) && Inv(CancelStep(s, source)) && TicketsInRange(CancelStep(s, source))
  {
    InRange(s);
    if source in s.callbacks && source !in s.cancelled {
      CancelOpen(s, source);
    }
    InRange(CancelStep(s, source));
  }

  lemma CancelOpen(s: State, source: Source)
    requires Inv(s) && TicketsInRange(s) && source in s.callbacks && source !in s.cancelled
    ensures Inv(CancelStep(s, source))
  {
    hide KeptInv, KeptBy;
    PlaceCount(s);
    CancelKept(s.callbacks, s.notes, s.places, source);
  }

  lemma InvokeInv(s: State, ticket: Ticket)
    requires Inv(s)
    ensures TicketsInRange(s) && Inv(InvokeStep(s, ticket))
  {
    hide KeptInv, CancelStep, ShapeInv;
    InRange(s);
    PlaceCount(s);
    if ticket < |s.places| && s.places[ticket] == Taken {
      var kind := s.notes[ticket].kind;
      var t := if kind.Link? && kind.child in s.alive then CancelStep(s, kind.child) else s;
      if kind.Link? && kind.child in s.alive {
        CancelInv(s, kind.child);
        CancelReaches(s, kind.child, ticket);
      }
      InvokeKept(t.callbacks, t.notes, t.places, ticket);
    }
  }

  lemma CancelReaches(s: State, source: Source, ticket: Ticket)
    requires Inv(s) && TicketsInRange(s) && source in s.alive && ticket < |s.places| && s.places[ticket] == Taken
    ensures var t := CancelStep(s, source);
      && source in t.cancelled && t.alive == s.alive && t.notes == s.notes && t.runs == s.runs && t.next == s.next
      && |t.places| == |s.places| && t.places[ticket] == Taken && s.cancelled <= t.cancelled
  {
  }

  lemma InvokeKept(callbacks: map<Source, seq<Ticket>>, notes: seq<Note>, places: seq<Place>, t: Ticket)
    requires KeptInv(callbacks, notes, places) && t < |places| && places[t] == Taken
    ensures KeptInv(callbacks, notes, places[t := Invoked])
  {
    forall k | k in callbacks
      ensures KeptBy(k, callbacks[k], notes, places[t := Invoked])
    {
      assert KeptBy(k, callbacks[k], notes, places);
    }
  }

  lemma LinkedInv(s: State, parent: Source)
    requires Inv(s) && parent in s.callbacks
    ensures Inv(RegisterStep(CreateStep(s), parent, Link(s.next)))
  {
    hide KeptInv, RunInvariant, LinkInv;
    CreateInv(s);
    RegisterInv(CreateStep(s), parent, Link(s.next));
  }

  lemma StepInv(s: State, e: Event)
    requires Inv(s)
    ensures Inv(Step(s, e))
  {
    hide KeptInv, RunInvariant, CreateStep, RegisterStep, UnregisterStep, CancelStep, InvokeStep;
    InRange(s);
    match e
    case Create => CreateInv(s);
    case CreateLinked(parent) => if parent in s.callbacks { LinkedInv(s, parent); }
    case Register(source) => if source in s.callbacks { RegisterInv(s, source, User); }
    case Unregister(ticket) => UnregisterInv(s, ticket);
    case Cancel(source) => CancelInv(s, source);
    case Invoke(ticket) => InvokeInv(s, ticket);
    case Drop(source) =>
  }

  lemma {:induction false} RunInv(events: seq<Event>)
    ensures Inv(Run(events))
  {
    hide Inv, Step;
    if events == [] {
      InitialInv();
    } else {
      RunInv(events[..|events| - 1]);
      StepInv(Run(events[..|events| - 1]), events[|events| - 1]);
    }
  }
}
