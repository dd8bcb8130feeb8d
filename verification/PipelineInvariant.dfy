/** What every step of the pipeline keeps, one part of the state at a time. */
module PipelineInvariant {
  import opened Basics
  import opened Commands
  import opened PipelineHistory
  import opened PipelineModel

  // ---------------------------------------------------------------- history

  /** The records are the listed executions and the orphaned ones, and the finished ones stay
      within the limit unless they are all orphaned. */
  ghost predicate HistoryInv(h: History, live: set<ExecutionId>, orphaned: set<ExecutionId>, limit: nat) {
    Covered(h, live, orphaned) && (|h.records.Keys - live| <= limit || h.records.Keys - live <= orphaned)
  }

  ghost predicate Covered(h: History, live: set<ExecutionId>, orphaned: set<ExecutionId>) {
    WellFormed(h, live) && h.records.Keys == Listed(h.order) + orphaned && orphaned !! Listed(h.order)
  }

  lemma PruneCovered(h: History, live: set<ExecutionId>, orphaned: set<ExecutionId>, limit: nat)
    requires Covered(h, live, orphaned)
    ensures HistoryInv(Prune(h, live, limit), live, orphaned, limit)
  {
    hide Prune, WellFormed, Listed, Evicted;
    PruneKeeps(h, live, limit);
    EvictedListed(h, live, limit);
    var p := Prune(h, live, limit);
    KeysLess(h.records, p.records, Evicted(h, live, limit));
    CoveredSets(h.records.Keys, Listed(h.order), orphaned, Evicted(h, live, limit), live);
    RecordsSize(p.records, live);
  }

  lemma KeysLess(records: map<ExecutionId, Status>, fewer: map<ExecutionId, Status>, gone: set<ExecutionId>)
    requires fewer == records - gone
    ensures fewer.Keys == records.Keys - gone
  {
  }

  lemma CoveredSets(
      keys: set<ExecutionId>, listed: set<ExecutionId>, orphaned: set<ExecutionId>, gone: set<ExecutionId>,
      live: set<ExecutionId>)
    requires keys == listed + orphaned && orphaned !! listed && gone <= listed
    ensures keys - gone == (listed - gone) + orphaned && orphaned !! (listed - gone)
    ensures listed - gone <= live ==> keys - gone - live <= orphaned
  {
  }

  lemma RecordsSize(records: map<ExecutionId, Status>, live: set<ExecutionId>)
    ensures |records.Keys - live| <= |records|
  {
    SubsetSize(records.Keys - live, records.Keys);
    assert |records.Keys| == |records|;
  }

  lemma EvictedListed(h: History, live: set<ExecutionId>, limit: nat)
    ensures Evicted(h, live, limit) <= Listed(h.order)
  {
  }

  lemma SubsetSize<T>(a: set<T>, b: set<T>)
    requires a <= b
    ensures |a| <= |b|
  {
    assert b == a + (b - a);
  }

  lemma EnterListed(order: seq<ExecutionId>, id: ExecutionId)
    ensures Listed(order + [id]) == Listed(order) + {id}
    ensures NoDuplicates(order) && id !in Listed(order) ==> NoDuplicates(order + [id])
  {
  }

  lemma EnterCovered(h: History, live: set<ExecutionId>, orphaned: set<ExecutionId>, id: ExecutionId, status: Status)
    requires Covered(h, live, orphaned) && id !in h.records
    ensures Covered(History(h.records[id := status], h.order + [id]), live, orphaned)
    ensures Covered(History(h.records[id := status], h.order + [id]), live + {id}, orphaned)
  {
    hide Listed, NoDuplicates;
    EnterListed(h.order, id);
  }

  lemma HistoryAccept(h: History, live: set<ExecutionId>, orphaned: set<ExecutionId>, limit: nat, id: ExecutionId)
    requires HistoryInv(h, live, orphaned, limit) && id !in h.records
    ensures HistoryInv(History(h.records[id := Queued], h.order + [id]), live + {id}, orphaned, limit)
  {
    hide Covered;
    EnterCovered(h, live, orphaned, id, Queued);
    var records := h.records[id := Queued];
    assert records.Keys - (live + {id}) == h.records.Keys - live - {id};
    SubsetSize(h.records.Keys - live - {id}, h.records.Keys - live);
  }

  lemma HistoryRefuse(
      h: History, live: set<ExecutionId>, orphaned: set<ExecutionId>, limit: nat, id: ExecutionId, status: Status)
    requires HistoryInv(h, live, orphaned, limit) && id !in h.records
    ensures HistoryInv(Prune(History(h.records[id := status], h.order + [id]), live, limit), live, orphaned, limit)
  {
    hide Covered, Prune;
    EnterCovered(h, live, orphaned, id, status);
    PruneCovered(History(h.records[id := status], h.order + [id]), live, orphaned, limit);
  }

  lemma HistoryFinish(
      h: History, live: set<ExecutionId>, orphaned: set<ExecutionId>, limit: nat, id: ExecutionId, status: Status)
    requires HistoryInv(h, live, orphaned, limit)
    ensures HistoryInv(Prune(History(h.records[id := status], h.order), live - {id}, limit), live - {id},
              if id in h.records then orphaned else orphaned + {id}, limit)
  {
    hide Listed, NoDuplicates, Prune;
    PruneCovered(History(h.records[id := status], h.order), live - {id},
      if id in h.records then orphaned else orphaned + {id}, limit);
  }

  lemma HistoryTake(h: History, live: set<ExecutionId>, orphaned: set<ExecutionId>, limit: nat, id: ExecutionId)
    requires HistoryInv(h, live, orphaned, limit) && id in live
    ensures HistoryInv(h.(records := h.records[id := Running]), live, orphaned, limit)
  {
    hide Listed, NoDuplicates;
    assert h.records[id := Running].Keys == h.records.Keys;
  }

  // ---------------------------------------------------------------- places of outstanding executions

  ghost predicate QueueInv(queue: seq<Entry>, executions: map<ExecutionId, Entry>, running: set<ExecutionId>) {
    && (forall i :: 0 <= i < |queue| ==> Holds(executions, queue[i]) && queue[i].id !in running)
    && (forall i, j :: 0 <= i < j < |queue| ==> queue[i].id != queue[j].id)
  }

  predicate Holds(executions: map<ExecutionId, Entry>, entry: Entry) {
    entry.id in executions && executions[entry.id] == entry
  }

  ghost predicate DrainedInv(
      drained: seq<Entry>, executions: map<ExecutionId, Entry>, running: set<ExecutionId>,
      outcomes: map<ExecutionId, Status>) {
    && (forall i :: 0 <= i < |drained| ==> drained[i].id !in running && DrainedEntry(drained[i], executions, outcomes))
    && (forall i, j :: 0 <= i < j < |drained| ==>
      drained[i].id != drained[j].id && drained[i].command != drained[j].command)
  }

  /** A drained entry is outstanding, or a Cancel has completed it. */
  ghost predicate DrainedEntry(entry: Entry, executions: map<ExecutionId, Entry>, outcomes: map<ExecutionId, Status>) {
    if entry.id in executions then executions[entry.id] == entry
    else entry.id in outcomes && outcomes[entry.id] == Cancelled
  }

  ghost predicate Placed(
      id: ExecutionId, queue: seq<Entry>, executions: map<ExecutionId, Entry>, running: set<ExecutionId>,
      drained: seq<Entry>)
    requires id in executions
  {
    executions[id].id == id && (id in running || executions[id] in queue || executions[id] in drained)
  }

  ghost predicate PlacesInv(
      queue: seq<Entry>, executions: map<ExecutionId, Entry>, running: set<ExecutionId>, drained: seq<Entry>) {
    running <= executions.Keys && forall id :: id in executions ==> Placed(id, queue, executions, running, drained)
  }

  ghost predicate PhaseInv(s: State) {
    && (s.phase == Open ==> s.drained == [])
    && (s.phase != Open ==> s.queue == [])
    && (s.phase == Closed ==> s.drained == [] && s.running == {} && s.reporting == map[] && s.settling.None?)
    && s.runningCount == |s.running| <= s.options.workerCount
    && |s.queue| <= s.options.maximumQueueSize
  }

  // ---------------------------------------------------------------- commands

  ghost predicate CommandInv(
      commands: map<CommandId, ExecutionId>, executions: map<ExecutionId, Entry>, drained: seq<Entry>) {
    && (forall id :: id in executions ==> executions[id].command in commands && commands[executions[id].command] == id)
    && (forall c :: c in commands ==> commands[c] in executions && executions[commands[c]].command == c)
    && (forall i :: 0 <= i < |drained| && drained[i].command in commands ==>
      commands[drained[i].command] == drained[i].id)
  }

  lemma CommandFinish(
      commands: map<CommandId, ExecutionId>, executions: map<ExecutionId, Entry>, drained: seq<Entry>, entry: Entry)
    requires CommandInv(commands, executions, drained)
    requires entry.id in executions ==> executions[entry.id] == entry
    requires entry.command in commands ==> commands[entry.command] == entry.id
    ensures CommandInv(commands - {entry.command}, executions - {entry.id}, drained)
  {
  }

  lemma CommandAccept(commands: map<CommandId, ExecutionId>, executions: map<ExecutionId, Entry>, entry: Entry)
    requires CommandInv(commands, executions, []) && entry.command !in commands && entry.id !in executions
    ensures CommandInv(commands[entry.command := entry.id], executions[entry.id := entry], [])
  {
  }

  // ---------------------------------------------------------------- identifiers, records and outcomes

  ghost function Ids(next: ExecutionId): set<ExecutionId> {
    if next <= 1 then {} else Ids(next - 1) + {next - 1}
  }

  lemma {:induction false} IdsGiven(next: ExecutionId, id: ExecutionId)
    ensures id in Ids(next) <==> 1 <= id < next
  {
    if next > 1 {
      IdsGiven(next - 1, id);
    }
  }

  /** Every identifier given out is that of a submission under way, an outstanding execution, or
      a finished one: exactly one of them. */
  ghost predicate IdInv(
      next: ExecutionId, submissions: set<ExecutionId>, live: set<ExecutionId>, answered: set<ExecutionId>) {
    && next >= 1
    && submissions + live + answered == Ids(next)
    && submissions !! live && submissions !! answered && live !! answered
  }

  lemma IdsNext(next: ExecutionId)
    requires next >= 1
    ensures Ids(next + 1) == Ids(next) + {next} && next !in Ids(next)
  {
    IdsGiven(next, next);
  }

  lemma IdAllocate(next: ExecutionId, submissions: set<ExecutionId>, live: set<ExecutionId>, answered: set<ExecutionId>)
    requires IdInv(next, submissions, live, answered)
    ensures IdInv(next + 1, submissions + {next}, live, answered)
  {
    hide Ids;
    IdsNext(next);
  }

  /** A record says what stands: queued or running while outstanding, the answer afterwards. */
  ghost predicate RecordInv(
      records: map<ExecutionId, Status>, live: set<ExecutionId>, running: set<ExecutionId>,
      outcomes: map<ExecutionId, Status>) {
    && (forall id :: id in records ==> RecordOk(id, records[id], live, running, outcomes))
    && (forall id :: id in outcomes ==> IsTerminal(outcomes[id]))
  }

  ghost predicate RecordOk(
      id: ExecutionId, status: Status, live: set<ExecutionId>, running: set<ExecutionId>,
      outcomes: map<ExecutionId, Status>) {
    if id in live then status == (if id in running then Running else Queued)
    else id in outcomes && outcomes[id] == status
  }

  lemma RecordFinish(
      h: History, live: set<ExecutionId>, limit: nat, running: set<ExecutionId>, outcomes: map<ExecutionId, Status>,
      id: ExecutionId, status: Status)
    requires RecordInv(h.records, live, running, outcomes) && WellFormed(h, live)
    requires IsTerminal(status) && (id in outcomes ==> outcomes[id] == status)
    ensures RecordInv(Prune(History(h.records[id := status], h.order), live - {id}, limit).records, live - {id},
      running - {id}, Fulfil(outcomes, id, status))
  {
    hide Prune, RecordInv, IsTerminal, NoDuplicates, Listed, Fulfil;
    RecordUpdate(h.records, live, running, outcomes, id, status);
    RecordPrune(History(h.records[id := status], h.order), live - {id}, limit, running - {id},
      Fulfil(outcomes, id, status));
  }

  lemma RecordUpdate(
      records: map<ExecutionId, Status>, live: set<ExecutionId>, running: set<ExecutionId>,
      outcomes: map<ExecutionId, Status>, id: ExecutionId, status: Status)
    requires RecordInv(records, live, running, outcomes) && IsTerminal(status)
    requires (id in outcomes ==> outcomes[id] == status)
    ensures RecordInv(records[id := status], live - {id}, running - {id}, Fulfil(outcomes, id, status))
  {
    hide IsTerminal;
  }

  lemma RecordRefuse(
      h: History, live: set<ExecutionId>, limit: nat, running: set<ExecutionId>, outcomes: map<ExecutionId, Status>,
      id: ExecutionId, status: Status)
    requires RecordInv(h.records, live, running, outcomes) && WellFormed(h, live) && running <= live
    requires IsTerminal(status) && id !in outcomes && id !in live && id !in h.records
    ensures RecordInv(Prune(History(h.records[id := status], h.order + [id]), live, limit).records, live, running,
      Fulfil(outcomes, id, status))
  {
    hide Prune, RecordInv, IsTerminal, NoDuplicates, Listed, Fulfil;
    RecordUpdate(h.records, live, running, outcomes, id, status);
    assert live - {id} == live && running - {id} == running;
    EnterListed(h.order, id);
    RecordPrune(History(h.records[id := status], h.order + [id]), live, limit, running, Fulfil(outcomes, id, status));
  }

  lemma RecordPrune(
      h: History, live: set<ExecutionId>, limit: nat, running: set<ExecutionId>, outcomes: map<ExecutionId, Status>)
    requires RecordInv(h.records, live, running, outcomes) && WellFormed(h, live)
    ensures RecordInv(Prune(h, live, limit).records, live, running, outcomes)
  {
    hide Prune, WellFormed, IsTerminal, Evicted, Listed, RecordOk;
    PruneKeeps(h, live, limit);
  }

  // ---------------------------------------------------------------- promises

  /** A finished execution's promise is set to its outcome, or somebody is about to set it. */
  ghost predicate PromiseInv(
      outcomes: map<ExecutionId, Status>, promises: map<ExecutionId, Status>, answering: map<ExecutionId, Status>,
      reporting: map<ExecutionId, Status>, settling: Option<ExecutionId>) {
    && Agrees(promises, outcomes) && Agrees(answering, outcomes) && Agrees(reporting, outcomes)
    && (settling.Some? ==> settling.value in outcomes && outcomes[settling.value] == Cancelled)
    && forall id :: id in outcomes ==> id in promises || id in answering || id in reporting || settling == Some(id)
  }

  ghost predicate Agrees(some: map<ExecutionId, Status>, outcomes: map<ExecutionId, Status>) {
    forall id :: id in some ==> id in outcomes && some[id] == outcomes[id]
  }

  // ---------------------------------------------------------------- accounts

  function Total(m: Metrics): nat {
    m.completed + m.cancelled + m.timedOut + m.failed + m.rejected
  }

  /** Entries of the drained queue that somebody else has completed. */
  function Gone(drained: seq<Entry>, live: set<ExecutionId>): nat {
    if drained == [] then 0 else (if drained[0].id in live then 0 else 1) + Gone(drained[1..], live)
  }

  /** Everything accepted or refused was counted once, but for the doubled completions, and each
      cancellation in the window is doubled or is going to be. */
  ghost predicate AccountInv(
      m: Metrics, live: set<ExecutionId>, drained: seq<Entry>, refused: nat, doubled: nat, windowCancels: nat) {
    Total(m) + |live| == m.accepted + refused + doubled && windowCancels == doubled + Gone(drained, live)
  }

  predicate Distinct(drained: seq<Entry>) {
    forall i, j :: 0 <= i < j < |drained| ==> drained[i].id != drained[j].id
  }

  lemma {:induction false} GoneWithout(drained: seq<Entry>, live: set<ExecutionId>, entry: Entry)
    requires Distinct(drained) && entry.id in live
    requires forall i :: 0 <= i < |drained| && drained[i].id == entry.id ==> drained[i] == entry
    ensures Gone(drained, live - {entry.id}) == Gone(drained, live) + (if entry in drained then 1 else 0)
  {
    if drained != [] {
      GoneWithout(drained[1..], live, entry);
      if drained[0] == entry {
        assert entry !in drained[1..];
      } else {
        assert entry in drained <==> entry in drained[1..];
      }
    }
  }

  lemma TallyTotals(m: Metrics, status: Status)
    ensures Total(Tally(m, status)) == Total(m) + 1 && Tally(m, status).accepted == m.accepted
  {
  }

  // ---------------------------------------------------------------- queue order

  ghost predicate OrderInv(queue: seq<Entry>, nextSequence: nat) {
    && (forall i, j :: 0 <= i < j < |queue| ==> queue[i].sequence < queue[j].sequence)
    && (forall i :: 0 <= i < |queue| ==> queue[i].sequence < nextSequence)
  }

  // ---------------------------------------------------------------- all of it

  ghost predicate Inv(s: State) {
    && HistoryInv(s.history, s.executions.Keys, s.orphaned, s.options.maximumHistorySize)
    && QueueInv(s.queue, s.executions, s.running)
    && DrainedInv(s.drained, s.executions, s.running, s.outcomes)
    && PlacesInv(s.queue, s.executions, s.running, s.drained)
    && PhaseInv(s)
    && CommandInv(s.commands, s.executions, s.drained)
    && IdInv(s.nextId, s.submissions.Keys, s.executions.Keys, s.outcomes.Keys)
    && RecordInv(s.history.records, s.executions.Keys, s.running, s.outcomes)
    && AccountInv(s.metrics, s.executions.Keys, s.drained, s.refused, s.doubled, s.windowCancels)
    && OrderInv(s.queue, s.nextSequence)
    && RefusalInv(s.submissions)
    && PromiseInv(s.outcomes, s.promises, s.answering, s.reporting, s.settling)
  }

  ghost predicate RefusalInv(submissions: map<ExecutionId, Submission>) {
    forall id :: id in submissions && submissions[id].Refusing? ==> IsTerminal(submissions[id].status)
  }

  lemma InitialInv(options: Options)
    ensures Inv(Initial(options))
  {
    hide HistoryInv, QueueInv, DrainedInv, PlacesInv, CommandInv, IdInv, RecordInv, PromiseInv, AccountInv, OrderInv,
      RefusalInv;
    var s := Initial(options);
    assert s.executions.Keys == {} && s.submissions.Keys == {} && s.outcomes.Keys == {};
    NoHistory(s.history, s.executions.Keys, s.orphaned, options.maximumHistorySize);
    NoPlaces(s.queue, s.executions, s.running, s.drained, s.commands);
    NoIds(s.submissions, s.executions.Keys, s.running, s.outcomes);
    NoAccounts(s.metrics, s.executions.Keys, s.drained);
  }

  lemma NoHistory(h: History, live: set<ExecutionId>, orphaned: set<ExecutionId>, limit: nat)
    requires h == History(map[], []) && live == {} && orphaned == {}
    ensures HistoryInv(h, live, orphaned, limit)
  {
  }

  lemma NoPlaces(queue: seq<Entry>, executions: map<ExecutionId, Entry>, running: set<ExecutionId>, drained: seq<Entry>,
      commands: map<CommandId, ExecutionId>)
    requires queue == [] && executions == map[] && running == {} && drained == [] && commands == map[]
    ensures QueueInv(queue, executions, running) && DrainedInv(drained, executions, running, map[])
    ensures PlacesInv(queue, executions, running, drained) && CommandInv(commands, executions, drained)
    ensures OrderInv(queue, 0)
  {
  }

  lemma NoIds(
      submissions: map<ExecutionId, Submission>, live: set<ExecutionId>, running: set<ExecutionId>,
      outcomes: map<ExecutionId, Status>)
    requires submissions == map[] && live == {} && running == {} && outcomes == map[]
    ensures IdInv(1, submissions.Keys, live, outcomes.Keys) && RecordInv(map[], live, running, outcomes)
    ensures RefusalInv(submissions)
    ensures PromiseInv(outcomes, map[], map[], map[], None)
  {
  }

  lemma NoAccounts(m: Metrics, live: set<ExecutionId>, drained: seq<Entry>)
    requires m == Metrics(0, 0, 0, 0, 0, 0, 0) && live == {} && drained == []
    ensures AccountInv(m, live, drained, 0, 0, 0)
  {
  }
}
