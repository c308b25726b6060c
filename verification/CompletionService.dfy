/** The feed service (src/LocalGooseDialogueCompletionFeed.cpp): it reads the thread journals and materialises one
    completion event per finished revision. */
module CompletionServiceModel {
  import opened Base
  import opened Work
  import opened DialogueTasks
  import opened DialogueThread
  import opened DialogueServerModel
  import opened CompletionFeedModel

  /** Every event is the canonical completion of the journal entry of its thread and revision. */
  ghost predicate Materialises(e: Event, journals: map<string, seq<Head>>, tasks: TaskStore) {
    && e.alias in journals && EntryAt(journals[e.alias], e.revision).Some?
    && var h := EntryAt(journals[e.alias], e.revision).value;
    && h.task == e.task && h.root == e.root && SuccessFor(tasks, h)
  }

  /** The first event of a thread belongs to the first entry of its journal. */
  ghost predicate StartsWithJournal(events: seq<Event>, alias: string, journals: map<string, seq<Head>>) {
    && alias in journals && journals[alias] != []
    && OfThread(events, alias) != [] && OfThread(events, alias)[0].revision == journals[alias][0].revision
  }

  /** The feed is derived from the journals: from their first entries on, and never ahead of them. */
  ghost predicate FeedMatches(events: seq<Event>, next: map<string, U64>, journals: map<string, seq<Head>>, tasks: TaskStore) {
    && (forall k :: 0 <= k < |events| ==> Materialises(events[k], journals, tasks))
    && (forall a :: a in next ==> StartsWithJournal(events, a, journals))
  }

  /** The journals only grow and Tasks only evolve, so a materialised event stays true. */
  lemma FeedStaysMatched(events: seq<Event>, next: map<string, U64>, journals: map<string, seq<Head>>, tasks: TaskStore,
                         journals': map<string, seq<Head>>, tasks': TaskStore)
    requires FeedMatches(events, next, journals, tasks) && Evolves(tasks, tasks')
    requires forall a :: a in journals ==> a in journals' && journals[a] <= journals'[a]
    ensures FeedMatches(events, next, journals', tasks')
  {
    forall k | 0 <= k < |events|
      ensures Materialises(events[k], journals', tasks')
    {
      assert Materialises(events[k], journals, tasks);
      var h := EntryAt(journals[events[k].alias], events[k].revision).value;
      SucceededIsFrozen(tasks, tasks', h.task);
    }
    forall a | a in next
      ensures StartsWithJournal(events, a, journals')
    {
      assert StartsWithJournal(events, a, journals) && journals[a] <= journals'[a];
    }
  }

  // --- What one reconcile is meant to do ------------------------------------------------------------------------

  /** What one reconcile reads: the journal of a thread, the Task table and the clock. */
  datatype Source = Source(alias: string, journal: seq<Head>, tasks: TaskStore, clock: I64)

  /** The durable half of the feed that a reconcile writes. */
  datatype FeedState = FeedState(events: seq<Event>, high: U64, next: map<string, U64>)

  /** How the feed's sidecar behaves: the number of writes that succeed, and whether the first one that fails is
      committed all the same. */
  datatype Sidecar = Sidecar(writes: nat, lost: bool)

  function FaultAt(x: Sidecar, n: nat): Fault {
    if n < x.writes then Healthy else if x.lost then FailsAfterCommit else FailsBeforeCommit
  }

  /** What the Task of a journal entry makes of it. */
  datatype Entry = NoTask | Unfinished | NotCanonical | OtherRoot | Completed(event: Event)

  function EntryOf(s: Source, h: Head): (r: Entry)
    ensures r.Completed? ==> Find(s.tasks, h.task).Some? && r.event.root == h.root
    ensures r.Completed? ==> MakeEvent(s.alias, h.revision, Find(s.tasks, h.task).value, s.clock) == Some(r.event)
  {
    var t := Find(s.tasks, h.task);
    if t.None? then NoTask
    else
      var e := MakeEvent(s.alias, h.revision, t.value, s.clock);
      if e.None? then (if Terminal(t.value.status) then NotCanonical else Unfinished)
      else if e.value.root != h.root then OtherRoot
      else Completed(e.value)
  }

  /** Entry number `k` of the journal can be materialised now. */
  predicate Ready(s: Source, k: nat) {
    k < |s.journal| && EntryOf(s, s.journal[k]).Completed?
  }

  /** How many entries from number `k` on are ready without interruption, up to a limit. */
  function Reach(s: Source, k: nat, limit: nat): (n: nat)
    ensures n <= limit
    decreases limit
  {
    if limit == 0 || !Ready(s, k) then 0 else 1 + Reach(s, k + 1, limit - 1)
  }

  function Min(a: nat, b: nat): nat {
    if a < b then a else b
  }

  /** How many sequence numbers are left. */
  function Room(f: FeedState): nat {
    if f.high < INT64_MAX then INT64_MAX - f.high else 0
  }

  datatype Outcome = CaughtUp | Reconciled | BlockedFeed | PendingHead

  /** What one turn of the loop answers for entry number `k`. */
  function NextOutcome(s: Source, k: nat, healthy: bool): Outcome
    requires k < |s.journal|
  {
    match EntryOf(s, s.journal[k])
    case Unfinished => PendingHead
    case Completed(_) => if healthy then Reconciled else BlockedFeed
    case _ => BlockedFeed
  }

  /** What a whole reconcile answers when it stopped at entry number `k`, with `left` entries of its limit left. */
  function StopOutcome(s: Source, k: nat, left: nat, healthy: bool): Outcome {
    if k >= |s.journal| || left == 0 then Reconciled else NextOutcome(s, k, healthy)
  }

  /** The number of the first entry the feed has not materialised. */
  function Position(s: Source, next: map<string, U64>): int {
    if s.alias in next && s.journal != [] then next[s.alias] - s.journal[0].revision else 0
  }

  /** The log grew by `n` events of that thread, which brought its cursor from entry number `from` to `from + n`. */
  ghost predicate Grown(s: Source, from: nat, f: FeedState, f': FeedState, n: nat) {
    && s.journal != []
    && f.events <= f'.events && |f'.events| == |f.events| + n && f'.high == f.high + n
    && (forall i :: |f.events| <= i < |f'.events| ==> f'.events[i].alias == s.alias)
    && (n == 0 ==> f'.next == f.next)
    && (n > 0 ==>
          && s.alias in f'.next && f'.next[s.alias] == s.journal[0].revision + from + n
          && f'.next == f.next[s.alias := f'.next[s.alias]])
  }

  /** What one turn does to the feed: one event, unless the entry is not ready, the numbers have run out or the write fails. */
  ghost predicate Turned(s: Source, k: nat, fault: Fault, f: FeedState, f': FeedState, outcome: Outcome) {
    && k < |s.journal|
    && Grown(s, k, f, f', if Ready(s, k) && Room(f) > 0 && !fault.FailsBeforeCommit? then 1 else 0)
    && outcome == NextOutcome(s, k, fault.Healthy? && Room(f) > 0)
  }

  /** What a whole reconcile does: it materialises what is ready, up to its limit, the room left and the first failing
      write, which may have added one more event than it counts. */
  ghost predicate Moved(s: Source, from: nat, limit: nat, x: Sidecar, f: FeedState, f': FeedState, materialized: nat, outcome: Outcome) {
    var reach := Min(Reach(s, from, limit), Room(f));
    && materialized == Min(reach, x.writes)
    && Grown(s, from, f, f', Min(reach, x.writes + if x.lost then 1 else 0))
    && outcome == StopOutcome(s, from + materialized, limit - materialized, materialized < x.writes && materialized < Room(f))
  }

  /** The loop has taken `n` turns, all of them successful. */
  ghost predicate OnTheWay(s: Source, from: nat, limit: nat, x: Sidecar, f: FeedState, f': FeedState, n: nat) {
    && n <= limit && n <= x.writes && n <= Room(f)
    && Reach(s, from, limit) == n + Reach(s, from + n, limit - n)
    && Grown(s, from, f, f', n)
  }

  lemma TurnGoesOn(s: Source, from: nat, limit: nat, x: Sidecar, f: FeedState, f': FeedState, n: nat, f'': FeedState)
    requires OnTheWay(s, from, limit, x, f, f', n) && n < limit
    requires Turned(s, from + n, FaultAt(x, n), f', f'', Reconciled)
    ensures OnTheWay(s, from, limit, x, f, f'', n + 1)
  {
    hide EntryOf;
  }

  lemma TurnStops(s: Source, from: nat, limit: nat, x: Sidecar, f: FeedState, f': FeedState, n: nat, f'': FeedState, outcome: Outcome)
    requires OnTheWay(s, from, limit, x, f, f', n) && n < limit && outcome != Reconciled
    requires Turned(s, from + n, FaultAt(x, n), f', f'', outcome)
    ensures Moved(s, from, limit, x, f, f'', n, outcome)
  {
    hide EntryOf;
  }

  lemma LoopEnds(s: Source, from: nat, limit: nat, x: Sidecar, f: FeedState, f': FeedState, n: nat)
    requires OnTheWay(s, from, limit, x, f, f', n) && (n == limit || from + n == |s.journal|)
    ensures Moved(s, from, limit, x, f, f', n, Reconciled)
  {
    hide EntryOf;
    assert Reach(s, from + n, limit - n) == 0;
  }

  class CompletionService {
    const server: DialogueServer
    const feed: CompletionFeed

    ghost predicate Valid()
      reads this, server, server.threads, feed
    {
      && server.Valid() && feed.Valid()
      && FeedMatches(feed.events, feed.next, server.threads.journals, server.tasks)
    }

    constructor (server: DialogueServer)
      requires server.Valid()
      ensures Valid() && fresh(feed) && this.server == server
    {
      this.server := server;
      feed := new CompletionFeed();
    }

    ghost function SourceOf(alias: string, clock: I64): Source
      requires alias in server.threads.journals
      reads this, server, server.threads
    {
      Source(alias, server.threads.journals[alias], server.tasks, clock)
    }

    ghost function State(): FeedState
      reads this, feed
    {
      FeedState(feed.events, feed.high, feed.next)
    }

    /** `reconcile`: the thread's cursor moves over every entry that is ready, one transaction each. */
    method Reconcile(alias: string, limit: nat, clock: I64, x: Sidecar) returns (materialized: nat, outcome: Outcome)
      requires Valid()
      modifies feed`events, feed`high, feed`next
      ensures Valid()
      ensures if !(SafeIdentifier(alias, MAX_ID_BYTES) && 1 <= limit <= 1024 && alias in server.threads.journals) then
          outcome == BlockedFeed && materialized == 0 && State() == old(State())
        else
          var s := SourceOf(alias, clock);
          var from := Position(s, old(feed.next));
          && 0 <= from <= |s.journal|
          && if from == |s.journal| then outcome == CaughtUp && materialized == 0 && State() == old(State())
             else Moved(s, from, limit, x, old(State()), State(), materialized, outcome)
    {
      hide FeedMatches, ThreadsLinear, ThreadsContiguous, Ordered, AcksArePrefix, Moved, JournalOf, ValidHead, SafeIdentifier, HistoryFrom, Position;
      hide BoundStarts;
      if !SafeIdentifier(alias, MAX_ID_BYTES) || limit == 0 || limit > 1024 {
        return 0, BlockedFeed;
      }
      if alias !in server.threads.journals {
        return 0, BlockedFeed;
      }
      var journal := server.threads.journals[alias];
      var first := if alias in feed.next then feed.next[alias] else 0;
      CursorWithinJournal(feed.events, feed.next, server.threads.journals, server.tasks, alias);
      HistoryAtCursor(SourceOf(alias, clock), feed.next, limit);
      var history := HistoryFrom(journal, first, limit);
      if history == [] {
        return 0, CaughtUp;
      }
      materialized, outcome := MaterialiseAll(alias, history, Position(SourceOf(alias, clock), feed.next), limit, clock, x);
    }

    /** The loop over the entries that were read. */
    method MaterialiseAll(alias: string, history: seq<Head>, ghost from: nat, ghost limit: nat, clock: I64, x: Sidecar)
      returns (materialized: nat, outcome: Outcome)
      requires Valid() && alias in server.threads.journals && SafeIdentifier(alias, MAX_ID_BYTES)
      requires from + |history| <= |server.threads.journals[alias]| && |history| <= limit
      requires history == server.threads.journals[alias][from..from + |history|] && history != []
      requires |history| == limit || from + |history| == |server.threads.journals[alias]|
      requires from == Position(SourceOf(alias, clock), feed.next)
      modifies feed`events, feed`high, feed`next
      ensures Valid()
      ensures Moved(SourceOf(alias, clock), from, limit, x, old(State()), State(), materialized, outcome)
    {
      hide FeedMatches, ThreadsLinear, ThreadsContiguous, Ordered, AcksArePrefix, Ready, JournalOf, SafeIdentifier, NextOutcome;
      hide Moved, Grown, Turned, OnTheWay, Position, BoundStarts;
      ghost var source, start := SourceOf(alias, clock), State();
      StartsOnTheWay(source, from, limit, x, start);
      materialized := 0;
      while materialized < |history|
        invariant feed.Valid() && FeedMatches(feed.events, feed.next, server.threads.journals, server.tasks)
        invariant materialized <= |history| && Position(source, feed.next) == from + materialized
        invariant OnTheWay(source, from, limit, x, start, State(), materialized)
        modifies feed`events, feed`high, feed`next
      {
        ghost var before := State();
        var head := history[materialized];
        var write := if materialized < x.writes then Healthy else if x.lost then FailsAfterCommit else FailsBeforeCommit;
        outcome := MaterialiseNext(alias, head, from + materialized, clock, write);
        if outcome != Reconciled {
          TurnStops(source, from, limit, x, start, before, materialized, State(), outcome);
          return;
        }
        TurnGoesOn(source, from, limit, x, start, before, materialized, State());
        GrowthMovesPosition(source, from, limit, x, start, State(), materialized + 1);
        materialized := materialized + 1;
      }
      LoopEnds(source, from, limit, x, start, State(), materialized);
      return materialized, Reconciled;
    }

    /** One turn of the loop: the head becomes an event, unless its Task is not there yet. */
    method MaterialiseNext(alias: string, head: Head, ghost k: nat, clock: I64, fault: Fault) returns (outcome: Outcome)
      requires Valid() && alias in server.threads.journals && k < |server.threads.journals[alias]| && SafeIdentifier(alias, MAX_ID_BYTES)
      requires head == server.threads.journals[alias][k] && k == Position(SourceOf(alias, clock), feed.next)
      modifies feed`events, feed`high, feed`next
      ensures Valid()
      ensures Turned(SourceOf(alias, clock), k, fault, old(State()), State(), outcome)
    {
      hide FeedMatches, ThreadsLinear, ThreadsContiguous, Ordered, AcksArePrefix, ValidEvent, MakeEvent, JournalOf, EntryAt;
      hide Materialises, SafeIdentifier, DialogueRoot, BoundStarts;
      var task := Find(server.tasks, head.task);
      if task.None? {
        return BlockedFeed;
      }
      var event := MakeEvent(alias, head.revision, task.value, clock);
      if event.None? {
        return if Terminal(task.value.status) then BlockedFeed else PendingHead;
      }
      RowIsItself(server.threads.journals, server.tasks, head.task);
      if event.value.task != head.task || event.value.root != head.root {
        return BlockedFeed;
      }
      HeadIsEntry(alias, server.threads.journals[alias], k);
      EventMaterialises(server.threads.journals, server.tasks, event.value, task.value);
      outcome := MaterialiseEvent(event.value, k, clock, fault);
    }

    /** The append of one event at the thread's cursor. */
    method MaterialiseEvent(event: Event, ghost k: nat, clock: I64, fault: Fault) returns (outcome: Outcome)
      requires Valid() && event.alias in server.threads.journals && k < |server.threads.journals[event.alias]|
      requires ValidEvent(event) && event.sequence == 0 && Materialises(event, server.threads.journals, server.tasks)
      requires event.revision == server.threads.journals[event.alias][0].revision + k
      requires k == Position(SourceOf(event.alias, clock), feed.next)
      modifies feed`events, feed`high, feed`next
      ensures Valid()
      ensures Grown(SourceOf(event.alias, clock), k, old(State()), State(), if Room(old(State())) > 0 && !fault.FailsBeforeCommit? then 1 else 0)
      ensures outcome == if fault.Healthy? && Room(old(State())) > 0 then Reconciled else BlockedFeed
    {
      hide FeedMatches, ThreadsLinear, ThreadsContiguous, Ordered, AcksArePrefix, ValidEvent, JournalOf, Materialises, Existing, BoundStarts;
      CursorIsFree(feed.events, feed.next, event.alias, event.revision);
      EventBounds(event);
      ghost var events, next, high := feed.events, feed.next, feed.high;
      var write := feed.Append(event, 0, fault);
      if feed.events != events {
        MatchGrows(events, next, server.threads.journals, server.tasks, event, high + 1);
      }
      if write.WriteAccepted? || write.WriteDuplicate? {
        return Reconciled;
      }
      return BlockedFeed;
    }
  }

  lemma HeadIsEntry(alias: string, j: seq<Head>, k: nat)
    requires JournalOf(alias, j) && k < |j|
    ensures EntryAt(j, j[k].revision) == Some(j[k]) && j[k].revision == j[0].revision + k
  {
    JournalIsContiguous(alias, j);
  }

  lemma StartsOnTheWay(s: Source, from: nat, limit: nat, x: Sidecar, f: FeedState)
    requires s.journal != []
    ensures OnTheWay(s, from, limit, x, f, f, 0)
  {
  }

  lemma GrowthMovesPosition(s: Source, from: nat, limit: nat, x: Sidecar, f: FeedState, f': FeedState, n: nat)
    requires OnTheWay(s, from, limit, x, f, f', n) && Position(s, f.next) == from
    ensures Position(s, f'.next) == from + n
  {
  }

  /** What is read starts at the first entry the feed has not materialised. */
  lemma HistoryAtCursor(s: Source, next: map<string, U64>, limit: nat)
    requires JournalOf(s.alias, s.journal) && limit > 0
    requires s.alias in next ==> 0 <= next[s.alias] - s.journal[0].revision <= |s.journal|
    ensures var from, history := Position(s, next), HistoryFrom(s.journal, if s.alias in next then next[s.alias] else 0, limit);
      && 0 <= from && from + |history| <= |s.journal| && history == s.journal[from..from + |history|]
      && |history| <= limit && (|history| == limit || from + |history| == |s.journal|)
      && (history == [] <==> from == |s.journal|)
  {
    hide ValidHead, ValidHeadTransition;
    HistoryIsSlice(s.alias, s.journal, if s.alias in next then next[s.alias] else 0, limit);
  }

  lemma RowIsItself(journals: map<string, seq<Head>>, tasks: TaskStore, id: TaskId)
    requires ThreadsLinear(journals, tasks) && id in tasks.rows
    ensures tasks.rows[id].id == id
  {
  }

  lemma CursorWithinJournal(events: seq<Event>, next: map<string, U64>, journals: map<string, seq<Head>>, tasks: TaskStore, alias: string)
    requires ThreadsContiguous(events, next) && FeedMatches(events, next, journals, tasks) && alias in journals
    ensures alias in next ==> journals[alias] != [] && 0 <= next[alias] - journals[alias][0].revision <= |journals[alias]|
  {
    if alias in next {
      var t := OfThread(events, alias);
      assert StartsWithJournal(events, alias, journals);
      ThreadIsInLog(events, alias, |t| - 1);
      var i :| 0 <= i < |events| && events[i] == t[|t| - 1];
      assert Materialises(events[i], journals, tasks);
    }
  }

  lemma CursorIsFree(events: seq<Event>, next: map<string, U64>, alias: string, revision: U64)
    requires ThreadsContiguous(events, next) && (alias in next ==> next[alias] == revision)
    ensures Existing(events, alias, revision).None?
  {
    ExistingExactly(events, next, alias, revision);
  }

  lemma EventMaterialises(journals: map<string, seq<Head>>, tasks: TaskStore, e: Event, t: Task)
    requires e.alias in journals && EntryAt(journals[e.alias], e.revision).Some?
    requires var h := EntryAt(journals[e.alias], e.revision).value; Find(tasks, h.task) == Some(t) && e.task == h.task && e.root == h.root
    requires DialogueRoot(t) == Some(e.root)
    ensures Materialises(e, journals, tasks)
  {
  }

  lemma MatchGrows(events: seq<Event>, next: map<string, U64>, journals: map<string, seq<Head>>, tasks: TaskStore, e: Event, sequence: U64)
    requires FeedMatches(events, next, journals, tasks) && Materialises(e, journals, tasks)
    requires ThreadsContiguous(events, next) && e.revision < UINT64_MAX
    requires e.revision == if e.alias in next then next[e.alias] else journals[e.alias][0].revision
    ensures FeedMatches(events + [e.(sequence := sequence)], next[e.alias := e.revision + 1], journals, tasks)
  {
    hide Materialises;
    var stored := e.(sequence := sequence);
    StoredMaterialises(e, sequence, journals, tasks);
    forall a | a in next[e.alias := e.revision + 1]
      ensures StartsWithJournal(events + [stored], a, journals)
    {
      OfThreadGrows(events, stored, a);
      assert a in next ==> StartsWithJournal(events, a, journals);
    }
  }

  lemma StoredMaterialises(e: Event, sequence: U64, journals: map<string, seq<Head>>, tasks: TaskStore)
    requires Materialises(e, journals, tasks)
    ensures e.alias in journals && journals[e.alias] != [] && Materialises(e.(sequence := sequence), journals, tasks)
  {
  }

  /** The k-th event of a thread completes the k-th entry of its journal. */
  ghost predicate Completes(e: Event, h: Head, tasks: TaskStore) {
    e.alias == h.alias && e.revision == h.revision && e.task == h.task && e.root == h.root && SuccessFor(tasks, h)
  }

  lemma ThreadEventCompletes(events: seq<Event>, next: map<string, U64>, journals: map<string, seq<Head>>, tasks: TaskStore, alias: string, k: nat)
    requires ThreadsContiguous(events, next) && FeedMatches(events, next, journals, tasks) && k < |OfThread(events, alias)|
    requires alias in journals ==> JournalOf(alias, journals[alias])
    ensures alias in journals && k < |journals[alias]| && Completes(OfThread(events, alias)[k], journals[alias][k], tasks)
  {
    hide SuccessFor, ValidHead, ValidHeadTransition, ThreadsContiguous, FeedMatches, OfThread;
    ThreadEventIsMaterialised(events, next, journals, tasks, alias, k);
    JournalIsContiguous(alias, journals[alias]);
  }

  lemma ThreadEventIsMaterialised(events: seq<Event>, next: map<string, U64>, journals: map<string, seq<Head>>, tasks: TaskStore, alias: string, k: nat)
    requires ThreadsContiguous(events, next) && FeedMatches(events, next, journals, tasks) && k < |OfThread(events, alias)|
    ensures alias in journals && journals[alias] != []
    ensures var e := OfThread(events, alias)[k];
      e.alias == alias && e.revision == journals[alias][0].revision + k && Materialises(e, journals, tasks)
  {
    hide Materialises;
    assert alias in next && StartsWithJournal(events, alias, journals);
    ThreadIsInLog(events, alias, k);
    var i :| 0 <= i < |events| && events[i] == OfThread(events, alias)[k];
    assert Materialises(events[i], journals, tasks);
  }

  /** What a consumer has acknowledged of a thread is exactly the thread's journal from its first entry on, in order. */
  lemma AcknowledgedIsTheJournal(service: CompletionService, consumer: string, alias: string, k: nat)
    requires service.Valid() && consumer in service.feed.accepted
    requires k < |OfThread(service.feed.accepted[consumer], alias)|
    ensures alias in service.server.threads.journals && k < |service.server.threads.journals[alias]|
    ensures Completes(OfThread(service.feed.accepted[consumer], alias)[k], service.server.threads.journals[alias][k], service.server.tasks)
  {
    hide ThreadsLinear, BoundStarts, JournalOf, AcksArePrefix, ThreadsContiguous, FeedMatches, Ordered, Completes;
    AcknowledgedInOrder(service.feed, consumer, alias);
    ThreadEventCompletes(service.feed.events, service.feed.next, service.server.threads.journals, service.server.tasks, alias, k);
  }
}
