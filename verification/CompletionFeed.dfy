/** The completion feed (src/LocalGooseDialogueCompletionFeed.cpp): an event log derived from the thread journals,
    with one materialisation cursor per thread and one cursor per consumer. */
module CompletionFeedModel {
  import opened Base
  import opened Work
  import opened DialogueTasks
  import opened DialogueThread

  /** The event id is a digest of alias, revision, Task id and result hash, all of which are fields. */
  datatype Event = Event(
    sequence: U64, alias: string, revision: U64, task: TaskId, root: TaskId, turn: U64, requestId: string, speakerKind: string,
    speakerId: string, messageKind: string, resultHash: Digest, response: string, observedAt: I64)

  predicate ValidEvent(e: Event) {
    && e.sequence <= INT64_MAX && SafeIdentifier(e.alias, MAX_ID_BYTES) && e.revision < INT64_MAX
    && DialogueTaskId(e.task) && DialogueTaskId(e.root) && e.turn <= INT64_MAX
    && SafeIdentifier(e.requestId, MAX_ID_BYTES) && e.speakerKind in {"human", "system"} && SafeIdentifier(e.speakerId, MAX_ID_BYTES)
    && e.messageKind in {"dialogue", "feedback", "intervention", "observation"}
    && 0 < |e.response| <= MAX_RESPONSE_BYTES && e.observedAt >= 0
  }

  predicate SameEvent(a: Event, b: Event) {
    a == b.(sequence := a.sequence, observedAt := a.observedAt)
  }

  /** `make_local_goose_dialogue_completion_event`; `None` is the thrown `invalid_argument`. */
  function MakeEvent(alias: string, revision: U64, t: Task, observedAt: I64): (r: Option<Event>)
    ensures r.Some? ==> ValidEvent(r.value) && r.value.sequence == 0 && r.value.alias == alias && r.value.revision == revision
    ensures r.Some? ==> r.value.task == t.id && DialogueRoot(t) == Some(r.value.root)
  {
    if DialogueRoot(t).None? then None
    else
      var hash, root, text := Sha256(t.result.value.output), DialogueRoot(t).value, t.result.value.output.text;
      var e := if V3Success(t) then
                 var r := t.definition.v3.request;
                 Event(0, alias, revision, t.id, root, t.definition.v3.turn, r.id, r.speakerKind, r.speakerId, r.messageKind, hash, text, observedAt)
               else
                 Event(0, alias, revision, t.id, root, t.definition.v2.turn, t.definition.v2.requestId, "human", "legacy-v2-human",
                       "dialogue", hash, text, observedAt);
      if ValidEvent(e) then Some(e) else None
  }

  // --- The log, by thread and by sequence ---------------------------------------------------------------------

  function OfThread(events: seq<Event>, alias: string): (r: seq<Event>)
    ensures |r| <= |events|
  {
    if events == [] then []
    else
      var last := events[|events| - 1];
      OfThread(events[..|events| - 1], alias) + (if last.alias == alias then [last] else [])
  }

  lemma OfThreadGrows(events: seq<Event>, e: Event, alias: string)
    ensures OfThread(events + [e], alias) == OfThread(events, alias) + (if e.alias == alias then [e] else [])
  {
    assert (events + [e])[..|events|] == events;
  }

  /** What a thread shows of a prefix of the log is a prefix of what it shows of the whole log. */
  lemma {:induction false} OfThreadPrefix(events: seq<Event>, n: nat, alias: string)
    requires n <= |events|
    ensures OfThread(events[..n], alias) <= OfThread(events, alias)
    decreases |events| - n
  {
    if n < |events| {
      assert events[..n + 1] == events[..n] + [events[n]];
      OfThreadGrows(events[..n], events[n], alias);
      OfThreadPrefix(events, n + 1, alias);
    } else {
      assert events[..n] == events;
    }
  }

  /** SELECT of the event of one thread revision. */
  function Existing(events: seq<Event>, alias: string, revision: U64): (r: Option<Event>)
    ensures r.Some? ==> r.value in events && r.value.alias == alias && r.value.revision == revision
    ensures r.None? ==> forall k :: 0 <= k < |events| ==> !(events[k].alias == alias && events[k].revision == revision)
  {
    if events == [] then None
    else if events[|events| - 1].alias == alias && events[|events| - 1].revision == revision then Some(events[|events| - 1])
    else Existing(events[..|events| - 1], alias, revision)
  }

  /** SELECT of the first event after a sequence number. */
  function FirstAfter(events: seq<Event>, sequence: U64): (r: Option<Event>)
  {
    if events == [] then None
    else if events[0].sequence > sequence then Some(events[0])
    else FirstAfter(events[1..], sequence)
  }

  ghost predicate Ordered(events: seq<Event>, high: int) {
    && (forall i :: 0 <= i < |events| ==> 1 <= events[i].sequence <= high)
    && (forall i, j :: 0 <= i < j < |events| ==> events[i].sequence < events[j].sequence)
  }

  ghost function LastSequence(events: seq<Event>): U64 {
    if events == [] then 0 else events[|events| - 1].sequence
  }

  lemma {:induction false} FirstAfterPrefix(events: seq<Event>, high: int, n: nat)
    requires Ordered(events, high) && n <= |events|
    ensures FirstAfter(events, LastSequence(events[..n])) == if n < |events| then Some(events[n]) else None
    decreases |events|
  {
    if events != [] {
      if n == 0 {
        assert events[0].sequence > 0;
      } else {
        var rest := events[1..];
        assert events[..n][1..] == rest[..n - 1];
        assert events[0].sequence <= LastSequence(events[..n]);
        FirstAfterPrefix(rest, high, n - 1);
        if n == 1 {
          AllLater(rest, events[0].sequence);
        } else {
          assert LastSequence(events[..n]) == LastSequence(rest[..n - 1]);
        }
      }
    }
  }

  lemma AllLater(events: seq<Event>, sequence: U64)
    requires forall i :: 0 <= i < |events| ==> events[i].sequence > sequence
    ensures FirstAfter(events, sequence) == if events == [] then None else Some(events[0])
  {
  }

  /** The k-th event of a thread is its k-th revision, counted from the first one, and the cursor stands behind the last. */
  ghost predicate Contiguous(t: seq<Event>, next: int) {
    && t != [] && next == t[0].revision + |t|
    && forall k :: 0 <= k < |t| ==> t[k].revision == t[0].revision + k
  }

  ghost predicate ThreadsContiguous(events: seq<Event>, next: map<string, U64>) {
    && (forall a :: a in next ==> Contiguous(OfThread(events, a), next[a]))
    && (forall a :: a !in next ==> OfThread(events, a) == [])
  }

  lemma {:induction false} ExistingIsInThread(events: seq<Event>, e: Event)
    requires e in events
    ensures e in OfThread(events, e.alias)
  {
    var last := events[|events| - 1];
    if e != last {
      assert e in events[..|events| - 1];
      ExistingIsInThread(events[..|events| - 1], e);
    }
  }

  lemma {:induction false} ThreadIsInLog(events: seq<Event>, alias: string, k: nat)
    requires k < |OfThread(events, alias)|
    ensures OfThread(events, alias)[k] in events && OfThread(events, alias)[k].alias == alias
  {
    var init := events[..|events| - 1];
    if k < |OfThread(init, alias)| {
      ThreadIsInLog(init, alias, k);
    }
  }

  /** A revision is already in the log exactly when it lies between the thread's first event and its cursor. */
  lemma ExistingExactly(events: seq<Event>, next: map<string, U64>, alias: string, revision: U64)
    requires ThreadsContiguous(events, next)
    ensures Existing(events, alias, revision).Some? <==>
      alias in next && OfThread(events, alias) != [] && OfThread(events, alias)[0].revision <= revision < next[alias]
  {
    var t := OfThread(events, alias);
    var e := Existing(events, alias, revision);
    if e.Some? {
      ExistingIsInThread(events, e.value);
    } else if alias in next && t != [] && t[0].revision <= revision < next[alias] {
      ThreadIsInLog(events, alias, revision - t[0].revision);
    }
  }

  ghost predicate AcksArePrefix(events: seq<Event>, last: map<string, U64>, accepted: map<string, seq<Event>>) {
    && last.Keys == accepted.Keys
    && forall c :: c in accepted ==> accepted[c] != [] && accepted[c] <= events && last[c] == LastSequence(accepted[c])
  }

  lemma AppendKeepsThreads(events: seq<Event>, next: map<string, U64>, e: Event)
    requires ThreadsContiguous(events, next) && e.revision < INT64_MAX
    requires e.alias in next ==> next[e.alias] == e.revision
    ensures ThreadsContiguous(events + [e], next[e.alias := e.revision + 1])
  {
    var next' := next[e.alias := e.revision + 1];
    forall a
      ensures a in next' ==> Contiguous(OfThread(events + [e], a), next'[a])
      ensures a !in next' ==> OfThread(events + [e], a) == []
    {
      OfThreadGrows(events, e, a);
    }
  }

  class CompletionFeed {
    var events: seq<Event>
    var high: U64
    var next: map<string, U64>
    var last: map<string, U64>
    ghost var accepted: map<string, seq<Event>>

    ghost predicate Valid()
      reads this
    {
      && high <= INT64_MAX && Ordered(events, high)
      && ThreadsContiguous(events, next)
      && AcksArePrefix(events, last, accepted)
    }

    constructor ()
      ensures Valid() && events == [] && next == map[] && accepted == map[]
    {
      events, high, next, last, accepted := [], 0, map[], map[], map[];
    }

    /** `append_for_revision`. AUTOINCREMENT never reuses a sequence number; `gap` is what it may skip. */
    method Append(event: Event, gap: nat, fault: Fault) returns (result: WriteResult)
      requires Valid()
      modifies this`events, this`high, this`next
      ensures Valid()
      ensures var appends := ValidEvent(event) && event.sequence == 0
                && Existing(old(events), event.alias, event.revision).None?
                && (event.alias in old(next) ==> old(next)[event.alias] == event.revision)
                && old(high) + 1 + gap <= INT64_MAX && !fault.FailsBeforeCommit?;
        && events == (if appends then old(events) + [event.(sequence := old(high) + 1 + gap)] else old(events))
        && next == (if appends then old(next)[event.alias := event.revision + 1] else old(next))
        && high == (if appends then old(high) + 1 + gap else old(high))
        && (result.WriteAccepted? <==> appends && fault.Healthy?)
      ensures result.WriteInvalid? <==> !(ValidEvent(event) && event.sequence == 0)
      ensures result.WriteDuplicate? <==>
        ValidEvent(event) && event.sequence == 0 && !fault.FailsBeforeCommit?
        && var e := Existing(old(events), event.alias, event.revision); e.Some? && SameEvent(e.value, event)
    {
      hide ValidEvent, Ordered, AcksArePrefix, ThreadsContiguous, SameEvent;
      if !ValidEvent(event) || event.sequence != 0 {
        return WriteInvalid;
      }
      if fault.FailsBeforeCommit? {
        return WriteUnavailable;
      }
      EventBounds(event);
      ExistingExactly(events, next, event.alias, event.revision);
      var existing := Existing(events, event.alias, event.revision);
      if existing.Some? {
        return if SameEvent(existing.value, event) then WriteDuplicate else WriteConflict;
      }
      if event.alias in next && next[event.alias] != event.revision {
        return WriteConflict;
      }
      if high + 1 + gap > INT64_MAX {
        return WriteUnavailable;
      }
      var stored := event.(sequence := high + 1 + gap);
      AppendKeepsThreads(events, next, stored);
      AppendKeepsOrder(events, high, last, accepted, stored);
      events, high := events + [stored], stored.sequence;
      next := next[event.alias := event.revision + 1];
      result := if fault.FailsAfterCommit? then WriteUnavailable else WriteAccepted;
    }

    /** `next_for_consumer`: the first event the consumer has not acknowledged. */
    method NextFor(consumer: string) returns (e: Option<Event>)
      requires Valid()
      ensures var n := if consumer in accepted then |accepted[consumer]| else 0;
        e == if SafeIdentifier(consumer, MAX_ID_BYTES) && n < |events| then Some(events[n]) else None
    {
      if !SafeIdentifier(consumer, MAX_ID_BYTES) {
        return None;
      }
      ghost var n := if consumer in accepted then |accepted[consumer]| else 0;
      FirstAfterPrefix(events, high, n);
      assert consumer in accepted ==> events[..n] == accepted[consumer];
      e := FirstAfter(events, if consumer in last then last[consumer] else 0);
    }

    /** `acknowledge`: accepted exactly for the next event of this consumer. */
    method Acknowledge(consumer: string, sequence: U64, fault: Fault) returns (result: WriteResult)
      requires Valid()
      modifies this`last, this`accepted
      ensures Valid()
      ensures var before := if consumer in old(accepted) then old(accepted)[consumer] else [];
        var n := |before|;
        var acks := SafeIdentifier(consumer, MAX_ID_BYTES) && n < |events| && events[n].sequence == sequence && !fault.FailsBeforeCommit?;
        && accepted == (if acks then old(accepted)[consumer := before + [events[n]]] else old(accepted))
        && (result.WriteAccepted? <==> acks && fault.Healthy?)
        && (result.WriteInvalid? <==> !SafeIdentifier(consumer, MAX_ID_BYTES) || sequence == 0 || sequence > INT64_MAX)
        && (result.WriteDuplicate? ==> sequence == LastSequence(before))
        && (result.WriteUnavailable? ==> !fault.Healthy?)
    {
      hide ThreadsContiguous, AcksArePrefix, SafeIdentifier, FirstAfter;
      if !SafeIdentifier(consumer, MAX_ID_BYTES) || sequence == 0 || sequence > INT64_MAX {
        return WriteInvalid;
      }
      if fault.FailsBeforeCommit? {
        return WriteUnavailable;
      }
      ghost var before := if consumer in accepted then accepted[consumer] else [];
      var current := if consumer in last then last[consumer] else 0;
      NextInLine(events, high, last, accepted, consumer);
      if current == sequence {
        return WriteDuplicate;
      }
      if current > sequence {
        return WriteConflict;
      }
      var upcoming := FirstAfter(events, current);
      if upcoming.None? || upcoming.value.sequence != sequence {
        return WriteConflict;
      }
      AckKeepsPrefix(events, last, accepted, consumer);
      last := last[consumer := sequence];
      accepted := accepted[consumer := before + [upcoming.value]];
      result := if fault.FailsAfterCommit? then WriteUnavailable else WriteAccepted;
    }
  }

  /** The consumer's cursor stands right before the first event it has not acknowledged. */
  lemma NextInLine(events: seq<Event>, high: U64, last: map<string, U64>, accepted: map<string, seq<Event>>, consumer: string)
    requires Ordered(events, high) && AcksArePrefix(events, last, accepted)
    ensures var before := if consumer in accepted then accepted[consumer] else [];
      var current := if consumer in last then last[consumer] else 0;
      && |before| <= |events| && current == LastSequence(before)
      && FirstAfter(events, current) == (if |before| < |events| then Some(events[|before|]) else None)
      && (|before| < |events| ==> current < events[|before|].sequence <= high)
  {
    var before := if consumer in accepted then accepted[consumer] else [];
    assert before == events[..|before|];
    FirstAfterPrefix(events, high, |before|);
  }

  lemma AckKeepsPrefix(events: seq<Event>, last: map<string, U64>, accepted: map<string, seq<Event>>, consumer: string)
    requires AcksArePrefix(events, last, accepted)
    requires var n := if consumer in accepted then |accepted[consumer]| else 0; n < |events|
    ensures var before := if consumer in accepted then accepted[consumer] else [];
      |before| < |events| &&
      var e := events[|before|];
      AcksArePrefix(events, last[consumer := e.sequence], accepted[consumer := before + [e]])
  {
  }

  lemma EventBounds(e: Event)
    requires ValidEvent(e)
    ensures e.revision < INT64_MAX
  {
  }

  lemma AppendKeepsOrder(events: seq<Event>, high: U64, last: map<string, U64>, accepted: map<string, seq<Event>>, e: Event)
    requires Ordered(events, high) && AcksArePrefix(events, last, accepted) && e.sequence > high
    ensures Ordered(events + [e], e.sequence) && AcksArePrefix(events + [e], last, accepted)
  {
    forall c | c in accepted
      ensures accepted[c] <= events + [e]
    {
      assert accepted[c] <= events;
    }
  }

  // --- What every consumer sees ---------------------------------------------------------------------------------

  /** Accepted acknowledgements are a prefix of the log, and of each thread they show consecutive revisions from its
      first event on, without gap or repeat. */
  lemma AcknowledgedInOrder(feed: CompletionFeed, consumer: string, alias: string)
    requires feed.Valid() && consumer in feed.accepted
    ensures feed.accepted[consumer] <= feed.events
    ensures var seen, all := OfThread(feed.accepted[consumer], alias), OfThread(feed.events, alias);
      && seen <= all
      && forall k :: 0 <= k < |seen| ==> seen[k].alias == alias && seen[k].revision == all[0].revision + k
  {
    var n := |feed.accepted[consumer]|;
    assert feed.events[..n] == feed.accepted[consumer];
    OfThreadPrefix(feed.events, n, alias);
    forall k | 0 <= k < |OfThread(feed.events, alias)|
      ensures OfThread(feed.events, alias)[k].alias == alias
    {
      ThreadIsInLog(feed.events, alias, k);
    }
  }

  /** Whatever is appended later gets a sequence number above every consumer's cursor. */
  lemma NothingLandsBehindACursor(feed: CompletionFeed, consumer: string)
    requires feed.Valid() && consumer in feed.last
    ensures feed.last[consumer] <= feed.high
    ensures forall i :: |feed.accepted[consumer]| <= i < |feed.events| ==> feed.events[i].sequence > feed.last[consumer]
  {
    var n := |feed.accepted[consumer]|;
    assert feed.accepted[consumer][n - 1] == feed.events[n - 1];
  }
}
