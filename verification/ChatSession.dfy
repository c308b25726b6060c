/** The chat client (src/GaudereChat.cpp) against the dialogue server over a transport that may lose requests and
    replies. Other clients may act between any two calls. */
module ChatSessionModel {
  import opened Base
  import opened Decimal
  import opened Work
  import opened DialogueTasks
  import opened DialogueThread
  import opened DialogueServerModel

  const DIGEST_CHARS := 16

  predicate Hex(s: string) {
    forall i :: 0 <= i < |s| ==> HexDigit(s[i])
  }

  predicate ValidNonce(s: string) {
    16 <= |s| <= 64 && Hex(s)
  }

  /** The first half-line of the SHA-256 of a message. */
  predicate MessageDigest(s: string) {
    |s| == DIGEST_CHARS && Hex(s)
  }

  function RequestId(nonce: string, turn: U64, digest: string): string {
    "chat-v1-" + nonce + "-" + Dec(turn) + "-" + digest
  }

  /** Within a session the request id determines the turn, and the message digest. */
  lemma RequestIdsDiffer(nonce: string, turn: U64, digest: string, turn': U64, digest': string)
    requires MessageDigest(digest) && MessageDigest(digest')
    requires RequestId(nonce, turn, digest) == RequestId(nonce, turn', digest')
    ensures turn == turn' && digest == digest'
  {
    var prefix := "chat-v1-" + nonce + "-";
    var a, b := RequestId(nonce, turn, digest), RequestId(nonce, turn', digest');
    assert a == prefix + Dec(turn) + "-" + digest && b == prefix + Dec(turn') + "-" + digest';
    assert a[|prefix|..|a| - DIGEST_CHARS - 1] == Dec(turn) && b[|prefix|..|b| - DIGEST_CHARS - 1] == Dec(turn');
    assert a[|a| - DIGEST_CHARS..] == digest && b[|b| - DIGEST_CHARS..] == digest';
    DecIsInjective(turn, turn');
  }

  /** The server never has to refuse a session's request id. */
  lemma RequestIdsAreSafe(nonce: string, turn: U64, digest: string)
    requires ValidNonce(nonce) && MessageDigest(digest)
    ensures SafeIdentifier(RequestId(nonce, turn, digest), MAX_ID_BYTES)
  {
    PrintedNumbersParse(turn);
    var id := RequestId(nonce, turn, digest);
    assert |id| <= 8 + 64 + 1 + 20 + 1 + 16;
    forall i | 0 <= i < |id|
      ensures SafeIdentifierChar(id[i])
    {
      assert id[i] in "chat-v1-" || id[i] in nonce || id[i] in "-" || id[i] in Dec(turn) || id[i] in digest;
    }
  }

  datatype Attempt = Attempt(requestId: string, message: string, head: Head)

  datatype Delivery = RequestLost | ReplyLost | Delivered

  datatype Turn =
    | TurnSucceeded(requestId: string, expected: U64, task: TaskId, response: string)
    | TerminalFailure(requestId: string, expected: U64, task: TaskId)
    | TimedOut(requestId: string, expected: U64, task: TaskId)
    | Malformed(requestId: string, expected: U64)
    | Lost(requestId: string, expected: U64, orphan: Option<TaskId>)
    | Ambiguous(requestId: string, expected: U64)
    | Refused
    | CounterExhausted

  /** The turns that come after a commit was reported and accepted. */
  predicate Committed(t: Turn) {
    t.TurnSucceeded? || t.TerminalFailure? || t.TimedOut?
  }

  /** One answer to an inspection of the submitted Task; `at` is what the clock shows after it. */
  datatype Poll =
    | NoAnswer(code: int)
    | Report(id: TaskId, v3: bool, status: string, envelope: bool, output: Option<Output>, at: int)

  /** The answers a wait would get one after the other, if it kept asking. The clock moves on, so the list reaches a
      failed inspection or an answer after the deadline. */
  datatype Wait = Wait(deadline: int, polls: seq<Poll>)

  predicate Bounded(w: Wait) {
    w.polls != [] && var last := w.polls[|w.polls| - 1]; last.NoAnswer? || last.at >= w.deadline
  }

  predicate ActiveStatus(s: string) {
    s in {"pending", "running", "cancel_requested"}
  }

  predicate FailedStatus(s: string) {
    s in {"failed", "cancelled", "manual_review"}
  }

  /** `canonical_response`: the response echoes this request and continues the head it was sent to. */
  predicate CanonicalResponse(o: Output, a: Attempt) {
    && o.V3Response? && o.answers.request.id == a.requestId
    && o.answers.request.speakerKind == "human" && o.answers.request.speakerId == "bertrand"
    && o.answers.request.messageKind == "dialogue"
    && o.root == a.head.root && o.answers.pred == Some(a.head.task) && o.answers.predHash.Some?
    && LowercaseSha256(o.answers.model) && 0 < |o.text| <= MAX_RESPONSE_BYTES
  }

  /** A poll that says the Task is known and still under way. */
  predicate StillActive(p: Poll, task: TaskId) {
    p.Report? && p.id == task && p.v3 && ActiveStatus(p.status)
  }

  /** What the first decisive poll means for the turn. */
  function Verdict(p: Poll, a: Attempt, task: TaskId): Turn {
    match p
    case NoAnswer(code) => if code == 1 then TimedOut(a.requestId, a.head.revision, task) else Malformed(a.requestId, a.head.revision)
    case Report(id, v3, status, envelope, output, _) =>
      if id != task || !v3 then Malformed(a.requestId, a.head.revision)
      else if status == "succeeded" then
        if envelope && output.Some? && CanonicalResponse(output.value, a)
        then TurnSucceeded(a.requestId, a.head.revision, task, output.value.text) else Malformed(a.requestId, a.head.revision)
      else if FailedStatus(status) then TerminalFailure(a.requestId, a.head.revision, task)
      else Malformed(a.requestId, a.head.revision)
  }

  /** The turn after a commit: the first poll that is decisive or comes after the deadline decides. */
  function WaitOutcome(w: Wait, a: Attempt, task: TaskId): (turn: Turn)
    requires Bounded(w)
    ensures Committed(turn) ==> turn.requestId == a.requestId && turn.expected == a.head.revision && turn.task == task
    ensures !turn.Ambiguous?
    decreases |w.polls|
  {
    if !StillActive(w.polls[0], task) then Verdict(w.polls[0], a, task)
    else if w.polls[0].at >= w.deadline then TimedOut(a.requestId, a.head.revision, task)
    else WaitOutcome(w.(polls := w.polls[1..]), a, task)
  }

  /** What a delivered reply means for the attempt. */
  function AttemptOutcome(a: Attempt, reply: Reply, w: Wait): (turn: Turn)
    requires Bounded(w)
    ensures !turn.Ambiguous?
  {
    if reply.code != CodeAccepted && reply.code != CodeDuplicate then
      Lost(a.requestId, a.head.revision, if reply.task.Some? then Some(reply.task.value.id) else None)
    else if reply.task.None? || reply.head.None? || !reply.task.value.id.V3Id?
            || reply.head.value.alias != a.head.alias || reply.head.value.root != a.head.root
            || reply.head.value.task != reply.task.value.id || reply.head.value.revision != a.head.revision + 1 then
      Malformed(a.requestId, a.head.revision)
    else WaitOutcome(w, a, reply.head.value.task)
  }

  function SubmissionOf(a: Attempt, model: string): Submission {
    Submission(a.head.alias, a.head.revision, model, Request(a.requestId, "human", "bertrand", "dialogue", a.message))
  }

  ghost predicate IssuedAs(id: string, nonce: string, turn: int) {
    0 <= turn <= UINT64_MAX && exists digest :: MessageDigest(digest) && id == RequestId(nonce, turn, digest)
  }

  class ChatSession {
    const nonce: string
    const alias: string
    const server: DialogueServer
    const model: string
    var nextTurn: U64
    var ambiguous: Option<Attempt>
    ghost var issued: seq<string>

    ghost predicate Valid()
      reads this
    {
      && ValidNonce(nonce)
      && 1 <= nextTurn && |issued| == nextTurn - 1
      && (forall k :: 0 <= k < |issued| ==> IssuedAs(issued[k], nonce, k + 1))
      && (ambiguous.Some? ==> ambiguous.value.requestId in issued && ambiguous.value.head.alias == alias)
    }

    constructor (server: DialogueServer, nonce: string, alias: string, model: string)
      requires ValidNonce(nonce)
      ensures Valid() && issued == [] && ambiguous == None && this.server == server && this.nonce == nonce
    {
      this.server, this.nonce, this.alias, this.model := server, nonce, alias, model;
      nextTurn, ambiguous, issued := 1, None, [];
    }

    /** `next_request_id`. */
    method NextRequestId(ghost message: string, digest: string) returns (id: string)
      requires Valid() && MessageDigest(digest) && nextTurn < UINT64_MAX
      modifies this`nextTurn, this`issued
      ensures Valid() && issued == old(issued) + [id] && nextTurn == old(nextTurn) + 1
      ensures id == RequestId(nonce, old(nextTurn), digest) && id !in old(issued)
    {
      id := RequestId(nonce, nextTurn, digest);
      if id in issued {
        var k :| 0 <= k < |issued| && issued[k] == id;
        var other :| MessageDigest(other) && id == RequestId(nonce, k + 1, other);
        RequestIdsDiffer(nonce, nextTurn, digest, k + 1, other);
        assert false;
      }
      assert IssuedAs(id, nonce, nextTurn);
      nextTurn, issued := nextTurn + 1, issued + [id];
    }

    /** `send_turn`; `inspected` is whatever the head inspection reported, true or not. */
    method SendTurn(message: string, digest: string, inspected: Option<Head>, delivery: Delivery, faults: Faults, w: Wait)
      returns (turn: Turn)
      requires Bounded(w) && Valid() && server.Valid() && MessageDigest(digest)
      modifies this`nextTurn, this`issued, this`ambiguous, server`tasks, server.threads
      ensures Valid() && server.Valid()
      ensures old(ambiguous).Some? ==>
        && turn == Ambiguous(old(ambiguous).value.requestId, old(ambiguous).value.head.revision)
        && issued == old(issued) && ambiguous == old(ambiguous)
        && server.tasks == old(server.tasks) && server.threads.journals == old(server.threads.journals)
      ensures var sends := old(ambiguous).None? && 0 < |message| <= MAX_MESSAGE_BYTES && inspected.Some? && inspected.value.alias == alias
                           && old(nextTurn) < UINT64_MAX;
        && issued == (if sends then old(issued) + [RequestId(nonce, old(nextTurn), digest)] else old(issued))
        && (!sends ==> !Committed(turn) && server.tasks == old(server.tasks) && server.threads.journals == old(server.threads.journals))
        && (sends ==> ambiguous == if delivery.Delivered? then None
                                   else Some(Attempt(RequestId(nonce, old(nextTurn), digest), message, inspected.value)))
      ensures Committed(turn) ==>
        && turn.requestId in issued && turn.requestId !in old(issued)
        && InJournalOnce(server.threads.journals, server.tasks, alias, turn.expected + 1, turn.requestId, turn.task)
      ensures turn.Ambiguous? <==> ambiguous.Some?
    {
      hide ThreadsLinear, InJournalOnce, JournalOf, ValidNonce, IssuedAs, SubmitEffect, AttemptOutcome;
      if ambiguous.Some? {
        return Ambiguous(ambiguous.value.requestId, ambiguous.value.head.revision);
      }
      if message == "" || |message| > MAX_MESSAGE_BYTES {
        return Refused;
      }
      if inspected.None? || inspected.value.alias != alias {
        return Refused;
      }
      if nextTurn == UINT64_MAX {
        return CounterExhausted;
      }
      var id := NextRequestId(message, digest);
      ghost var reply;
      turn, reply := SubmitAttempt(Attempt(id, message, inspected.value), delivery, faults, w);
    }

    /** `retry_ambiguous`: the very same attempt again. */
    method RetryAmbiguous(delivery: Delivery, faults: Faults, w: Wait) returns (turn: Turn)
      requires Bounded(w) && Valid() && server.Valid()
      modifies this`ambiguous, server`tasks, server.threads
      ensures Valid() && server.Valid() && issued == old(issued) && nextTurn == old(nextTurn)
      ensures ambiguous == if delivery.Delivered? then None else old(ambiguous)
      ensures old(ambiguous).None? ==>
        turn == Refused && server.tasks == old(server.tasks) && server.threads.journals == old(server.threads.journals)
      ensures Committed(turn) ==>
        && turn.requestId in issued && old(ambiguous).Some? && turn.requestId == old(ambiguous).value.requestId
        && InJournalOnce(server.threads.journals, server.tasks, alias, turn.expected + 1, turn.requestId, turn.task)
      ensures turn.Ambiguous? <==> ambiguous.Some?
    {
      hide ThreadsLinear, InJournalOnce, JournalOf, ValidNonce, IssuedAs, SubmitEffect, AttemptOutcome;
      if ambiguous.None? {
        return Refused;
      }
      ghost var reply;
      turn, reply := SubmitAttempt(ambiguous.value, delivery, faults, w);
    }

    /** `submit_attempt`: only a transport failure leaves the attempt ambiguous; `reply` is what the server answered,
        if it was reached. */
    method SubmitAttempt(attempt: Attempt, delivery: Delivery, faults: Faults, w: Wait)
      returns (turn: Turn, ghost reply: Option<Reply>)
      requires Bounded(w) && Valid() && server.Valid() && attempt.requestId in issued && attempt.head.alias == alias
      modifies this`ambiguous, server`tasks, server.threads
      ensures Valid() && server.Valid() && issued == old(issued) && nextTurn == old(nextTurn)
      ensures ambiguous == if delivery.Delivered? then None else Some(attempt)
      ensures delivery.RequestLost? <==> reply.None?
      ensures if reply.None? then server.tasks == old(server.tasks) && server.threads.journals == old(server.threads.journals)
        else SubmitEffect(PlanSubmit(old(server.threads.heads), old(server.threads.journals), old(server.tasks), SubmissionOf(attempt, model)),
                          SubmissionOf(attempt, model), faults, old(server.threads.heads), old(server.threads.journals), old(server.tasks),
                          server.threads.journals, server.tasks, reply.value)
      ensures turn == if delivery.Delivered? then AttemptOutcome(attempt, reply.value, w)
                      else Ambiguous(attempt.requestId, attempt.head.revision)
      ensures Committed(turn) ==>
        && turn.requestId == attempt.requestId && turn.expected == attempt.head.revision
        && InJournalOnce(server.threads.journals, server.tasks, alias, turn.expected + 1, turn.requestId, turn.task)
    {
      hide ThreadsLinear, SubmitEffect, InJournalOnce, Carries, JournalOf, ValidNonce, IssuedAs, PlanSubmit, WaitOutcome;
      if delivery.RequestLost? {
        ambiguous := Some(attempt);
        return Ambiguous(attempt.requestId, attempt.head.revision), None;
      }
      var answer := server.Submit(SubmissionOf(attempt, model), faults);
      reply := Some(answer);
      if delivery.ReplyLost? {
        ambiguous := Some(attempt);
        turn := Ambiguous(attempt.requestId, attempt.head.revision);
        return;
      }
      ambiguous := None;
      turn := Malformed(attempt.requestId, attempt.head.revision);
      if answer.code != CodeAccepted && answer.code != CodeDuplicate {
        turn := Lost(attempt.requestId, attempt.head.revision, if answer.task.Some? then Some(answer.task.value.id) else None);
        return;
      }
      if answer.task.None? || answer.head.None? || !answer.task.value.id.V3Id? {
        return;
      }
      var head := answer.head.value;
      if head.alias != attempt.head.alias || head.root != attempt.head.root || head.task != answer.task.value.id {
        return;
      }
      var committed := ParseUint64(Dec(head.revision));
      PrintedNumbersParse(head.revision);
      if committed.None? || attempt.head.revision == UINT64_MAX || committed.value != attempt.head.revision + 1 {
        return;
      }
      EntryIsUnique(server.threads.journals, server.tasks, SubmissionOf(attempt, model), answer);
      turn := WaitForTask(attempt, head.task, w);
    }
  }

  /** `wait_for_task`. */
  method WaitForTask(a: Attempt, task: TaskId, w: Wait) returns (turn: Turn)
    requires Bounded(w)
    ensures turn == WaitOutcome(w, a, task)
  {
    var i := 0;
    while true
      invariant 0 <= i < |w.polls|
      invariant Bounded(w.(polls := w.polls[i..])) && WaitOutcome(w, a, task) == WaitOutcome(w.(polls := w.polls[i..]), a, task)
      decreases |w.polls| - i
    {
      var poll := w.polls[i];
      if !StillActive(poll, task) {
        return Verdict(poll, a, task);
      }
      if poll.at >= w.deadline {
        return TimedOut(a.requestId, a.head.revision, task);
      }
      assert w.polls[i..][1..] == w.polls[i + 1..];
      i := i + 1;
    }
  }

  /** Revision `at` of the thread carries the request under that Task, and no other entry does. */
  ghost predicate InJournalOnce(journals: map<string, seq<Head>>, tasks: TaskStore, alias: string, at: int, requestId: string, task: TaskId) {
    && alias in journals && EntryAt(journals[alias], at).Some?
    && var entry := EntryAt(journals[alias], at).value;
    && entry.revision == at && entry.task == task && Carries(tasks, entry, requestId)
    && forall k :: 0 <= k < |journals[alias]| && journals[alias][0].revision + k != at ==> !Carries(tasks, journals[alias][k], requestId)
  }

  lemma EntryIsUnique(journals: map<string, seq<Head>>, tasks: TaskStore, x: Submission, reply: Reply)
    requires ThreadsLinear(journals, tasks) && EntryFor(journals, tasks, x, reply)
    ensures InJournalOnce(journals, tasks, x.alias, x.expected + 1, x.request.id, reply.task.value.id)
  {
    hide Carries;
    var j := journals[x.alias];
    var at := x.expected + 1 - j[0].revision;
    forall k | 0 <= k < |j| && j[0].revision + k != x.expected + 1
      ensures !Carries(tasks, j[k], x.request.id)
    {
      if Carries(tasks, j[k], x.request.id) {
        AtMostOneEntry(tasks, j, x.request.id, k, at);
      }
    }
  }

  /** A committed request is never reported as malformed to a client that inspected the thread's real root: the answer
      is decided by the polls alone. */
  lemma CommittedIsAwaited(journals: map<string, seq<Head>>, tasks: TaskStore, a: Attempt, model: string, reply: Reply, w: Wait)
    requires Bounded(w) && WellFormedStore(tasks) && EntryFor(journals, tasks, SubmissionOf(a, model), reply) && (reply.code == CodeAccepted || reply.code == CodeDuplicate)
    requires JournalOf(a.head.alias, journals[a.head.alias]) && a.head.root == journals[a.head.alias][0].root
    ensures AttemptOutcome(a, reply, w) == WaitOutcome(w, a, reply.head.value.task)
  {
    JournalIsContiguous(a.head.alias, journals[a.head.alias]);
  }
}
