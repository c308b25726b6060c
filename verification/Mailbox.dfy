/** The hand-off from the socket thread to the Runtime worker (src/LiveControl.cpp). Every critical section is one step
    of a state machine whose steps interleave freely. */
module MailboxModel {
  import opened Base

  datatype Reply = Reply(ok: bool, code: int, body: string)

  const STOPPING := Reply(false, 1, "live control is stopping")

  // --- One mailbox, section by section --------------------------------------------------------------------------

  /** What the mailbox lock guards. */
  datatype Box<T> = Box(queue: seq<T>, stopped: bool)

  function Offer<T>(b: Box<T>, x: T): Box<T> {
    if b.stopped then b else b.(queue := b.queue + [x])
  }

  function Drain<T>(b: Box<T>): Box<T> {
    b.(queue := [])
  }

  function Shut<T>(b: Box<T>): Box<T> {
    if b.stopped then b else Box([], true)
  }

  /** A request and its reply; the first completion wins. */
  class PendingLiveControl {
    const command: string
    var completed: bool
    var reply: Reply

    constructor (command: string)
      ensures this.command == command && !completed
    {
      this.command := command;
      completed, reply := false, STOPPING;
    }

    method Complete(reply: Reply)
      modifies this
      ensures completed
      ensures this.reply == if old(completed) then old(this.reply) else reply
    {
      if completed {
        return;
      }
      this.reply := reply;
      completed := true;
    }
  }

  class LiveControlMailbox {
    var pending: seq<PendingLiveControl>
    var stopped: bool

    ghost function State(): Box<PendingLiveControl>
      reads this
    {
      Box(pending, stopped)
    }

    constructor ()
      ensures State() == Box([], false)
    {
      pending, stopped := [], false;
    }

    method Submit(command: string) returns (p: PendingLiveControl)
      modifies this
      ensures fresh(p) && p.command == command
      ensures State() == Offer(old(State()), p)
      ensures p.completed == old(stopped) && (old(stopped) ==> p.reply == STOPPING)
    {
      p := new PendingLiveControl(command);
      if stopped {
        p.Complete(STOPPING);
        return;
      }
      pending := pending + [p];
    }

    /** The whole queue, in submission order. */
    method TakeAll() returns (result: seq<PendingLiveControl>)
      modifies this
      ensures result == old(pending)
      ensures State() == Drain(old(State()))
    {
      result := [];
      while pending != []
        invariant result + pending == old(pending)
        invariant stopped == old(stopped)
        decreases |pending|
      {
        result := result + [pending[0]];
        pending := pending[1..];
      }
    }

    /** Two phases: the queue is taken over under the lock, and completed after it. */
    method Stop()
      modifies this, pending
      ensures State() == Shut(old(State()))
      ensures !old(stopped) ==> forall p :: p in old(pending) ==>
        p.completed && p.reply == if old(p.completed) then old(p.reply) else STOPPING
      ensures old(stopped) ==> forall p :: p in old(pending) ==> p.completed == old(p.completed) && p.reply == old(p.reply)
    {
      if stopped {
        return;
      }
      var taken := pending;
      stopped, pending := true, [];
      var i := 0;
      while i < |taken|
        invariant 0 <= i <= |taken| && taken == old(pending)
        invariant State() == Shut(old(State()))
        invariant forall p :: p in taken[..i] ==> p.completed && p.reply == if old(p.completed) then old(p.reply) else STOPPING
        invariant forall p :: p in taken && p !in taken[..i] ==> p.completed == old(p.completed) && p.reply == old(p.reply)
      {
        taken[i].Complete(STOPPING);
        i := i + 1;
      }
    }
  }

  // --- Every interleaving --------------------------------------------------------------------------------------

  /** Request numbers in the order of submission: waiting in the mailbox, held by the worker, taken over by stop, or
      replied to. */
  datatype State = State(box: Box<nat>, batch: seq<nat>, stopBatch: seq<nat>, replies: map<nat, Reply>, submitted: nat)

  datatype Action = Submit | Take | WorkerCompletes(reply: Reply) | Stop | StopCompletes | LateCompletion(request: nat, reply: Reply)

  function Completed(replies: map<nat, Reply>, request: nat, reply: Reply): map<nat, Reply> {
    if request in replies then replies else replies[request := reply]
  }

  predicate Enabled(s: State, a: Action) {
    match a
    case WorkerCompletes(_) => s.batch != []
    case StopCompletes => s.stopBatch != []
    case LateCompletion(request, _) => request in s.replies
    case _ => true
  }

  function Step(s: State, a: Action): State
    requires Enabled(s, a)
  {
    match a
    case Submit =>
      s.(box := Offer(s.box, s.submitted), submitted := s.submitted + 1,
         replies := if s.box.stopped then Completed(s.replies, s.submitted, STOPPING) else s.replies)
    case Take => s.(box := Drain(s.box), batch := s.batch + s.box.queue)
    case WorkerCompletes(reply) => s.(batch := s.batch[1..], replies := Completed(s.replies, s.batch[0], reply))
    case Stop => s.(box := Shut(s.box), stopBatch := if s.box.stopped then s.stopBatch else s.box.queue)
    case StopCompletes => s.(stopBatch := s.stopBatch[1..], replies := Completed(s.replies, s.stopBatch[0], STOPPING))
    case LateCompletion(request, reply) => s.(replies := Completed(s.replies, request, reply))
  }

  const EMPTY := State(Box([], false), [], [], map[], 0)

  /** The states an interleaving goes through, the initial one included. */
  ghost predicate Behaviour(states: seq<State>, actions: seq<Action>) {
    && |states| == |actions| + 1 && states[0] == EMPTY
    && forall i :: 0 <= i < |actions| ==> Enabled(states[i], actions[i]) && states[i + 1] == Step(states[i], actions[i])
  }

  ghost predicate Increasing(s: seq<nat>) {
    forall i, j :: 0 <= i < j < |s| ==> s[i] < s[j]
  }

  predicate Waits(s: State, r: nat) { r in s.box.queue }
  predicate Held(s: State, r: nat) { r in s.batch }
  predicate TakenOver(s: State, r: nat) { r in s.stopBatch }
  predicate Answered(s: State, r: nat) { r in s.replies }

  ghost predicate ExactlyOnePlace(s: State, r: nat) {
    && (Waits(s, r) || Held(s, r) || TakenOver(s, r) || Answered(s, r))
    && !(Waits(s, r) && Held(s, r)) && !(Waits(s, r) && TakenOver(s, r)) && !(Waits(s, r) && Answered(s, r))
    && !(Held(s, r) && TakenOver(s, r)) && !(Held(s, r) && Answered(s, r)) && !(TakenOver(s, r) && Answered(s, r))
  }

  ghost predicate Placed(s: State, r: nat) {
    if r < s.submitted then ExactlyOnePlace(s, r) else !Waits(s, r) && !Held(s, r) && !TakenOver(s, r) && !Answered(s, r)
  }

  ghost predicate MailboxInvariant(s: State) {
    && (forall r: nat :: Placed(s, r))
    && Increasing(s.batch + s.box.queue) && Increasing(s.stopBatch)
    && (s.box.stopped ==> s.box.queue == []) && (!s.box.stopped ==> s.stopBatch == [])
  }

  lemma SubmitKeeps(s: State)
    requires MailboxInvariant(s)
    ensures MailboxInvariant(Step(s, Submit))
  {
    var s' := Step(s, Submit);
    forall r: nat
      ensures Placed(s', r)
    {
      assert Placed(s, r);
    }
    if !s.box.stopped {
      var line := s.batch + s.box.queue;
      assert s'.batch + s'.box.queue == line + [s.submitted];
      forall i | 0 <= i < |line|
        ensures line[i] < s.submitted
      {
        assert Placed(s, line[i]) && (Held(s, line[i]) || Waits(s, line[i]));
      }
    }
  }

  lemma TakeKeeps(s: State)
    requires MailboxInvariant(s)
    ensures MailboxInvariant(Step(s, Take))
  {
    var s' := Step(s, Take);
    assert s'.batch + s'.box.queue == s.batch + s.box.queue;
    forall r: nat
      ensures Placed(s', r)
    {
      assert Placed(s, r);
    }
  }

  lemma WorkerCompletesKeeps(s: State, reply: Reply)
    requires MailboxInvariant(s) && s.batch != []
    ensures MailboxInvariant(Step(s, WorkerCompletes(reply)))
  {
    var s' := Step(s, WorkerCompletes(reply));
    FirstIsGone(s.batch, s.box.queue);
    forall r: nat
      ensures Placed(s', r)
    {
      assert Placed(s, r);
      assert Held(s, r) <==> Held(s', r) || r == s.batch[0];
    }
  }

  lemma StopKeeps(s: State)
    requires MailboxInvariant(s)
    ensures MailboxInvariant(Step(s, Stop))
  {
    var s' := Step(s, Stop);
    assert forall i :: 0 <= i < |s.box.queue| ==> s.box.queue[i] == (s.batch + s.box.queue)[|s.batch| + i];
    assert forall i :: 0 <= i < |s.batch| ==> s.batch[i] == (s.batch + s.box.queue)[i];
    forall r: nat
      ensures Placed(s', r)
    {
      assert Placed(s, r);
    }
  }

  lemma StopCompletesKeeps(s: State)
    requires MailboxInvariant(s) && s.stopBatch != []
    ensures MailboxInvariant(Step(s, StopCompletes))
  {
    var s' := Step(s, StopCompletes);
    assert s.stopBatch + [] == s.stopBatch && s'.stopBatch + [] == s'.stopBatch;
    FirstIsGone(s.stopBatch, []);
    forall r: nat
      ensures Placed(s', r)
    {
      assert Placed(s, r);
      assert TakenOver(s, r) <==> TakenOver(s', r) || r == s.stopBatch[0];
    }
  }

  lemma FirstIsGone(b: seq<nat>, rest: seq<nat>)
    requires b != [] && Increasing(b + rest)
    ensures Increasing(b[1..] + rest) && b[0] !in b[1..]
  {
    assert b[1..] + rest == (b + rest)[1..];
    assert forall i :: 1 <= i < |b| ==> (b + rest)[i] == b[i] && b[0] == (b + rest)[0];
  }

  /** Every interleaving: each submitted request is in exactly one place, the worker's batches and the mailbox keep
      submission order, and a stopped mailbox is empty. */
  lemma {:induction false} EveryStateIsConsistent(states: seq<State>, actions: seq<Action>, i: nat)
    requires Behaviour(states, actions) && i < |states|
    ensures MailboxInvariant(states[i])
  {
    if i > 0 {
      EveryStateIsConsistent(states, actions, i - 1);
      var s, a := states[i - 1], actions[i - 1];
      assert Enabled(states[i - 1], actions[i - 1]) && states[i - 1 + 1] == Step(s, a);
      match a {
        case Submit => SubmitKeeps(s);
        case Take => TakeKeeps(s);
        case WorkerCompletes(reply) => WorkerCompletesKeeps(s, reply);
        case Stop => StopKeeps(s);
        case StopCompletes => StopCompletesKeeps(s);
        case LateCompletion(_, _) => assert Step(s, a) == s;
      }
    }
  }

  /** A reply, once set, never changes; a stopped mailbox stays stopped. */
  lemma {:induction false} RepliesAreFinal(states: seq<State>, actions: seq<Action>, i: nat, j: nat, request: nat)
    requires Behaviour(states, actions) && i <= j < |states|
    ensures request in states[i].replies ==> request in states[j].replies && states[j].replies[request] == states[i].replies[request]
    ensures states[i].box.stopped ==> states[j].box.stopped && states[j].box.queue == []
    decreases j - i
  {
    EveryStateIsConsistent(states, actions, j);
    if i < j {
      RepliesAreFinal(states, actions, i, j - 1, request);
      assert Enabled(states[j - 1], actions[j - 1]) && states[j - 1 + 1] == Step(states[j - 1], actions[j - 1]);
    }
  }

  /** Nothing is lost or doubled: the four places together hold as many requests as were submitted. */
  lemma {:induction false} RequestsAreConserved(states: seq<State>, actions: seq<Action>, i: nat)
    requires Behaviour(states, actions) && i < |states|
    ensures var s := states[i]; |s.box.queue| + |s.batch| + |s.stopBatch| + |s.replies| == s.submitted
  {
    if i > 0 {
      RequestsAreConserved(states, actions, i - 1);
      EveryStateIsConsistent(states, actions, i - 1);
      var s, a := states[i - 1], actions[i - 1];
      assert Enabled(states[i - 1], actions[i - 1]) && states[i - 1 + 1] == Step(s, a);
      match a {
        case Submit => assert Placed(s, s.submitted);
        case WorkerCompletes(_) => assert Placed(s, s.batch[0]) && Held(s, s.batch[0]);
        case StopCompletes => assert Placed(s, s.stopBatch[0]) && TakenOver(s, s.stopBatch[0]);
        case _ =>
      }
    }
  }
}
