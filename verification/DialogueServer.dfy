/** The preferred submitter (src/LocalGooseDialoguePreferredSubmitter.cpp): submit the successor Task, then swap the
    thread head. The Task table and the thread sidecar share no transaction. */
module DialogueServerModel {
  import opened Base
  import opened Work
  import opened DialogueTasks
  import opened DialogueThread

  datatype Code = CodeAccepted | CodeDuplicate | CodeConflict | CodeInvalid | CodeUnavailable

  datatype Reply = Reply(code: Code, task: Option<Task>, head: Option<Head>)

  /** What the Runtime does with a submission; a failure may come before or after the Task is durable. */
  datatype SubmitReply = SubmitOk | SubmitRejected | SubmitFailsBefore | SubmitFailsAfter

  datatype Submission = Submission(alias: string, expected: U64, model: string, request: Request)

  datatype Faults = Faults(submit: SubmitReply, head: Fault)

  predicate SameRequest(t: Task, r: Request, root: TaskId, pred: TaskId) {
    && EligibleV3(t) && t.definition.v3.request == r
    && t.definition.v3.root == Some(root) && t.definition.v3.pred == Some(pred)
  }

  datatype Plan = Answer(reply: Reply) | Commit(task: Task)

  /** The head has moved: either the very request is already committed right after the expected revision, or it lost.
      The recognition needs the expected entry itself, which a journal that starts later does not have. */
  function PlanMoved(head: Head, journal: seq<Head>, tasks: TaskStore, x: Submission): Plan {
    var orphan := FindByKey(tasks, RequestKey(x.request.id));
    if x.expected < INT64_MAX && head.revision == x.expected + 1 && EntryAt(journal, x.expected).Some? then
      var before := EntryAt(journal, x.expected).value;
      var current := Find(tasks, head.task);
      if current.Some? && SameRequest(current.value, x.request, head.root, before.task) then
        Answer(Reply(CodeDuplicate, current, Some(head)))
      else if orphan.Some? && SameRequest(orphan.value, x.request, head.root, before.task) then
        Answer(Reply(CodeConflict, orphan, Some(head)))
      else Answer(Reply(CodeConflict, None, Some(head)))
    else Answer(Reply(CodeConflict, None, Some(head)))
  }

  function PlanCurrent(head: Head, tasks: TaskStore, x: Submission): Plan {
    if head.revision == INT64_MAX then Answer(Reply(CodeConflict, None, Some(head)))
    else
      var p := Find(tasks, head.task);
      if p.None? || DialogueRoot(p.value) != Some(head.root) then Answer(Reply(CodeConflict, None, Some(head)))
      else
        var made := MakeSuccessor(x.request, x.model, p.value);
        if made.None? then Answer(Reply(CodeInvalid, None, Some(head)))
        else
          var existing := FindByKey(tasks, made.value.key);
          if existing.Some? && !SameDefinition(existing.value, made.value) then Answer(Reply(CodeConflict, existing, Some(head)))
          else Commit(made.value)
  }

  /** The intended effect of one submission, given what the stores hold. */
  function PlanSubmit(heads: map<string, Head>, journals: map<string, seq<Head>>, tasks: TaskStore, x: Submission): Plan {
    if x.model == "" then Answer(Reply(CodeUnavailable, None, None))
    else if x.alias !in heads || x.alias !in journals then Answer(Reply(CodeConflict, None, None))
    else if heads[x.alias].revision != x.expected then PlanMoved(heads[x.alias], journals[x.alias], tasks, x)
    else PlanCurrent(heads[x.alias], tasks, x)
  }

  function NextHead(h: Head, t: Task): Head
    requires h.revision < UINT64_MAX
  {
    h.(revision := h.revision + 1, task := t.id)
  }

  /** `Runtime::submit` inserts a Task only when neither its id nor its key is taken. */
  function Submitted(tasks: TaskStore, t: Task, reply: SubmitReply): TaskStore {
    if (reply.SubmitOk? || reply.SubmitFailsAfter?) && Find(tasks, t.id).None? && FindByKey(tasks, t.key).None? then Insert(tasks, t)
    else tasks
  }

  ghost predicate ThreadsLinear(journals: map<string, seq<Head>>, tasks: TaskStore) {
    WellFormedStore(tasks) && forall a :: a in journals ==> Linear(tasks, journals[a])
  }

  lemma ThreadsStayLinear(journals: map<string, seq<Head>>, tasks: TaskStore, tasks': TaskStore)
    requires ThreadsLinear(journals, tasks) && WellFormedStore(tasks') && Evolves(tasks, tasks')
    ensures ThreadsLinear(journals, tasks')
  {
    forall a | a in journals
      ensures Linear(tasks', journals[a])
    {
      LinearStays(tasks, tasks', journals[a]);
    }
  }

  lemma SubmissionEvolves(tasks: TaskStore, t: Task, reply: SubmitReply)
    requires WellFormedStore(tasks)
    ensures WellFormedStore(Submitted(tasks, t, reply)) && Evolves(tasks, Submitted(tasks, t, reply))
  {
    hide WellFormedStore, Evolves;
    EvolvesReflexive(tasks);
    if Submitted(tasks, t, reply) != tasks {
      InsertEvolves(tasks, t);
    }
  }

  /** The head the submitter writes follows the head it read. */
  lemma CommitFollows(h: Head, tasks: TaskStore, x: Submission, t: Task, tasks': TaskStore)
    requires WellFormedStore(tasks) && Evolves(tasks, tasks') && ValidHead(h)
    requires PlanCurrent(h, tasks, x) == Commit(t)
    requires Find(tasks', t.id).Some? && SameDefinition(Find(tasks', t.id).value, t)
    ensures ValidHeadTransition(h, NextHead(h, t)) && Follows(tasks', h, NextHead(h, t))
    ensures Carries(tasks', NextHead(h, t), x.request.id)
  {
    hide Evolves, V2Success, V3Success;
    var p := tasks.rows[h.task];
    SuccessorIsLinked(x.request, x.model, p);
    assert h.task in tasks'.rows && tasks'.rows[h.task] == p by { SucceededIsFrozen(tasks, tasks', h.task); }
  }

  lemma SucceededIsFrozen(tasks: TaskStore, tasks': TaskStore, id: TaskId)
    requires Evolves(tasks, tasks') && id in tasks.rows && DialogueRoot(tasks.rows[id]).Some?
    ensures id in tasks'.rows && tasks'.rows[id] == tasks.rows[id]
  {
  }

  lemma LinearGrows(tasks: TaskStore, j: seq<Head>, r: Head)
    requires Linear(tasks, j) && j != [] && Follows(tasks, j[|j| - 1], r)
    ensures Linear(tasks, j + [r])
  {
    hide Follows, SuccessFor;
    var j' := j + [r];
    forall k | 0 <= k < |j'| - 1
      ensures Follows(tasks, j'[k], j'[k + 1])
    {
      assert k < |j| - 1 ==> Follows(tasks, j[k], j[k + 1]);
    }
  }

  /** The request sits in its thread's journal right after the revision it expected, under the reply's Task. */
  ghost predicate EntryFor(journals: map<string, seq<Head>>, tasks: TaskStore, x: Submission, reply: Reply) {
    && x.alias in journals && EntryAt(journals[x.alias], x.expected + 1).Some?
    && var entry := EntryAt(journals[x.alias], x.expected + 1).value;
    && reply.head == Some(entry) && entry.revision == x.expected + 1 && entry.alias == x.alias
    && reply.task.Some? && entry.task == reply.task.value.id
    && Carries(tasks, entry, x.request.id)
  }

  lemma CommittedIsEntry(before: seq<Head>, journals: map<string, seq<Head>>, tasks: TaskStore, x: Submission, reply: Reply)
    requires JournalOf(x.alias, before) && before[|before| - 1].revision == x.expected
    requires reply.head.Some? && reply.task.Some? && reply.head.value.task == reply.task.value.id
    requires reply.head.value.revision == x.expected + 1 && reply.head.value.alias == x.alias
    requires x.alias in journals && journals[x.alias] == before + [reply.head.value]
    requires Carries(tasks, reply.head.value, x.request.id)
    ensures EntryFor(journals, tasks, x, reply)
  {
    JournalIsContiguous(x.alias, before);
  }

  lemma DuplicateIsEntry(journals: map<string, seq<Head>>, tasks: TaskStore, x: Submission, h: Head, reply: Reply)
    requires WellFormedStore(tasks) && x.alias in journals && JournalOf(x.alias, journals[x.alias])
    requires h == journals[x.alias][|journals[x.alias]| - 1]
    requires PlanMoved(h, journals[x.alias], tasks, x) == Answer(reply) && reply.code == CodeDuplicate
    ensures EntryFor(journals, tasks, x, reply)
  {
    JournalIsContiguous(x.alias, journals[x.alias]);
  }

  /** A thread this program bound starts at revision 0, at a canonical success; `copied` names the threads a schema 1
      sidecar brought along. */
  ghost predicate BoundStarts(journals: map<string, seq<Head>>, tasks: TaskStore, copied: set<string>) {
    forall a :: a in journals && a !in copied ==>
      journals[a] != [] && journals[a][0].revision == 0 && SuccessFor(tasks, journals[a][0])
  }

  lemma BoundStartsStay(journals: map<string, seq<Head>>, tasks: TaskStore, tasks': TaskStore, copied: set<string>)
    requires BoundStarts(journals, tasks, copied) && Evolves(tasks, tasks')
    ensures BoundStarts(journals, tasks', copied)
  {
    forall a | a in journals && a !in copied
      ensures SuccessFor(tasks', journals[a][0])
    {
      SucceededIsFrozen(tasks, tasks', journals[a][0].task);
    }
  }

  class DialogueServer {
    const threads: ThreadStore
    var tasks: TaskStore
    ghost const copied: set<string>

    ghost predicate Valid()
      reads this, threads
    {
      threads.Valid() && ThreadsLinear(threads.journals, tasks) && BoundStarts(threads.journals, tasks, copied)
    }

    constructor (tasks: TaskStore)
      requires WellFormedStore(tasks)
      ensures Valid() && fresh(threads) && this.tasks == tasks && threads.journals == map[] && copied == {}
    {
      threads := new ThreadStore();
      this.tasks, copied := tasks, {};
    }

    /** Start over a schema 1 sidecar, whatever its heads point to. */
    constructor OverSchema1(tasks: TaskStore, heads: map<string, Head>)
      requires WellFormedStore(tasks) && forall a :: a in heads ==> heads[a].alias == a && ValidHead(heads[a])
      ensures Valid() && fresh(threads) && this.tasks == tasks && threads.heads == heads && copied == heads.Keys
    {
      threads := new ThreadStore.FromSchema1(heads);
      this.tasks, copied := tasks, heads.Keys;
    }

    /** Workers finish Tasks, other components add theirs. */
    method World(next: TaskStore)
      requires Valid() && WellFormedStore(next) && Evolves(tasks, next)
      modifies this`tasks
      ensures Valid() && tasks == next
    {
      ThreadsStayLinear(threads.journals, tasks, next);
      BoundStartsStay(threads.journals, tasks, next, copied);
      tasks := next;
    }

    /** The bind command: a thread starts at a canonical success, with the root that Task declares. */
    method Bind(alias: string, id: TaskId, fault: Fault) returns (result: WriteResult)
      requires Valid()
      modifies threads
      ensures Valid()
      ensures var t := Find(tasks, id);
        var head := if t.Some? && DialogueRoot(t.value).Some? then Some(Head(alias, 0, DialogueRoot(t.value).value, id)) else None;
        var binds := head.Some? && ValidHead(head.value) && alias !in old(threads.journals) && !fault.FailsBeforeCommit?;
        threads.journals == if binds then old(threads.journals)[alias := [head.value]] else old(threads.journals)
    {
      hide ThreadsLinear, JournalOf, SafeIdentifier, DialogueRoot;
      var t := Find(tasks, id);
      if t.None? {
        return WriteInvalid;
      }
      var root := DialogueRoot(t.value);
      if root.None? {
        return WriteInvalid;
      }
      BoundIsLinear(threads.journals, tasks, Head(alias, 0, root.value, id));
      result := threads.Seed(Head(alias, 0, root.value, id), fault);
    }

    /** `submit_local_goose_dialogue_v3_preferred`. */
    method Submit(x: Submission, faults: Faults) returns (reply: Reply)
      requires Valid()
      modifies this`tasks, threads
      ensures Valid()
      ensures SubmitEffect(PlanSubmit(old(threads.heads), old(threads.journals), old(tasks), x), x, faults,
                           old(threads.heads), old(threads.journals), old(tasks), threads.journals, tasks, reply)
      ensures reply.code == CodeAccepted || reply.code == CodeDuplicate ==> EntryFor(threads.journals, tasks, x, reply)
    {
      hide ThreadsLinear, PlanCurrent;
      if x.model == "" {
        return Reply(CodeUnavailable, None, None);
      }
      if x.alias !in threads.heads {
        return Reply(CodeConflict, None, None);
      }
      var head := threads.heads[x.alias];
      JournalIsContiguous(x.alias, threads.journals[x.alias]);
      if head.revision != x.expected {
        reply := Moved(head, x);
        if reply.code == CodeDuplicate {
          TableIsWellFormed(threads.journals, tasks);
          DuplicateIsEntry(threads.journals, tasks, x, head, reply);
        }
      } else {
        reply := Advance(head, x, faults);
      }
    }

    /** Retry recognition; changes nothing. */
    method Moved(head: Head, x: Submission) returns (reply: Reply)
      requires Valid() && x.alias in threads.heads && threads.heads[x.alias] == head && head.revision != x.expected
      requires JournalOf(x.alias, threads.journals[x.alias])
      ensures Answer(reply) == PlanMoved(head, threads.journals[x.alias], tasks, x)
    {
      hide ThreadsLinear, BoundStarts, HistoryFrom, SameRequest;
      JournalIsContiguous(x.alias, threads.journals[x.alias]);
      HistoryIsSlice(x.alias, threads.journals[x.alias], x.expected, 2);
      if x.expected >= INT64_MAX || head.revision != x.expected + 1 {
        return Reply(CodeConflict, None, Some(head));
      }
      var history := HistoryFrom(threads.journals[x.alias], x.expected, 2);
      if |history| == 2 && history[0].revision == x.expected && history[1].revision == x.expected + 1
         && history[1].task == head.task && history[0].root == head.root && history[1].root == head.root {
        var current := Find(tasks, head.task);
        if current.Some? && SameRequest(current.value, x.request, head.root, history[0].task) {
          return Reply(CodeDuplicate, current, Some(head));
        }
        var expected := FindByKey(tasks, RequestKey(x.request.id));
        if expected.Some? && SameRequest(expected.value, x.request, head.root, history[0].task) {
          return Reply(CodeConflict, expected, Some(head));
        }
      }
      return Reply(CodeConflict, None, Some(head));
    }

    /** Task first, head second. */
    method Advance(head: Head, x: Submission, faults: Faults) returns (reply: Reply)
      requires Valid() && x.alias in threads.heads && threads.heads[x.alias] == head && head.alias == x.alias
      modifies this`tasks, threads
      ensures Valid()
      ensures SubmitEffect(PlanCurrent(head, old(tasks), x), x, faults,
                           old(threads.heads), old(threads.journals), old(tasks), threads.journals, tasks, reply)
      ensures reply.code == CodeAccepted && head.revision == x.expected ==> EntryFor(threads.journals, tasks, x, reply)
      ensures reply.code != CodeDuplicate
    {
      hide ThreadsLinear, Linear, ValidHeadTransition, Follows, CommitEffect;
      TableIsWellFormed(threads.journals, tasks);
      HeadIsValid(x.alias, threads.journals[x.alias]);
      if head.revision == INT64_MAX {
        return Reply(CodeConflict, None, Some(head));
      }
      var predecessor := Find(tasks, head.task);
      if predecessor.None? {
        return Reply(CodeConflict, None, Some(head));
      }
      var root := DialogueRoot(predecessor.value);
      if root != Some(head.root) {
        return Reply(CodeConflict, None, Some(head));
      }
      var made := MakeSuccessor(x.request, x.model, predecessor.value);
      if made.None? {
        return Reply(CodeInvalid, None, Some(head));
      }
      var task := made.value;
      var existing := FindByKey(tasks, task.key);
      if existing.Some? && !SameDefinition(existing.value, task) {
        return Reply(CodeConflict, existing, Some(head));
      }
      reply := CommitTask(head, x, task, faults);
    }

    method CommitTask(head: Head, x: Submission, task: Task, faults: Faults) returns (reply: Reply)
      requires Valid() && x.alias in threads.heads && threads.heads[x.alias] == head && head.alias == x.alias && head.revision < INT64_MAX
      requires PlanCurrent(head, tasks, x) == Commit(task)
      modifies this`tasks, threads
      ensures Valid()
      ensures SubmitEffect(Commit(task), x, faults,
                           old(threads.heads), old(threads.journals), old(tasks), threads.journals, tasks, reply)
      ensures reply.code == CodeAccepted && head.revision == x.expected ==> EntryFor(threads.journals, tasks, x, reply)
      ensures reply.code != CodeDuplicate
    {
      hide ThreadsLinear, Linear, ValidHead, ValidHeadTransition, Follows, PlanCurrent, Carries, WellFormedStore, Evolves, EntryFor, JournalOf;
      TableIsWellFormed(threads.journals, tasks);
      var next := Submitted(tasks, task, faults.submit);
      SubmissionEvolves(tasks, task, faults.submit);
      ThreadsStayLinear(threads.journals, tasks, next);
      BoundStartsStay(threads.journals, tasks, next, copied);
      tasks := next;
      if faults.submit.SubmitRejected? {
        return Reply(CodeConflict, None, Some(head));
      }
      if !faults.submit.SubmitOk? {
        return Reply(CodeUnavailable, None, None);
      }
      var stored := Find(tasks, task.id);
      if stored.None? || !SameDefinition(stored.value, task) {
        return Reply(CodeUnavailable, None, Some(head));
      }
      HeadIsValid(x.alias, threads.journals[x.alias]);
      CommitFollows(head, old(tasks), x, task, tasks);
      var replacement := head.(revision := head.revision + 1, task := task.id);
      OneThreadGrows(threads.journals, tasks, x.alias, replacement);
      var write := threads.Replace(head, replacement, faults.head);
      reply := match write
        case WriteAccepted => Reply(CodeAccepted, stored, Some(replacement))
        case WriteDuplicate => Reply(CodeDuplicate, stored, Some(replacement))
        case WriteConflict => Reply(CodeConflict, stored, None)
        case WriteInvalid => Reply(CodeInvalid, stored, None)
        case WriteUnavailable => Reply(CodeUnavailable, stored, None);
      if write.WriteAccepted? && head.revision == x.expected {
        CommittedIsEntry(old(threads.journals)[x.alias], threads.journals, tasks, x, reply);
      }
    }
  }

  /** What one submission does. A commit may stop between its two durable writes. */
  ghost predicate SubmitEffect(plan: Plan, x: Submission, faults: Faults, heads: map<string, Head>, journals: map<string, seq<Head>>,
                               tasks: TaskStore, journals': map<string, seq<Head>>, tasks': TaskStore, reply: Reply) {
    match plan
    case Answer(r) => reply == r && journals' == journals && tasks' == tasks
    case Commit(t) => CommitEffect(t, x, faults, heads, journals, tasks, journals', tasks', reply)
  }

  ghost predicate CommitEffect(t: Task, x: Submission, faults: Faults, heads: map<string, Head>, journals: map<string, seq<Head>>,
                               tasks: TaskStore, journals': map<string, seq<Head>>, tasks': TaskStore, reply: Reply) {
    && x.alias in heads && x.alias in journals && heads[x.alias].revision < UINT64_MAX
    && tasks' == Submitted(tasks, t, faults.submit)
    && var stored := Find(tasks', t.id);
    var commits := faults.submit.SubmitOk? && stored.Some? && SameDefinition(stored.value, t);
    && journals' == (if commits && !faults.head.FailsBeforeCommit?
                     then journals[x.alias := journals[x.alias] + [NextHead(heads[x.alias], t)]] else journals)
    && reply == if faults.submit.SubmitRejected? then Reply(CodeConflict, None, Some(heads[x.alias]))
                else if !faults.submit.SubmitOk? then Reply(CodeUnavailable, None, None)
                else if !commits then Reply(CodeUnavailable, None, Some(heads[x.alias]))
                else if faults.head.Healthy? then Reply(CodeAccepted, stored, Some(NextHead(heads[x.alias], t)))
                else Reply(CodeUnavailable, stored, None)
  }

  lemma BoundIsLinear(journals: map<string, seq<Head>>, tasks: TaskStore, h: Head)
    requires ThreadsLinear(journals, tasks) && SuccessFor(tasks, h)
    ensures ThreadsLinear(journals[h.alias := [h]], tasks)
  {
  }

  lemma TableIsWellFormed(journals: map<string, seq<Head>>, tasks: TaskStore)
    requires ThreadsLinear(journals, tasks)
    ensures WellFormedStore(tasks)
  {
  }

  lemma HeadIsValid(alias: string, j: seq<Head>)
    requires JournalOf(alias, j)
    ensures j != [] && ValidHead(j[|j| - 1])
  {
    JournalIsContiguous(alias, j);
  }

  lemma OneThreadGrows(journals: map<string, seq<Head>>, tasks: TaskStore, alias: string, r: Head)
    requires ThreadsLinear(journals, tasks) && alias in journals && journals[alias] != []
    requires Follows(tasks, journals[alias][|journals[alias]| - 1], r)
    ensures ThreadsLinear(journals[alias := journals[alias] + [r]], tasks)
  {
    hide Follows, WellFormedStore;
    LinearGrows(tasks, journals[alias], r);
  }

  // --- Losing a reply, losing a process ------------------------------------------------------------------------

  ghost predicate StateOf(heads: map<string, Head>, journals: map<string, seq<Head>>, tasks: TaskStore, alias: string) {
    && WellFormedStore(tasks) && alias in heads && alias in journals
    && JournalOf(alias, journals[alias]) && heads[alias] == journals[alias][|journals[alias]| - 1]
  }

  /** A crash between the Task and the head loses nothing: until somebody else moves the head, resubmitting the same
      request plans the very same commit, whatever became of the Task meanwhile. */
  lemma CrashThenRetryCommits(heads: map<string, Head>, journals: map<string, seq<Head>>, tasks: TaskStore, tasks': TaskStore,
                              x: Submission, t: Task)
    requires StateOf(heads, journals, tasks, x.alias) && WellFormedStore(tasks')
    requires PlanSubmit(heads, journals, tasks, x) == Commit(t)
    requires Evolves(Submitted(tasks, t, SubmitOk), tasks')
    requires Find(Submitted(tasks, t, SubmitOk), t.id).Some? && SameDefinition(Find(Submitted(tasks, t, SubmitOk), t.id).value, t)
    ensures PlanSubmit(heads, journals, tasks', x) == Commit(t)
  {
    hide V2Success, V3Success, ValidHead, JournalOf;
    SubmissionEvolves(tasks, t, SubmitOk);
    var h := heads[x.alias];
    SucceededIsFrozen(tasks, tasks', h.task);
    assert SameDefinition(tasks'.rows[t.id], t);
  }

  /** A lost reply loses nothing either: until somebody else commits on top, resubmitting the same request is
      answered as a duplicate that names the committed Task and head. The one exception is a sidecar upgraded between
      the two: its journal starts at the committed head, and the retry is answered as a conflict. */
  lemma LostReplyIsRecognised(heads: map<string, Head>, journals: map<string, seq<Head>>, tasks: TaskStore, x: Submission, t: Task,
                              heads': map<string, Head>, journals': map<string, seq<Head>>, tasks': TaskStore)
    requires StateOf(heads, journals, tasks, x.alias) && StateOf(heads', journals', tasks', x.alias)
    requires PlanSubmit(heads, journals, tasks, x) == Commit(t)
    requires heads[x.alias].revision < UINT64_MAX
    requires var next := NextHead(heads[x.alias], t);
      journals'[x.alias] == journals[x.alias] + [next] || journals'[x.alias] == [next]
    requires t.id in tasks'.rows && SameDefinition(tasks'.rows[t.id], t)
    ensures var reply := PlanSubmit(heads', journals', tasks', x);
      && (reply == Answer(Reply(CodeDuplicate, Some(tasks'.rows[t.id]), Some(NextHead(heads[x.alias], t))))
          <==> EntryAt(journals'[x.alias], x.expected).Some?)
      && (reply == Answer(Reply(CodeConflict, None, Some(NextHead(heads[x.alias], t))))
          <==> journals'[x.alias] == [NextHead(heads[x.alias], t)])
  {
    var h, j := heads[x.alias], journals[x.alias];
    JournalIsContiguous(x.alias, j);
    SuccessorIsLinked(x.request, x.model, tasks.rows[h.task]);
    assert h == j[|j| - 1];
  }
}
