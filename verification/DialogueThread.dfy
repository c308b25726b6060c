/** Dialogue threads (src/LocalGooseDialogueThreadStore.cpp): a head per alias and the journal of all its heads. */
module DialogueThread {
  import opened Base
  import opened Work
  import opened DialogueTasks

  datatype Head = Head(alias: string, revision: U64, root: TaskId, task: TaskId)

  predicate ValidHead(h: Head) {
    SafeIdentifier(h.alias, MAX_ID_BYTES) && h.revision <= INT64_MAX && DialogueTaskId(h.root) && DialogueTaskId(h.task)
  }

  predicate ValidHeadTransition(e: Head, r: Head) {
    && ValidHead(e) && ValidHead(r) && e.alias == r.alias && e.root == r.root
    && e.revision < INT64_MAX && r.revision == e.revision + 1 && r.task != e.task
  }

  /** A journal is a run of consecutive revisions of one alias and one root. It starts at the revision the thread was
      bound with, or at the head a schema 1 sidecar had when it was upgraded. */
  ghost predicate JournalOf(alias: string, j: seq<Head>) {
    && j != [] && j[0].alias == alias && ValidHead(j[0])
    && forall k :: 0 <= k < |j| - 1 ==> ValidHeadTransition(j[k], j[k + 1])
  }

  /** SELECT of one revision. */
  function EntryAt(j: seq<Head>, revision: int): (r: Option<Head>) {
    if j != [] && j[0].revision <= revision < j[0].revision + |j| then Some(j[revision - j[0].revision]) else None
  }

  lemma {:induction false} JournalIsContiguous(alias: string, j: seq<Head>)
    requires JournalOf(alias, j)
    ensures forall k :: 0 <= k < |j| ==>
      ValidHead(j[k]) && j[k].revision == j[0].revision + k && j[k].alias == alias && j[k].root == j[0].root
  {
    if |j| > 1 {
      var init := j[..|j| - 1];
      forall k | 0 <= k < |init| - 1
        ensures ValidHeadTransition(init[k], init[k + 1])
      {
        assert ValidHeadTransition(j[k], j[k + 1]);
      }
      JournalIsContiguous(alias, init);
      assert init[|init| - 1] == j[|j| - 2];
      assert ValidHeadTransition(j[|j| - 2], j[|j| - 2 + 1]);
    }
  }

  /** `history_from`: SELECT of the entries from a revision on, in order, up to a limit. */
  function HistoryFrom(j: seq<Head>, first: int, limit: nat): seq<Head> {
    if j == [] || limit == 0 then []
    else if j[0].revision >= first then [j[0]] + HistoryFrom(j[1..], first, limit - 1)
    else HistoryFrom(j[1..], first, limit)
  }

  function Clamp(x: int, high: nat): (r: nat)
    ensures r <= high
  {
    if x < 0 then 0 else if x > high then high else x
  }

  lemma {:induction false} HistoryTakes(j: seq<Head>, first: int, limit: nat)
    requires forall k :: 0 <= k < |j| ==> j[k].revision >= first
    ensures HistoryFrom(j, first, limit) == j[..Clamp(limit, |j|)]
  {
    if j != [] && limit > 0 {
      HistoryTakes(j[1..], first, limit - 1);
    }
  }

  lemma {:induction false} HistorySkips(j: seq<Head>, first: int, limit: nat, skip: nat)
    requires skip <= |j| && limit > 0 && forall k :: 0 <= k < skip ==> j[k].revision < first
    ensures HistoryFrom(j, first, limit) == HistoryFrom(j[skip..], first, limit)
  {
    if skip > 0 {
      HistorySkips(j[1..], first, limit, skip - 1);
      assert j[1..][skip - 1..] == j[skip..];
    }
  }

  /** In a journal the selected entries are one slice, which starts at that revision or at the first entry above it. */
  lemma HistoryIsSlice(alias: string, j: seq<Head>, first: int, limit: nat)
    requires JournalOf(alias, j)
    ensures var skip := Clamp(first - j[0].revision, |j|);
      HistoryFrom(j, first, limit) == j[skip..skip + Clamp(limit, |j| - skip)]
  {
    hide ValidHead, ValidHeadTransition;
    JournalIsContiguous(alias, j);
    var skip := Clamp(first - j[0].revision, |j|);
    if limit > 0 {
      HistorySkips(j, first, limit, skip);
      HistoryTakes(j[skip..], first, limit);
    }
  }

  lemma JournalGrows(alias: string, j: seq<Head>, r: Head)
    requires JournalOf(alias, j) && ValidHeadTransition(j[|j| - 1], r)
    ensures JournalOf(alias, j + [r])
  {
    hide ValidHeadTransition, ValidHead;
    var j' := j + [r];
    forall k | 0 <= k < |j'| - 1
      ensures ValidHeadTransition(j'[k], j'[k + 1])
    {
      assert k < |j| - 1 ==> ValidHeadTransition(j[k], j[k + 1]);
    }
  }

  class ThreadStore {
    var heads: map<string, Head>
    var journals: map<string, seq<Head>>

    ghost predicate Valid()
      reads this
    {
      && heads.Keys == journals.Keys
      && forall a :: a in journals ==> JournalOf(a, journals[a]) && heads[a] == journals[a][|journals[a]| - 1]
    }

    constructor ()
      ensures Valid() && journals == map[]
    {
      heads, journals := map[], map[];
    }

    /** Opening a schema 1 sidecar: it only kept the heads, and they become the first entries of the journals. */
    constructor FromSchema1(heads: map<string, Head>)
      requires forall a :: a in heads ==> heads[a].alias == a && ValidHead(heads[a])
      ensures Valid() && this.heads == heads
      ensures journals.Keys == heads.Keys && forall a :: a in journals ==> journals[a] == [heads[a]]
    {
      this.heads, journals := heads, map a | a in heads :: [heads[a]];
    }

    method Seed(h: Head, fault: Fault) returns (result: WriteResult)
      requires Valid()
      modifies this
      ensures Valid()
      ensures result.WriteInvalid? <==> !(ValidHead(h) && h.revision == 0)
      ensures var inserts := ValidHead(h) && h.revision == 0 && h.alias !in old(journals) && !fault.FailsBeforeCommit?;
        && journals == (if inserts then old(journals)[h.alias := [h]] else old(journals))
        && (result.WriteAccepted? <==> inserts && fault.Healthy?)
      ensures result.WriteDuplicate? ==> h.alias in old(heads) && old(heads)[h.alias] == h
    {
      if !ValidHead(h) || h.revision != 0 {
        return WriteInvalid;
      }
      if fault.FailsBeforeCommit? {
        return WriteUnavailable;
      }
      if h.alias in heads {
        return if heads[h.alias] == h then WriteDuplicate else WriteConflict;
      }
      heads, journals := heads[h.alias := h], journals[h.alias := [h]];
      result := if fault.FailsAfterCommit? then WriteUnavailable else WriteAccepted;
    }

    /** Compare-and-swap on the whole row; the journal is extended in the same transaction. */
    method Replace(expected: Head, replacement: Head, fault: Fault) returns (result: WriteResult)
      requires Valid()
      modifies this
      ensures Valid()
      ensures result.WriteInvalid? <==> !ValidHeadTransition(expected, replacement)
      ensures var swaps := ValidHeadTransition(expected, replacement) && expected.alias in old(heads)
                && old(heads)[expected.alias] == expected && !fault.FailsBeforeCommit?;
        && journals == (if swaps then old(journals)[expected.alias := old(journals)[expected.alias] + [replacement]] else old(journals))
        && (result.WriteAccepted? <==> swaps && fault.Healthy?)
      ensures result.WriteDuplicate? ==> expected.alias in old(heads) && old(heads)[expected.alias] == replacement
      ensures result.WriteConflict? ==> !(expected.alias in old(heads) && old(heads)[expected.alias] == expected)
      ensures result.WriteUnavailable? ==> !fault.Healthy?
    {
      hide JournalOf, ValidHead;
      if !ValidHeadTransition(expected, replacement) {
        return WriteInvalid;
      }
      if fault.FailsBeforeCommit? {
        return WriteUnavailable;
      }
      if expected.alias !in heads {
        return WriteConflict;
      }
      if heads[expected.alias] == replacement {
        return WriteDuplicate;
      }
      if heads[expected.alias] != expected {
        return WriteConflict;
      }
      JournalGrows(expected.alias, journals[expected.alias], replacement);
      heads := heads[expected.alias := replacement];
      journals := journals[expected.alias := journals[expected.alias] + [replacement]];
      result := if fault.FailsAfterCommit? then WriteUnavailable else WriteAccepted;
    }
  }

  // --- What the Task table says about a journal ---------------------------------------------------------------

  ghost predicate SuccessFor(tasks: TaskStore, h: Head) {
    h.task in tasks.rows && DialogueRoot(tasks.rows[h.task]) == Some(h.root)
  }

  ghost predicate Follows(tasks: TaskStore, e: Head, r: Head) {
    SuccessFor(tasks, e) && r.task in tasks.rows && Succeeds(tasks.rows[e.task], tasks.rows[r.task], e.root)
  }

  /** Linear: each later entry is the successor of the one before, which by then had succeeded. */
  ghost predicate Linear(tasks: TaskStore, j: seq<Head>) {
    forall k :: 0 <= k < |j| - 1 ==> Follows(tasks, j[k], j[k + 1])
  }

  /** Terminal Tasks are frozen, so nothing anyone does to the Task table can bend a journal. */
  lemma LinearStays(tasks: TaskStore, tasks': TaskStore, j: seq<Head>)
    requires Linear(tasks, j) && Evolves(tasks, tasks')
    ensures Linear(tasks', j)
  {
    forall k | 0 <= k < |j| - 1
      ensures Follows(tasks', j[k], j[k + 1])
    {
      assert Follows(tasks, j[k], j[k + 1]);
    }
  }

  /** The turn counts the revisions, so no Task is ever the head of one thread twice. */
  lemma {:induction false} TurnsCountRevisions(tasks: TaskStore, j: seq<Head>, i: nat, k: nat)
    requires Linear(tasks, j) && i < k < |j|
    ensures j[i].task in tasks.rows && j[k].task in tasks.rows
    ensures Turn(tasks.rows[j[k].task]) == Turn(tasks.rows[j[i].task]) + (k - i)
    decreases k
  {
    assert Follows(tasks, j[k - 1], j[k - 1 + 1]);
    if i < k - 1 {
      TurnsCountRevisions(tasks, j, i, k - 1);
    }
  }

  lemma HeadsAreDistinct(tasks: TaskStore, j: seq<Head>, i: nat, k: nat)
    requires Linear(tasks, j) && i < |j| && k < |j| && j[i].task == j[k].task
    ensures i == k
  {
    if i < k {
      TurnsCountRevisions(tasks, j, i, k);
    } else if k < i {
      TurnsCountRevisions(tasks, j, k, i);
    }
  }

  /** The journal entry's Task is the one that carries this request. */
  ghost predicate Carries(tasks: TaskStore, h: Head, requestId: string) {
    h.task in tasks.rows && EligibleV3(tasks.rows[h.task]) && tasks.rows[h.task].definition.v3.request.id == requestId
  }

  /** At most one entry of a journal ever carries a request id. */
  lemma AtMostOneEntry(tasks: TaskStore, j: seq<Head>, requestId: string, i: nat, k: nat)
    requires WellFormedStore(tasks) && Linear(tasks, j) && i < |j| && k < |j|
    requires Carries(tasks, j[i], requestId) && Carries(tasks, j[k], requestId)
    ensures i == k
  {
    var a, b := tasks.rows[j[i].task], tasks.rows[j[k].task];
    assert a.key == RequestKey(requestId) == b.key;
    assert tasks.keys[a.key] == j[i].task && tasks.keys[b.key] == j[k].task;
    HeadsAreDistinct(tasks, j, i, k);
  }

  /** Every entry but the newest has succeeded canonically: only the newest head can be unfinished. */
  lemma OlderEntriesSucceeded(tasks: TaskStore, j: seq<Head>, k: nat)
    requires Linear(tasks, j) && k < |j| - 1
    ensures SuccessFor(tasks, j[k]) && tasks.rows[j[k].task].status == Succeeded
  {
    assert Follows(tasks, j[k], j[k + 1]);
  }
}
