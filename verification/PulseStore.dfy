/** The cursor of the autonomous cognition pulse (src/AutonomousCognitionPulseStore.cpp) and the transition
    relation its store never checks. */
module PulseStoreModel {
  import opened Base
  import opened CognitionTasks

  const CONTINUE_CADENCE_MS: I64 := 6 * 3_600_000
  const QUIESCENT_CADENCE_MS: I64 := 24 * 3_600_000

  datatype PulseState = Idle | Preparing | Prepared | Blocked | Quiescent

  datatype BlockReason =
    | TaskMissing | TaskFailed | ResultNotCanonical | DeadlineOverflows | PredecessorNotCanonical
    | ObservationStale | PredecessorChanged | BudgetNotAccepted | SnapshotFailed | ClaimFailed

  /** One row; the scope is fixed. `None` stands for an empty Task id or block reason. */
  datatype Cursor = Cursor(
    revision: U64, generation: U64, state: PulseState, predTask: TaskId, predHash: Digest,
    anchor: I64, due: I64, observed: Option<I64>, snapshotTask: Option<TaskId>, currentTask: Option<TaskId>,
    blocked: Option<BlockReason>)

  predicate ValidCursor(c: Cursor) {
    && c.revision <= INT64_MAX && c.generation <= INT64_MAX
    && c.anchor >= 0 && c.due >= c.anchor
    && (c.observed.Some? ==> c.observed.value >= 0)
    && match c.state
       case Idle => c.observed.None? && c.snapshotTask.None? && c.currentTask.None? && c.blocked.None?
       case Quiescent => c.observed.None? && c.snapshotTask.None? && c.currentTask.None? && c.blocked.None?
       case Preparing => c.observed.Some? && c.snapshotTask.None? && c.currentTask.None? && c.blocked.None?
       case Prepared => c.observed.Some? && c.snapshotTask.Some? && c.currentTask.Some? && c.blocked.None?
       case Blocked => c.blocked.Some?
  }

  /** Everything the store itself asks of a replacement: no state relation at all. */
  predicate StoreAllows(e: Cursor, r: Cursor) {
    ValidCursor(e) && ValidCursor(r) && e.revision != INT64_MAX && r.revision == e.revision + 1
  }

  ghost predicate StoreChain(log: seq<Cursor>) {
    && (log != [] ==> ValidCursor(log[0]) && log[0].revision == 0)
    && forall i :: 0 <= i < |log| - 1 ==> StoreAllows(log[i], log[i + 1])
  }

  class PulseStore {
    var row: Option<Cursor>
    ghost var log: seq<Cursor>

    ghost predicate Valid()
      reads this
    {
      && (row.None? <==> log == [])
      && (row.Some? ==> log[|log| - 1] == row.value && ValidCursor(row.value))
      && StoreChain(log)
    }

    constructor ()
      ensures Valid() && row == None && log == []
    {
      row, log := None, [];
    }

    method Seed(c: Cursor, fault: Fault) returns (result: WriteResult)
      requires Valid()
      modifies this
      ensures Valid()
      ensures var inserts := ValidCursor(c) && c.revision == 0 && old(row).None? && !fault.FailsBeforeCommit?;
        && log == (if inserts then [c] else old(log))
        && (result.WriteAccepted? <==> inserts && fault.Healthy?)
      ensures result.WriteInvalid? <==> !(ValidCursor(c) && c.revision == 0)
      ensures result.WriteDuplicate? ==> old(row) == Some(c)
      ensures result.WriteConflict? ==> old(row).Some? && old(row) != Some(c)
    {
      if !ValidCursor(c) || c.revision != 0 {
        return WriteInvalid;
      }
      if fault.FailsBeforeCommit? {
        return WriteUnavailable;
      }
      if row.Some? {
        return if row.value == c then WriteDuplicate else WriteConflict;
      }
      row, log := Some(c), [c];
      result := if fault.FailsAfterCommit? then WriteUnavailable else WriteAccepted;
    }

    /** Compare-and-swap guarded by the revision alone; a revision names one committed cursor, so this is as
        strong as comparing rows whenever `expected` was read from this store. */
    method Replace(expected: Cursor, replacement: Cursor, fault: Fault) returns (result: WriteResult)
      requires Valid() && expected in log
      modifies this
      ensures Valid()
      ensures var swaps := StoreAllows(expected, replacement) && old(row) == Some(expected) && !fault.FailsBeforeCommit?;
        && row == (if swaps then Some(replacement) else old(row))
        && log == (if swaps then old(log) + [replacement] else old(log))
        && (result.WriteAccepted? <==> swaps && fault.Healthy?)
      ensures result.WriteInvalid? <==> !StoreAllows(expected, replacement)
      ensures result.WriteDuplicate? ==> old(row) == Some(replacement)
      ensures result.WriteConflict? ==> old(row) != Some(expected) && old(row) != Some(replacement)
      ensures result.WriteUnavailable? ==> !fault.Healthy?
    {
      if !StoreAllows(expected, replacement) {
        return WriteInvalid;
      }
      if fault.FailsBeforeCommit? {
        return WriteUnavailable;
      }
      PulseRevisionIsIndex(log);
      if row.None? || row.value.revision != expected.revision {
        return if row == Some(replacement) then WriteDuplicate else WriteConflict;
      }
      row, log := Some(replacement), log + [replacement];
      result := if fault.FailsAfterCommit? then WriteUnavailable else WriteAccepted;
    }
  }

  lemma {:induction false} PulseRevisionIsIndex(log: seq<Cursor>)
    requires StoreChain(log)
    ensures forall i :: 0 <= i < |log| ==> ValidCursor(log[i]) && log[i].revision == i
  {
    if |log| > 1 {
      var init := log[..|log| - 1];
      forall i | 0 <= i < |init| - 1
        ensures StoreAllows(init[i], init[i + 1])
      {
        assert StoreAllows(log[i], log[i + 1]);
      }
      PulseRevisionIsIndex(init);
      assert init[|init| - 1] == log[|log| - 2];
      assert StoreAllows(log[|log| - 2], log[|log| - 2 + 1]);
    }
  }

  // --- The transition relation the services follow --------------------------------------------------------

  predicate SameOpportunity(e: Cursor, r: Cursor) {
    && r.generation == e.generation && r.predTask == e.predTask && r.predHash == e.predHash
    && r.anchor == e.anchor && r.due == e.due
  }

  predicate Blocks(e: Cursor, r: Cursor) {
    && r.state.Blocked? && SameOpportunity(e, r)
    && r.observed == e.observed && r.snapshotTask == e.snapshotTask && r.currentTask == e.currentTask
  }

  predicate Freezes(e: Cursor, r: Cursor) {
    (e.state.Idle? || e.state.Quiescent?) && r.state.Preparing? && SameOpportunity(e, r) && r.observed.Some? && r.observed.value >= r.due
  }

  predicate Prepares(e: Cursor, r: Cursor) {
    e.state.Preparing? && r.state.Prepared? && SameOpportunity(e, r) && r.observed == e.observed
  }

  /** A canonical success of the current Task starts the next generation from the clock reading of its settlement. */
  predicate Settles(e: Cursor, r: Cursor) {
    && e.state.Prepared? && (r.state.Idle? || r.state.Quiescent?)
    && r.generation == e.generation + 1 && Some(r.predTask) == e.currentTask
    && r.anchor >= e.anchor
    && r.due == r.anchor + (if r.state.Quiescent? then QUIESCENT_CADENCE_MS else CONTINUE_CADENCE_MS)
  }

  /** A stale, unspent Task is retired: the same generation is due again. */
  predicate Resets(e: Cursor, r: Cursor) {
    e.state.Prepared? && r.state.Idle? && SameOpportunity(e, r)
  }

  predicate PulseTransition(e: Cursor, r: Cursor) {
    && StoreAllows(e, r) && !e.state.Blocked?
    && (Blocks(e, r) || Freezes(e, r) || Prepares(e, r) || Settles(e, r) || Resets(e, r))
  }

  ghost predicate PulseChain(log: seq<Cursor>) {
    && (log != [] ==> ValidCursor(log[0]) && log[0].revision == 0 && log[0].generation == 0 && (log[0].state.Idle? || log[0].state.Quiescent?))
    && forall i :: 0 <= i < |log| - 1 ==> PulseTransition(log[i], log[i + 1])
  }

  /** observed >= due >= anchor whenever an observation is frozen. */
  predicate Timely(c: Cursor) {
    c.anchor <= c.due && (c.observed.Some? ==> c.due <= c.observed.value)
  }

  lemma {:induction false} EveryCursorIsTimely(log: seq<Cursor>, i: nat)
    requires PulseChain(log) && i < |log|
    ensures Timely(log[i])
  {
    if i > 0 {
      EveryCursorIsTimely(log, i - 1);
      assert PulseTransition(log[i - 1], log[i - 1 + 1]);
    }
  }

  /** The whole run: generations never fall, the anchor never goes back, and deadline, anchor and predecessor
      change only together with the generation. Nothing follows a blocked cursor. */
  lemma {:induction false} GenerationOwnsTheDeadline(log: seq<Cursor>, i: nat, j: nat)
    requires PulseChain(log) && i < j < |log|
    ensures log[i].generation <= log[j].generation && log[i].anchor <= log[j].anchor
    ensures log[i].generation == log[j].generation ==> SameOpportunity(log[i], log[j])
    ensures !log[i].state.Blocked?
    decreases j - i
  {
    assert PulseTransition(log[i], log[i + 1]);
    if i + 1 < j {
      GenerationOwnsTheDeadline(log, i + 1, j);
    }
  }

  /** Two prepared cursors of one generation can only be separated by a reset right after the first. */
  lemma SameGenerationMeansReset(log: seq<Cursor>, i: nat, j: nat)
    requires PulseChain(log) && i < j < |log|
    requires log[i].state.Prepared? && log[i].generation == log[j].generation && !log[j].state.Blocked?
    ensures Resets(log[i], log[i + 1])
  {
    assert PulseTransition(log[i], log[i + 1]);
    if i + 1 < j {
      GenerationOwnsTheDeadline(log, i + 1, j);
    }
  }

  /** The store alone enforces none of this: it accepts a replacement that moves the deadline past the frozen
      observation without a new generation. */
  lemma StoreAllowsUntimely() returns (e: Cursor, r: Cursor)
    ensures StoreAllows(e, r) && Timely(e) && !Timely(r) && r.state.Prepared? && e.generation == r.generation
  {
    var id, hash := OtherId("p"), Sha256(OtherBytes("p"));
    e := Cursor(0, 0, Preparing, id, hash, 0, 5, Some(5), None, None, None);
    r := Cursor(1, 0, Prepared, id, hash, 0, 9, Some(5), Some(id), Some(id), None);
  }
}
