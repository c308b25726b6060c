/** The durable cursor of the self-scheduling local cycle (src/LocalGooseCycleStore.cpp). */
module CycleStoreModel {
  import opened Base
  import opened LocalGooseCycle
  import opened Work

  datatype CycleState = Dormant | Scheduled | Prepared | Blocked

  datatype BlockReason =
    | CannotDerive | CaptureNotCanonical | IdentityDiffers | TaskConflicts | SubmissionRejected | NonSuccess
    | NonCanonicalSuccess | DeadlineOverflows | SettlementNotCanonical | ExecutionConflict

  /** One row; the scope is fixed. `None` stands for the empty Task id and the empty block reason. */
  datatype Cursor = Cursor(
    revision: U64, generation: U64, state: CycleState,
    anchorTask: TaskId, anchorHash: Digest,
    predTask: Option<TaskId>, predHash: Option<Digest>,
    due: Option<I64>, captured: Option<I64>,
    currentTask: Option<TaskId>, blocked: Option<BlockReason>)

  predicate PredecessorShape(c: Cursor) {
    if c.generation <= 1 then c.predTask.None? && c.predHash.None?
    else c.predTask.Some? && c.predHash.Some? && c.predTask.value.CycleId?
  }

  predicate ValidCursor(c: Cursor) {
    && c.revision <= INT64_MAX && c.generation <= INT64_MAX
    && c.anchorTask.ObservationId?
    && PredecessorShape(c)
    && (c.due.Some? ==> c.due.value >= 0) && (c.captured.Some? ==> c.captured.value >= 0)
    && match c.state
       case Dormant =>
         c.generation != 1 && c.due.None? && c.captured.None? && c.currentTask.None? && c.blocked.None?
       case Scheduled =>
         c.generation >= 1 && c.due.Some? && c.captured.None? && c.currentTask.None? && c.blocked.None?
       case Prepared =>
         && c.generation >= 1 && c.due.Some? && c.captured.Some? && c.captured.value >= c.due.value
         && c.currentTask.Some? && c.currentTask.value.CycleId? && c.blocked.None?
       case Blocked => c.blocked.Some?
  }

  predicate SamePredecessor(a: Cursor, b: Cursor) {
    a.predTask == b.predTask && a.predHash == b.predHash
  }

  predicate SameOpportunity(a: Cursor, b: Cursor) {
    && a.generation == b.generation && SamePredecessor(a, b)
    && a.due == b.due && a.captured == b.captured && a.currentTask == b.currentTask
  }

  predicate ValidTransition(e: Cursor, r: Cursor) {
    && ValidCursor(e) && ValidCursor(r)
    && e.anchorTask == r.anchorTask && e.anchorHash == r.anchorHash
    && e.revision != INT64_MAX && r.revision == e.revision + 1
    && !e.state.Blocked?
    && if r.state.Blocked? then SameOpportunity(e, r)
       else match e.state
            case Dormant =>
              r.state.Scheduled? && r.generation == (if e.generation == 0 then 1 else e.generation) && SamePredecessor(e, r)
            case Scheduled =>
              r.state.Prepared? && r.generation == e.generation && r.due == e.due && SamePredecessor(e, r)
            case Prepared =>
              && r.predTask == e.currentTask && r.predHash.Some?
              && (r.state.Dormant? || r.state.Scheduled?) && r.generation == e.generation + 1
            case Blocked => false
  }

  predicate SeedCursor(c: Cursor) {
    ValidCursor(c) && c.revision == 0 && c.generation == 0 && c.state.Dormant?
  }

  /** One committed write: the row and the clock reading of the service that wrote it. */
  datatype Entry = Entry(cursor: Cursor, at: int)

  ghost predicate Chain(log: seq<Entry>) {
    && (log != [] ==> SeedCursor(log[0].cursor))
    && forall i :: 0 <= i < |log| - 1 ==> ValidTransition(log[i].cursor, log[i + 1].cursor)
  }

  /** A durable write of a stimulus: a dormant cursor of generation 2 or later becomes scheduled again. */
  predicate IsRearm(e: Cursor, r: Cursor) {
    e.state.Dormant? && e.generation >= 2 && r.state.Scheduled?
  }

  class CycleStore {
    var row: Option<Cursor>
    ghost var log: seq<Entry>

    ghost predicate Valid()
      reads this
    {
      && (row.None? <==> log == [])
      && (row.Some? ==> log[|log| - 1].cursor == row.value && ValidCursor(row.value))
      && Chain(log)
    }

    constructor ()
      ensures Valid() && row == None && log == []
    {
      row, log := None, [];
    }

    method Seed(c: Cursor, fault: Fault, ghost at: int) returns (result: WriteResult)
      requires Valid()
      modifies this
      ensures Valid()
      ensures result.WriteInvalid? <==> !SeedCursor(c)
      ensures result.WriteDuplicate? ==> old(row) == Some(c)
      ensures result.WriteConflict? ==> old(row).Some? && old(row) != Some(c)
      ensures var inserts := SeedCursor(c) && old(row).None? && !fault.FailsBeforeCommit?;
        && row == (if inserts then Some(c) else old(row))
        && log == (if inserts then [Entry(c, at)] else old(log))
        && (result.WriteAccepted? <==> inserts && fault.Healthy?)
    {
      if !SeedCursor(c) {
        return WriteInvalid;
      }
      if fault.FailsBeforeCommit? {
        return WriteUnavailable;
      }
      if row.Some? {
        return if row.value == c then WriteDuplicate else WriteConflict;
      }
      row, log := Some(c), [Entry(c, at)];
      result := if fault.FailsAfterCommit? then WriteUnavailable else WriteAccepted;
    }

    /** Compare-and-swap whose SQL guard is the revision alone. When `expected` was read from this store it is
        as strong as comparing whole rows, and the history stays a chain of legal transitions. */
    method Replace(expected: Cursor, replacement: Cursor, fault: Fault, ghost at: int) returns (result: WriteResult)
      requires Valid()
      requires exists i :: 0 <= i < |log| && log[i].cursor == expected
      modifies this
      ensures Valid()
      ensures var swaps := ValidTransition(expected, replacement) && old(row) == Some(expected) && !fault.FailsBeforeCommit?;
        && row == (if swaps then Some(replacement) else old(row))
        && log == (if swaps then old(log) + [Entry(replacement, at)] else old(log))
        && (result.WriteAccepted? <==> swaps && fault.Healthy?)
      ensures result.WriteInvalid? <==> !ValidTransition(expected, replacement)
      ensures result.WriteDuplicate? ==> old(row) == Some(replacement)
      ensures result.WriteConflict? ==> old(row) != Some(expected) && old(row) != Some(replacement)
      ensures result.WriteUnavailable? ==> !fault.Healthy?
    {
      if !ValidTransition(expected, replacement) {
        return WriteInvalid;
      }
      if fault.FailsBeforeCommit? {
        return WriteUnavailable;
      }
      RevisionIsIndex(log);
      if row.None? || row.value.revision != expected.revision {
        return if row == Some(replacement) then WriteDuplicate else WriteConflict;
      }
      row, log := Some(replacement), log + [Entry(replacement, at)];
      result := if fault.FailsAfterCommit? then WriteUnavailable else WriteAccepted;
    }
  }

  /** Entry number r of the history is revision r: a revision names exactly one committed cursor. */
  lemma {:induction false} RevisionIsIndex(log: seq<Entry>)
    requires Chain(log)
    ensures forall i :: 0 <= i < |log| ==> ValidCursor(log[i].cursor) && log[i].cursor.revision == i
  {
    if |log| > 1 {
      var init := log[..|log| - 1];
      ChainPrefix(log, |log| - 1);
      RevisionIsIndex(init);
      assert init[|init| - 1] == log[|log| - 2];
      assert ValidTransition(log[|log| - 2].cursor, log[|log| - 2 + 1].cursor);
    }
  }

  lemma ChainPrefix(log: seq<Entry>, n: nat)
    requires Chain(log) && n <= |log|
    ensures Chain(log[..n])
  {
    var init := log[..n];
    forall i | 0 <= i < |init| - 1
      ensures ValidTransition(init[i].cursor, init[i + 1].cursor)
    {
      assert init[i] == log[i] && init[i + 1] == log[i + 1];
    }
  }

  // --- Revision accounting -------------------------------------------------------------------------------

  ghost function Rearms(log: seq<Entry>): nat {
    if |log| <= 1 then 0
    else Rearms(log[..|log| - 1]) + (if IsRearm(log[|log| - 2].cursor, log[|log| - 1].cursor) then 1 else 0)
  }

  /** Where a cursor that was not blocked must stand after `rearms` re-arms. */
  predicate Accounted(c: Cursor, rearms: nat) {
    match c.state
    case Dormant => if c.generation == 0 then c.revision == 0 && rearms == 0
                    else c.revision == 2 * c.generation - 1 + rearms && rearms <= c.generation - 2
    case Scheduled => c.revision == 2 * c.generation - 1 + rearms && rearms <= c.generation - 1
    case Prepared => c.revision == 2 * c.generation + rearms && rearms <= c.generation - 1
    case Blocked => true
  }

  /** Every run: the revision is fixed by the generation, the state and the number of re-arms, a generation is
      re-armed at most once, and a blocked cursor is one revision past an accounted one of the same generation. */
  lemma {:induction false} RevisionAccounting(log: seq<Entry>)
    requires Chain(log) && log != []
    ensures var c := log[|log| - 1].cursor;
      && Accounted(c, Rearms(log))
      && (c.generation >= 1 ==> Rearms(log) <= c.generation - 1)
      && (c.state.Blocked? ==>
            && |log| >= 2 && var source := log[|log| - 2].cursor;
            && !source.state.Blocked? && Accounted(source, Rearms(log))
            && c.revision == source.revision + 1 && c.generation == source.generation)
  {
    if |log| > 1 {
      var init := log[..|log| - 1];
      ChainPrefix(log, |log| - 1);
      RevisionAccounting(init);
      assert init[|init| - 1] == log[|log| - 2];
      assert ValidTransition(log[|log| - 2].cursor, log[|log| - 2 + 1].cursor);
    }
  }

  // --- One capture per generation ------------------------------------------------------------------------

  /** Generations never fall along the history, and they rise after every capture. */
  lemma {:induction false} GenerationsRise(log: seq<Entry>, i: nat, j: nat)
    requires Chain(log) && i < j < |log|
    ensures log[i].cursor.generation <= log[j].cursor.generation
    ensures log[i].cursor.state.Prepared? && !log[j].cursor.state.Blocked? ==>
              log[i].cursor.generation < log[j].cursor.generation
    ensures !log[i].cursor.state.Blocked?
    decreases j - i
  {
    assert ValidTransition(log[i].cursor, log[i + 1].cursor);
    if i + 1 < j {
      GenerationsRise(log, i + 1, j);
    }
  }

  /** A generation is captured at most once in a whole run, so it names at most one Task. */
  lemma OneCapturePerGeneration(log: seq<Entry>, i: nat, j: nat)
    requires Chain(log) && i < |log| && j < |log|
    requires log[i].cursor.state.Prepared? && log[j].cursor.state.Prepared?
    requires log[i].cursor.generation == log[j].cursor.generation
    ensures i == j
  {
    if i < j {
      GenerationsRise(log, i, j);
    } else if j < i {
      GenerationsRise(log, j, i);
    }
  }
}
