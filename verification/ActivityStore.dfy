/** The cursor of the local activity pulse (src/LocalActivityPulseStore.cpp) and what every run of it looks like. */
module ActivityStoreModel {
  import opened Base
  import opened ActivityTasks

  const CADENCE_MS: I64 := 86_400_000

  datatype ActivityState = Idle | Preparing | Settled | Quiescent | Blocked

  datatype BlockReason =
    | NextDeadlineOverflows | AnchorNotCanonical | EvidenceMoved | CannotConstruct | IdentityChanged
    | TaskConflicts | SubmissionRejected | TerminalNotCanonical | ExecutionConflict

  /** One row; the scope is fixed. `None` stands for an empty Task id, hash or block reason. */
  datatype Cursor = Cursor(
    revision: U64, generation: nat, state: ActivityState, anchorTask: TaskId, anchorHash: Digest, anchorAt: I64,
    due: I64, captured: Option<I64>, task: Option<TaskId>, result: Option<Digest>,
    predTask: Option<TaskId>, predHash: Option<Digest>, blocked: Option<BlockReason>)

  predicate PredecessorShape(c: Cursor) {
    if c.generation <= 1 then c.predTask.None? && c.predHash.None?
    else c.predTask.Some? && c.predHash.Some? && c.predTask.value.ObservationId?
  }

  predicate ActiveShape(c: Cursor, resultRequired: bool) {
    && 1 <= c.generation <= 3 && c.captured.Some? && c.captured.value >= c.due
    && c.task.Some? && c.task.value.ObservationId? && PredecessorShape(c)
    && c.result.Some? == resultRequired
  }

  predicate ValidCursor(c: Cursor) {
    && c.revision <= INT64_MAX && c.generation <= 3 && c.anchorTask.CheckpointId?
    && c.anchorAt >= 0 && c.due >= c.anchorAt
    && (c.captured.Some? ==> c.captured.value >= c.due)
    && match c.state
       case Idle =>
         && c.generation == 0 && c.captured.None? && c.task.None? && c.result.None?
         && c.predTask.None? && c.predHash.None? && c.blocked.None?
       case Preparing => ActiveShape(c, false) && c.blocked.None?
       case Settled => c.generation < 3 && ActiveShape(c, true) && c.blocked.None?
       case Quiescent => c.generation == 3 && ActiveShape(c, true) && c.blocked.None?
       case Blocked =>
         && c.blocked.Some?
         && if c.generation == 0 then c.captured.None? && c.task.None? && c.result.None? && c.predTask.None? && c.predHash.None?
            else c.captured.Some? && c.task.Some? && c.task.value.ObservationId? && PredecessorShape(c)
  }

  predicate SameOpportunity(e: Cursor, r: Cursor) {
    && e.generation == r.generation && e.due == r.due && e.captured == r.captured && e.task == r.task
    && e.predTask == r.predTask && e.predHash == r.predHash
  }

  predicate ValidTransition(e: Cursor, r: Cursor) {
    && ValidCursor(e) && ValidCursor(r)
    && e.anchorTask == r.anchorTask && e.anchorHash == r.anchorHash && e.anchorAt == r.anchorAt
    && e.revision != INT64_MAX && r.revision == e.revision + 1
    && e.generation <= r.generation <= e.generation + 1
    && match e.state
       case Idle =>
         && r.due == e.due
         && ((r.state.Preparing? && r.generation == 1) || (r.state.Blocked? && r.generation == 0))
       case Preparing =>
         && SameOpportunity(e, r)
         && if r.state.Settled? || r.state.Quiescent? then r.result.Some? else r.state.Blocked? && r.result == e.result
       case Settled =>
         if r.state.Blocked? then SameOpportunity(e, r) && r.result == e.result
         else
           && r.state.Preparing? && r.generation == e.generation + 1
           && e.captured.value <= INT64_MAX - CADENCE_MS && r.due == e.captured.value + CADENCE_MS
           && r.predTask == e.task && r.predHash == e.result && r.result.None?
       case Blocked => r.state.Blocked? && SameOpportunity(e, r) && r.result == e.result
       case Quiescent => false
  }

  ghost predicate StoreChain(log: seq<Cursor>) {
    && (log != [] ==> ValidCursor(log[0]) && log[0].revision == 0 && log[0].state.Idle?)
    && forall i :: 0 <= i < |log| - 1 ==> ValidTransition(log[i], log[i + 1])
  }

  class ActivityStore {
    var row: Option<Cursor>
    ghost var log: seq<Cursor>

    ghost predicate Valid()
      reads this
    {
      && (row.None? <==> log == [])
      && (row.Some? ==> log[|log| - 1] == row.value && ValidCursor(row.value))
      && StoreChain(log)
    }

    constructor ()
      ensures Valid() && row == None && log == []
    {
      row, log := None, [];
    }

    method Seed(c: Cursor, fault: Fault) returns (result: WriteResult)
      requires Valid()
      modifies this
      ensures Valid()
      ensures var seeds := ValidCursor(c) && c.revision == 0 && c.state.Idle?;
        var inserts := seeds && old(row).None? && !fault.FailsBeforeCommit?;
        && (result.WriteInvalid? <==> !seeds)
        && log == (if inserts then [c] else old(log))
        && (result.WriteAccepted? <==> inserts && fault.Healthy?)
    {
      if !ValidCursor(c) || c.revision != 0 || !c.state.Idle? {
        return WriteInvalid;
      }
      if fault.FailsBeforeCommit? {
        return WriteUnavailable;
      }
      if row.Some? {
        return if row.value == c then WriteDuplicate else WriteConflict;
      }
      row, log := Some(c), [c];
      result := if fault.FailsAfterCommit? then WriteUnavailable else WriteAccepted;
    }

    /** Compare-and-swap guarded by the revision, for a cursor that was read from this store. */
    method Replace(expected: Cursor, replacement: Cursor, fault: Fault) returns (result: WriteResult)
      requires Valid() && expected in log
      modifies this
      ensures Valid()
      ensures var swaps := ValidTransition(expected, replacement) && old(row) == Some(expected) && !fault.FailsBeforeCommit?;
        && row == (if swaps then Some(replacement) else old(row))
        && log == (if swaps then old(log) + [replacement] else old(log))
        && (result.WriteAccepted? <==> swaps && fault.Healthy?)
      ensures result.WriteInvalid? <==> !ValidTransition(expected, replacement)
      ensures result.WriteDuplicate? ==> old(row) == Some(replacement)
      ensures result.WriteConflict? ==> old(row) != Some(expected) && old(row) != Some(replacement)
      ensures result.WriteUnavailable? ==> !fault.Healthy?
    {
      if !ValidTransition(expected, replacement) {
        return WriteInvalid;
      }
      if fault.FailsBeforeCommit? {
        return WriteUnavailable;
      }
      ActivityRevisionIsIndex(log);
      if row.None? || row.value.revision != expected.revision {
        return if row == Some(replacement) then WriteDuplicate else WriteConflict;
      }
      row, log := Some(replacement), log + [replacement];
      result := if fault.FailsAfterCommit? then WriteUnavailable else WriteAccepted;
    }
  }

  lemma StorePrefix(log: seq<Cursor>, n: nat)
    requires StoreChain(log) && n <= |log|
    ensures StoreChain(log[..n])
  {
    hide ValidTransition;
    var init := log[..n];
    forall i | 0 <= i < |init| - 1
      ensures ValidTransition(init[i], init[i + 1])
    {
      assert ValidTransition(log[i], log[i + 1]);
    }
  }

  lemma {:induction false} ActivityRevisionIsIndex(log: seq<Cursor>)
    requires StoreChain(log)
    ensures forall i :: 0 <= i < |log| ==> ValidCursor(log[i]) && log[i].revision == i
  {
    if |log| > 1 {
      StorePrefix(log, |log| - 1);
      var init := log[..|log| - 1];
      ActivityRevisionIsIndex(init);
      assert init[|init| - 1] == log[|log| - 2];
      assert ValidTransition(log[|log| - 2], log[|log| - 2 + 1]);
    }
  }

  /** A run of the service: it never writes over a blocked or quiescent cursor. */
  ghost predicate ServiceChain(log: seq<Cursor>) {
    && StoreChain(log)
    && (log != [] ==> log[0].due == log[0].anchorAt + CADENCE_MS)
    && forall i :: 0 <= i < |log| - 1 ==> !log[i].state.Blocked?
  }

  /** Where a cursor of generation g stands: revision 2g - 1 while preparing, 2g when idle, settled or quiescent. */
  predicate Placed(c: Cursor) {
    match c.state
    case Preparing => c.revision == 2 * c.generation - 1
    case Blocked => c.revision <= 2 * c.generation + 1 && c.revision <= 6
    case _ => c.revision == 2 * c.generation
  }

  /** The k-th capture comes no earlier than the anchor plus k cadences. */
  predicate Paced(c: Cursor) {
    && (c.captured.Some? ==> c.captured.value >= c.anchorAt + c.generation * CADENCE_MS)
    && (c.generation == 0 ==> c.due == c.anchorAt + CADENCE_MS)
  }

  lemma {:induction false} ActivityAccounting(log: seq<Cursor>)
    requires ServiceChain(log) && log != []
    ensures Placed(log[|log| - 1]) && Paced(log[|log| - 1]) && log[|log| - 1].revision <= 6
  {
    if |log| > 1 {
      StorePrefix(log, |log| - 1);
      var init := log[..|log| - 1];
      assert forall i :: 0 <= i < |init| ==> init[i] == log[i];
      ActivityAccounting(init);
      assert ValidTransition(log[|log| - 2], log[|log| - 2 + 1]);
    }
  }

  /** The pulse always ends: a run of the service accepts at most six replacements. */
  lemma ActivityEnds(log: seq<Cursor>)
    requires ServiceChain(log)
    ensures |log| <= 7
  {
    if log != [] {
      ActivityAccounting(log);
      ActivityRevisionIsIndex(log);
    }
  }

  /** It ends because the service stops, not because the store would: the store lets a blocked cursor be replaced
      by a blocked one at every revision up to the last. */
  lemma StoreNeverEnds(c: Cursor)
    requires ValidCursor(c) && c.state.Blocked?
    ensures ValidTransition(c, c.(revision := c.revision + 1)) <==> c.revision != INT64_MAX
  {
  }

  /** A generation is prepared at most once. */
  lemma {:induction false} OnePreparationPerGeneration(log: seq<Cursor>, i: nat, j: nat)
    requires StoreChain(log) && i < j < |log| && log[i].state.Preparing?
    ensures log[j].state.Preparing? ==> log[i].generation < log[j].generation
    ensures log[i].generation <= log[j].generation
    decreases j
  {
    assert ValidTransition(log[j - 1], log[j - 1 + 1]);
    if i < j - 1 {
      OnePreparationPerGeneration(log, i, j - 1);
    }
  }
}
