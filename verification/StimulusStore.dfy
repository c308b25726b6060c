/** The durable table of stimuli (src/LocalGooseCycleStimulusStore.cpp). */
module StimulusStoreModel {
  import opened Base

  const MAX_SOURCE_ID_BYTES := 128

  datatype StimulusStatus = Accepted | Consumed | Superseded | ManualReview

  datatype TerminalReason =
    | ClockBeforeAcceptance | CursorDisappeared | SuccessorDiffers | TargetChanged | StateWithoutRevision
    | PredecessorNotCanonical | CannotTransition

  /** The id is the digest of the identity material; `StimulusMaterialIsUnique` in IdentityPreimages shows that
      the material determines exactly these three fields. */
  datatype StimulusId = StimulusId(sourceId: string, targetRevision: U64, targetGeneration: U64)

  datatype Stimulus = Stimulus(
    id: StimulusId, sourceId: string, acceptedAt: I64, targetRevision: U64, targetGeneration: U64,
    status: StimulusStatus, terminalAt: Option<I64>, resultingRevision: Option<U64>, reason: Option<TerminalReason>)

  predicate ValidStimulus(s: Stimulus) {
    && SafeIdentifier(s.sourceId, MAX_SOURCE_ID_BYTES)
    && s.acceptedAt >= 0
    && s.targetRevision <= INT64_MAX && 2 <= s.targetGeneration <= INT64_MAX
    && s.id == StimulusId(s.sourceId, s.targetRevision, s.targetGeneration)
    && match s.status
       case Accepted => s.terminalAt.None? && s.resultingRevision.None? && s.reason.None?
       case Consumed =>
         && s.terminalAt.Some? && s.terminalAt.value >= s.acceptedAt
         && s.targetRevision < INT64_MAX && s.resultingRevision == Some(s.targetRevision + 1) && s.reason.None?
       case Superseded =>
         s.terminalAt.Some? && s.terminalAt.value >= s.acceptedAt && s.resultingRevision.None? && s.reason.Some?
       case ManualReview =>
         s.terminalAt.Some? && s.terminalAt.value >= s.acceptedAt && s.resultingRevision.None? && s.reason.Some?
  }

  predicate SameIdentity(a: Stimulus, b: Stimulus) {
    && a.id == b.id && a.sourceId == b.sourceId && a.acceptedAt == b.acceptedAt
    && a.targetRevision == b.targetRevision && a.targetGeneration == b.targetGeneration
  }

  predicate ValidStimulusTransition(e: Stimulus, r: Stimulus) {
    && ValidStimulus(e) && ValidStimulus(r) && e.status.Accepted? && !r.status.Accepted? && SameIdentity(e, r)
  }

  function MakeStimulus(sourceId: string, acceptedAt: I64, targetRevision: U64, targetGeneration: U64): (r: Option<Stimulus>)
    ensures r.Some? ==> ValidStimulus(r.value) && r.value.status.Accepted?
  {
    var s := Stimulus(StimulusId(sourceId, targetRevision, targetGeneration), sourceId, acceptedAt, targetRevision,
                      targetGeneration, Accepted, None, None, None);
    if ValidStimulus(s) then Some(s) else None
  }

  /** A row that still may, or did, re-arm its target. */
  predicate Live(s: Stimulus) {
    s.status.Accepted? || s.status.Consumed?
  }

  ghost predicate UniqueRows(rows: seq<Stimulus>) {
    && (forall i :: 0 <= i < |rows| ==> ValidStimulus(rows[i]))
    && (forall i, j :: 0 <= i < j < |rows| ==> rows[i].id != rows[j].id && rows[i].sourceId != rows[j].sourceId)
  }

  /** A SELECT expected to return at most one row: the first match, or -1. */
  function IndexWhere(rows: seq<Stimulus>, p: Stimulus -> bool): (i: int)
    ensures -1 <= i < |rows|
    ensures i >= 0 ==> p(rows[i])
    ensures i < 0 ==> forall k :: 0 <= k < |rows| ==> !p(rows[k])
  {
    if rows == [] then -1
    else if p(rows[|rows| - 1]) then |rows| - 1
    else IndexWhere(rows[..|rows| - 1], p)
  }

  function FindStimulus(rows: seq<Stimulus>, id: StimulusId): int {
    IndexWhere(rows, (s: Stimulus) => s.id == id)
  }

  function FindSource(rows: seq<Stimulus>, sourceId: string): int {
    IndexWhere(rows, (s: Stimulus) => s.sourceId == sourceId)
  }

  function FindAcceptedTarget(rows: seq<Stimulus>, revision: U64): int {
    IndexWhere(rows, (s: Stimulus) => s.targetRevision == revision && s.status.Accepted?)
  }

  class StimulusStore {
    var rows: seq<Stimulus>

    ghost predicate Valid()
      reads this
    {
      UniqueRows(rows)
    }

    constructor ()
      ensures Valid() && rows == []
    {
      rows := [];
    }

    /** Insert; a row survives only when its id, its source and its accepted target are all new. */
    method Append(s: Stimulus, fault: Fault) returns (result: WriteResult)
      requires Valid()
      modifies this
      ensures Valid()
      ensures var inserts := ValidStimulus(s) && s.status.Accepted? && !fault.FailsBeforeCommit?
                && FindStimulus(old(rows), s.id) < 0 && FindSource(old(rows), s.sourceId) < 0
                && FindAcceptedTarget(old(rows), s.targetRevision) < 0;
        && rows == (if inserts then old(rows) + [s] else old(rows))
        && (result.WriteAccepted? <==> inserts && fault.Healthy?)
      ensures result.WriteInvalid? <==> !(ValidStimulus(s) && s.status.Accepted?)
      ensures result.WriteDuplicate? ==> s in old(rows)
      ensures result.WriteUnavailable? ==> !fault.Healthy?
    {
      if !ValidStimulus(s) || !s.status.Accepted? {
        return WriteInvalid;
      }
      if fault.FailsBeforeCommit? {
        return WriteUnavailable;
      }
      var byId := FindStimulus(rows, s.id);
      if byId >= 0 {
        return if rows[byId] == s then WriteDuplicate else WriteConflict;
      }
      if FindSource(rows, s.sourceId) >= 0 || FindAcceptedTarget(rows, s.targetRevision) >= 0 {
        return WriteConflict;
      }
      rows := rows + [s];
      result := if fault.FailsAfterCommit? then WriteUnavailable else WriteAccepted;
    }

    /** Compare-and-swap of one row from accepted to a terminal status; a terminal row is never touched. */
    method Replace(expected: Stimulus, replacement: Stimulus, fault: Fault) returns (result: WriteResult, current: Option<Stimulus>)
      requires Valid()
      modifies this
      ensures Valid()
      ensures var i := FindStimulus(old(rows), expected.id);
        var swaps := ValidStimulusTransition(expected, replacement) && i >= 0 && old(rows)[i] == expected
                     && !fault.FailsBeforeCommit?;
        && rows == (if swaps then old(rows)[i := replacement] else old(rows))
        && (result.WriteAccepted? <==> swaps && fault.Healthy?)
      ensures result.WriteInvalid? <==> !ValidStimulusTransition(expected, replacement)
      ensures result.WriteDuplicate? ==> replacement in old(rows)
      ensures result.WriteConflict? ==> expected !in old(rows)
      ensures result.WriteUnavailable? ==> !fault.Healthy?
      ensures current.Some? <==> (result.WriteAccepted? || result.WriteDuplicate? || (result.WriteConflict? && FindStimulus(old(rows), expected.id) >= 0))
      ensures current.Some? ==> current.value in rows && current.value.id == expected.id
    {
      if !ValidStimulusTransition(expected, replacement) {
        return WriteInvalid, None;
      }
      if fault.FailsBeforeCommit? {
        return WriteUnavailable, None;
      }
      var i := FindStimulus(rows, expected.id);
      if i < 0 {
        return WriteConflict, None;
      }
      if rows[i] == replacement {
        return WriteDuplicate, Some(rows[i]);
      }
      if rows[i] != expected {
        return WriteConflict, Some(rows[i]);
      }
      rows := rows[i := replacement];
      if fault.FailsAfterCommit? {
        return WriteUnavailable, None;
      }
      result, current := WriteAccepted, Some(rows[i]);
    }
  }
}
