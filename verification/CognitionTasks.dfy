/** The cognition Tasks of the autonomous pulse (src/CurrentCognitionCycle.cpp, src/ResumeContextSnapshot.cpp):
    a snapshot capsule freezes the facts, and a current-cognition Task links one predecessor to one snapshot. */
module CognitionTasks {
  import opened Base
  import opened Work

  const MAX_REASON_BYTES := 1024
  const MAX_OBJECTIVE_BYTES := 4096
  const MAX_ATTEMPTS := 2
  const MAX_SNAPSHOT_AGE_MS: I64 := 15 * 60 * 1000

  datatype Decision = Stop(reason: string) | Continue(reason: string, objective: string)

  /** A frozen observation; `content` is the context document with its provenance. */
  datatype Capsule = Capsule(capturedAt: I64, content: string)

  datatype Linkage = Linkage(predTask: TaskId, decision: Decision, snapshotTask: TaskId, capsule: Capsule)

  /** The idempotency key of these Tasks is their id. */
  datatype TaskId = CognitionId(linkage: Linkage) | SnapshotId(capsule: Capsule) | OtherId(text: string)

  datatype Definition = CognitionDefinition(linkage: Linkage) | SnapshotDefinition(capsule: Capsule) | OtherDefinition(text: string)

  datatype Output = DecisionBytes(decision: Decision) | CapsuleBytes(capsule: Capsule) | OtherBytes(text: string)

  datatype Digest = Sha256(output: Output)

  datatype TaskResult = TaskResult(output: Output, canonicalType: bool, failureCode: string, failureMessage: string)

  type Task = WorkTask<TaskId, TaskId, Definition, TaskResult>

  type TaskStore = WorkStore<TaskId, TaskId, Definition, TaskResult>

  predicate SafeText(s: string, limit: nat) {
    0 < |s| <= limit && forall i :: 0 <= i < |s| ==> s[i] >= ' ' || s[i] in {'\t', '\n', '\r'}
  }

  predicate EligibleDecision(d: Decision) {
    SafeText(d.reason, MAX_REASON_BYTES) && (d.Continue? ==> SafeText(d.objective, MAX_OBJECTIVE_BYTES))
  }

  /** `valid_current_cognition_task`. */
  predicate CurrentCognition(t: Task) {
    && t.definition.CognitionDefinition? && t.key == t.id
    && t.id == CognitionId(t.definition.linkage)
    && EligibleDecision(t.definition.linkage.decision)
    && t.definition.linkage.snapshotTask == SnapshotId(t.definition.linkage.capsule)
    && t.definition.linkage.capsule.capturedAt >= 0
  }

  predicate CanonicalSnapshot(t: Task) {
    && t.definition.SnapshotDefinition? && t.key == t.id && t.id == SnapshotId(t.definition.capsule)
    && t.definition.capsule.capturedAt >= 0
    && t.status == Succeeded && t.result.Some? && t.result.value.canonicalType
    && t.result.value.output == CapsuleBytes(t.definition.capsule)
    && t.result.value.failureCode == "" && t.result.value.failureMessage == ""
  }

  /** `inspect_current_cognition`, without a required hash. */
  predicate CanonicalCognition(t: Task) {
    && CurrentCognition(t)
    && t.status == Succeeded && t.result.Some? && t.result.value.canonicalType
    && t.result.value.output.DecisionBytes? && EligibleDecision(t.result.value.output.decision)
  }

  function ResultHash(t: Task): Digest
    requires t.result.Some?
  {
    Sha256(t.result.value.output)
  }

  predicate CanonicalAt(tasks: TaskStore, id: TaskId, hash: Digest) {
    var t := Find(tasks, id);
    t.Some? && CanonicalCognition(t.value) && ResultHash(t.value) == hash
  }

  function MakeCognition(predecessor: Task, snapshot: Task): (t: Task)
    requires CanonicalCognition(predecessor) && CanonicalSnapshot(snapshot)
    ensures CurrentCognition(t) && t.status == Pending && t.attempts == 0
  {
    var linkage := Linkage(predecessor.id, predecessor.result.value.output.decision, snapshot.id, snapshot.definition.capsule);
    WorkTask(CognitionId(linkage), CognitionId(linkage), CognitionDefinition(linkage), Pending, 0, "", None)
  }

  datatype SubmitReply = SubmitOk | SubmitRejected | SubmitFailsBefore | SubmitFailsAfter

  datatype ClaimResult = Claimed(task: Task) | ClaimRefused | ClaimUnavailable

  /** `CurrentCognitionCycle::claim` of one predecessor and one snapshot: the Task table afterwards and the answer. */
  function Claim(tasks: TaskStore, predTask: TaskId, snapshotTask: TaskId, now: I64, reply: SubmitReply): (r: (TaskStore, ClaimResult)) {
    var p, s := Find(tasks, predTask), Find(tasks, snapshotTask);
    if p.None? || !CanonicalCognition(p.value) || s.None? || !CanonicalSnapshot(s.value) then (tasks, ClaimRefused)
    else
      var expected := MakeCognition(p.value, s.value);
      var byId, byKey := Find(tasks, expected.id), FindByKey(tasks, expected.key);
      if byId.Some? || byKey.Some? then
        if byId.Some? && byKey.Some? && byId.value.id != byKey.value.id then (tasks, ClaimRefused)
        else
          var existing := if byId.Some? then byId.value else byKey.value;
          if !CurrentCognition(existing) || !SameDefinition(existing, expected) then (tasks, ClaimRefused)
          else (tasks, Claimed(existing))
      else
        var captured := s.value.definition.capsule.capturedAt;
        if now < captured || now - captured > MAX_SNAPSHOT_AGE_MS then (tasks, ClaimRefused)
        else match reply
             case SubmitOk => (Insert(tasks, expected), Claimed(expected))
             case SubmitRejected => (tasks, ClaimRefused)
             case SubmitFailsBefore => (tasks, ClaimUnavailable)
             case SubmitFailsAfter => (Insert(tasks, expected), ClaimUnavailable)
  }

  /** A claim only ever adds its own Task, pending and never started. */
  lemma ClaimOnlyInserts(tasks: TaskStore, predTask: TaskId, snapshotTask: TaskId, now: I64, reply: SubmitReply)
    requires WellFormedStore(tasks)
    ensures var tasks' := Claim(tasks, predTask, snapshotTask, now, reply).0;
      && WellFormedStore(tasks') && Evolves(tasks, tasks')
      && (forall id :: id in tasks'.rows && id !in tasks.rows ==> tasks'.rows[id].status == Pending && tasks'.rows[id].attempts == 0)
  {
    hide WellFormedStore, Evolves, CanonicalCognition, CanonicalSnapshot, CurrentCognition, MakeCognition, SameDefinition;
    EvolvesReflexive(tasks);
    var p, s := Find(tasks, predTask), Find(tasks, snapshotTask);
    if p.Some? && CanonicalCognition(p.value) && s.Some? && CanonicalSnapshot(s.value) {
      var expected := MakeCognition(p.value, s.value);
      if Find(tasks, expected.id).None? && FindByKey(tasks, expected.key).None? {
        InsertEvolves(tasks, expected);
      }
    }
  }

  /** The Task a claim returns is in the table, links exactly the predecessor and the snapshot it was given, and
      carries the snapshot's frozen capsule and the predecessor's decision. */
  lemma ClaimLinksItsEvidence(tasks: TaskStore, predTask: TaskId, snapshotTask: TaskId, now: I64, reply: SubmitReply)
    requires WellFormedStore(tasks)
    requires Claim(tasks, predTask, snapshotTask, now, reply).1.Claimed?
    ensures var t := Claim(tasks, predTask, snapshotTask, now, reply).1.task;
      && Find(Claim(tasks, predTask, snapshotTask, now, reply).0, t.id) == Some(t) && CurrentCognition(t)
      && predTask in tasks.rows && CanonicalCognition(tasks.rows[predTask])
      && snapshotTask in tasks.rows && CanonicalSnapshot(tasks.rows[snapshotTask])
      && t.definition.linkage == Linkage(predTask, tasks.rows[predTask].result.value.output.decision, snapshotTask,
                                         tasks.rows[snapshotTask].definition.capsule)
  {
    var p, s := Find(tasks, predTask).value, Find(tasks, snapshotTask).value;
    var expected := MakeCognition(p, s);
    assert expected.definition.linkage.predTask == predTask && expected.definition.linkage.snapshotTask == snapshotTask;
  }
}
