/** The Tasks of the self-scheduling local cycle (src/LocalGooseCycle.cpp): how one is derived from durable
    evidence and how it is recognised again. A SHA-256 digest is a free constructor over what was hashed. */
module LocalGooseCycle {
  import opened Base
  import opened Work

  datatype DecisionKind = Idle | ContinueLocal | RequestOpenAI

  /** The six-key decision document; `text` stands for its free-form fields. */
  datatype Decision = Decision(kind: DecisionKind, nextWakeAfterMs: Option<I64>, text: string)

  predicate EligibleDecision(d: Decision) {
    d.nextWakeAfterMs.Some? ==> d.nextWakeAfterMs.value >= 0
  }

  /** What a Task produced. Several framings of one decision are different bytes. */
  datatype Output =
    | DecisionBytes(decision: Decision, framing: string)
    | ObservationBytes(payload: Definition)
    | OtherBytes(text: string)

  datatype Digest = Sha256(output: Output)

  datatype TaskId = CycleId(input: CycleInput) | ObservationId(opportunity: string) | OtherId(text: string)
  datatype TaskKey = CycleKey(input: CycleInput) | ObservationKey(opportunity: string) | OtherKey(text: string)

  datatype Predecessor = Predecessor(taskId: TaskId, resultHash: Digest, decision: Decision)

  datatype CycleInput = CycleInput(
    anchorTask: TaskId, anchorHash: Digest, generation: U64, due: I64, captured: I64, model: string,
    predecessor: Option<Predecessor>)

  /** Kind, content type, input bytes and resource limits together; anything off-canonical is `OtherDefinition`. */
  datatype Definition =
    | CycleDefinition(input: CycleInput)
    | ObservationDefinition(opportunity: string, generation: nat)
    | OtherDefinition(text: string)

  datatype TaskResult = TaskResult(output: Output, canonicalEnvelope: bool)

  type Task = WorkTask<TaskId, TaskKey, Definition, TaskResult>

  type TaskStore = WorkStore<TaskId, TaskKey, Definition, TaskResult>

  predicate WellFormedInput(input: CycleInput) {
    && input.anchorTask.ObservationId?
    && LowercaseSha256(input.model)
    && input.generation != 0 && input.due >= 0 && input.captured >= input.due
    && (input.generation == 1 <==> input.predecessor.None?)
    && (input.predecessor.Some? ==>
          input.predecessor.value.taskId.CycleId? && EligibleDecision(input.predecessor.value.decision))
  }

  /** `inspect_local_goose_cycle_task`: identity, key, definition and fields all agree. */
  predicate EligibleCycleTask(t: Task) {
    && t.definition.CycleDefinition?
    && t.id == CycleId(t.definition.input)
    && t.key == CycleKey(t.definition.input)
    && WellFormedInput(t.definition.input)
  }

  predicate CanonicalCycleSuccess(t: Task) {
    && EligibleCycleTask(t)
    && t.status == Succeeded && t.result.Some? && t.result.value.canonicalEnvelope
    && t.result.value.output.DecisionBytes? && EligibleDecision(t.result.value.output.decision)
  }

  predicate CanonicalObservationSuccess(t: Task) {
    && t.definition.ObservationDefinition?
    && t.id == ObservationId(t.definition.opportunity)
    && t.key == ObservationKey(t.definition.opportunity)
    && 1 <= t.definition.generation <= 3
    && t.status == Succeeded && t.result.Some? && t.result.value.canonicalEnvelope
    && t.result.value.output == ObservationBytes(t.definition)
  }

  function ResultHash(t: Task): Digest
    requires t.result.Some?
  {
    Sha256(t.result.value.output)
  }

  /** `predecessor_json`; `None` is the thrown `invalid_argument`. */
  function PredecessorEvidence(p: Task, anchorTask: TaskId, anchorHash: Digest, model: string, generation: U64)
    : (r: Option<Predecessor>)
  {
    if !CanonicalCycleSuccess(p) then None
    else
      var input := p.definition.input;
      if input.generation + 1 != generation || input.anchorTask != anchorTask || input.anchorHash != anchorHash
         || input.model != model then None
      else Some(Predecessor(p.id, ResultHash(p), p.result.value.output.decision))
  }

  /** `make_local_goose_cycle_task`; `None` is the thrown `invalid_argument`. */
  function MakeCycleTask(anchor: Task, model: string, generation: U64, due: I64, captured: I64, predecessor: Option<Task>)
    : (r: Option<Task>)
  {
    if !CanonicalObservationSuccess(anchor) then None
    else if anchor.definition.generation != 3 then None
    else if !LowercaseSha256(model) then None
    else if generation == 0 || due < 0 || captured < due then None
    else if (generation == 1 && predecessor.Some?) || (generation > 1 && predecessor.None?) then None
    else
      var hash := ResultHash(anchor);
      var evidence := if predecessor.None? then None
                      else PredecessorEvidence(predecessor.value, anchor.id, hash, model, generation);
      if predecessor.Some? && evidence.None? then None
      else
        var input := CycleInput(anchor.id, hash, generation, due, captured, model, evidence);
        Some(WorkTask(CycleId(input), CycleKey(input), CycleDefinition(input), Pending, 0, "", None))
  }

  /** Every Task the builder returns passes the inspector, reports the arguments it was built from, and links
      to the predecessor it was given; the identity determines all of those arguments. */
  lemma MakeThenInspect(anchor: Task, model: string, generation: U64, due: I64, captured: I64, predecessor: Option<Task>)
    requires MakeCycleTask(anchor, model, generation, due, captured, predecessor).Some?
    ensures var t := MakeCycleTask(anchor, model, generation, due, captured, predecessor).value;
      && EligibleCycleTask(t) && t.status == Pending && t.result.None?
      && t.definition.input.generation == generation && t.definition.input.model == model
      && t.definition.input.due == due && t.definition.input.captured == captured
      && t.definition.input.anchorTask == anchor.id && t.definition.input.anchorHash == ResultHash(anchor)
      && (generation == 1 ==> t.definition.input.predecessor == None)
      && (generation > 1 ==>
            && CanonicalCycleSuccess(predecessor.value)
            && predecessor.value.definition.input.generation == generation - 1
            && predecessor.value.definition.input.model == model
            && predecessor.value.definition.input.anchorTask == anchor.id
            && predecessor.value.definition.input.anchorHash == ResultHash(anchor)
            && t.definition.input.predecessor.Some?
            && t.definition.input.predecessor.value.taskId == predecessor.value.id
            && t.definition.input.predecessor.value.resultHash == ResultHash(predecessor.value))
  {
    var hash := ResultHash(anchor);
    if generation > 1 {
      var p := predecessor.value;
      var e := PredecessorEvidence(p, anchor.id, hash, model, generation);
      assert e.Some? && e.value.decision == p.result.value.output.decision;
      assert EligibleDecision(e.value.decision);
    }
  }
}
