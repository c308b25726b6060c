/** The dialogue Tasks a thread is made of (src/LocalGooseDialogueV3.cpp); the older V2 form only appears as the
    start of a thread. */
module DialogueTasks {
  import opened Base
  import opened Work

  const MAX_ID_BYTES := 128
  const MAX_MESSAGE_BYTES := 4096
  const MAX_RESPONSE_BYTES := 16 * 1024

  datatype Request = Request(id: string, speakerKind: string, speakerId: string, messageKind: string, message: string)

  datatype V2Input = V2Input(requestId: string, text: string, model: string, turn: U64, root: Option<TaskId>)

  datatype V3Input = V3Input(
    request: Request, model: string, turn: U64, root: Option<TaskId>, pred: Option<TaskId>, predHash: Option<Digest>)

  datatype TaskId = V2Id(v2: V2Input) | V3Id(v3: V3Input) | OtherId(text: string)

  datatype TaskKey = RequestKey(requestId: string) | OtherKey(text: string)

  datatype Definition = V2Definition(v2: V2Input) | V3Definition(v3: V3Input) | OtherDefinition(text: string)

  /** A response echoes the whole request it answers. */
  datatype Output =
    | V2Response(to: V2Input, root: TaskId, text: string)
    | V3Response(answers: V3Input, root: TaskId, text: string)
    | OtherBytes(text: string)

  datatype Digest = Sha256(output: Output)

  datatype TaskResult = TaskResult(output: Output, canonicalEnvelope: bool)

  type Task = WorkTask<TaskId, TaskKey, Definition, TaskResult>

  type TaskStore = WorkStore<TaskId, TaskKey, Definition, TaskResult>

  predicate DialogueTaskId(id: TaskId) {
    id.V2Id? || id.V3Id?
  }

  predicate ValidRequest(r: Request) {
    && SafeIdentifier(r.id, MAX_ID_BYTES)
    && r.speakerKind in {"human", "system"}
    && SafeIdentifier(r.speakerId, MAX_ID_BYTES)
    && r.messageKind in {"dialogue", "feedback", "intervention", "observation"}
    && 0 < |r.message| <= MAX_MESSAGE_BYTES
  }

  predicate ValidInput(x: V3Input) {
    && ValidRequest(x.request) && LowercaseSha256(x.model)
    && if x.turn == 0 then x.root.None? && x.pred.None? && x.predHash.None?
       else
         && x.root.Some? && DialogueTaskId(x.root.value)
         && x.pred.Some? && DialogueTaskId(x.pred.value) && x.predHash.Some?
         && (x.pred.value.V2Id? ==> x.root.value.V2Id?)
  }

  /** `inspect_local_goose_dialogue_v3_task`. */
  predicate EligibleV3(t: Task) {
    && t.definition.V3Definition? && ValidInput(t.definition.v3)
    && t.id == V3Id(t.definition.v3) && t.key == RequestKey(t.definition.v3.request.id)
  }

  predicate EligibleV2(t: Task) {
    && t.definition.V2Definition? && t.id == V2Id(t.definition.v2) && LowercaseSha256(t.definition.v2.model)
    && SafeIdentifier(t.definition.v2.requestId, MAX_ID_BYTES)
    && (t.definition.v2.turn == 0 <==> t.definition.v2.root.None?)
    && (t.definition.v2.root.Some? ==> t.definition.v2.root.value.V2Id?)
  }

  function RootOfV3(x: V3Input): TaskId {
    if x.turn == 0 || x.root.None? then V3Id(x) else x.root.value
  }

  function RootOfV2(x: V2Input): TaskId {
    if x.turn == 0 || x.root.None? then V2Id(x) else x.root.value
  }

  predicate SucceededWith(t: Task, output: Output) {
    t.status == Succeeded && t.result.Some? && t.result.value.canonicalEnvelope && t.result.value.output == output
  }

  predicate V3Success(t: Task) {
    && EligibleV3(t) && t.result.Some? && t.result.value.output.V3Response?
    && SucceededWith(t, V3Response(t.definition.v3, RootOfV3(t.definition.v3), t.result.value.output.text))
    && 0 < |t.result.value.output.text| <= MAX_RESPONSE_BYTES
  }

  predicate V2Success(t: Task) {
    && EligibleV2(t) && t.result.Some? && t.result.value.output.V2Response?
    && SucceededWith(t, V2Response(t.definition.v2, RootOfV2(t.definition.v2), t.result.value.output.text))
    && 0 < |t.result.value.output.text| <= MAX_RESPONSE_BYTES
  }

  /** `canonical_dialogue_root`: the declared root of a canonically successful dialogue Task. */
  function DialogueRoot(t: Task): Option<TaskId> {
    if V2Success(t) then Some(RootOfV2(t.definition.v2))
    else if V3Success(t) then Some(RootOfV3(t.definition.v3))
    else None
  }

  function Turn(t: Task): int {
    match t.definition case V2Definition(x) => x.turn case V3Definition(x) => x.turn case OtherDefinition(_) => -1
  }

  function Model(t: Task): string {
    match t.definition case V2Definition(x) => x.model case V3Definition(x) => x.model case OtherDefinition(_) => ""
  }

  /** `make_local_goose_dialogue_v3_successor_task` and its bridge from V2; `None` is the thrown `invalid_argument`. */
  function MakeSuccessor(r: Request, model: string, p: Task): (t: Option<Task>) {
    var root := DialogueRoot(p);
    if root.None? || Model(p) != model || Turn(p) < 0 || Turn(p) >= UINT64_MAX then None
    else
      var input := V3Input(r, model, Turn(p) + 1, root, Some(p.id), Some(Sha256(p.result.value.output)));
      if !ValidInput(input) then None
      else Some(WorkTask(V3Id(input), RequestKey(r.id), V3Definition(input), Pending, 0, "", None))
  }

  /** `t` answers for exactly one request as the direct successor of `p` in the dialogue with the given root. */
  predicate Succeeds(p: Task, t: Task, root: TaskId) {
    && DialogueRoot(p) == Some(root)
    && EligibleV3(t) && t.definition.v3.root == Some(root) && t.definition.v3.pred == Some(p.id)
    && t.definition.v3.predHash == Some(Sha256(p.result.value.output))
    && Turn(t) == Turn(p) + 1 && Model(t) == Model(p)
  }

  /** Every Task the builder returns is recognised again, carries its request, and succeeds its predecessor. */
  lemma SuccessorIsLinked(r: Request, model: string, p: Task)
    requires MakeSuccessor(r, model, p).Some?
    ensures var t := MakeSuccessor(r, model, p).value;
      && Succeeds(p, t, DialogueRoot(p).value) && t.definition.v3.request == r && ValidRequest(r)
      && DialogueTaskId(p.id) && t.id != p.id
  {
    var t := MakeSuccessor(r, model, p).value;
    assert t.definition.v3.pred == Some(p.id);
    assert EligibleV3(t);
  }
}
