/** The observation Tasks of the local activity pulse (src/LocalContinuityObservation.cpp): their identity is the
    opportunity, their payload the facts, and their result is the payload again. */
module ActivityTasks {
  import opened Base
  import opened Work

  const MAX_GENERATION := 3
  const PROVIDER_LIMIT := 12
  const PROVIDER_SCOPE := "provider.call:openai.responses"
  const WAKE_SCOPE := "cognition.reflect.wake.v0"

  /** A provider Action carries the cognition Task it was made for, in its id and in its key alike. */
  datatype ActionName = ProviderAction(cognition: string) | OtherAction(text: string)

  datatype WakeStatus = WakeScheduled | WakeFired | WakeRevoked | WakeManualReview

  datatype WakeIntent = WakeIntent(id: string, source: string, status: WakeStatus, acceptedAt: I64, dueAt: I64)

  /** The canonical document about the one wake intent of a scope. */
  datatype WakeText = EmptyWake(scope: string) | OneWake(scope: string, intent: WakeIntent)

  datatype WakeHash = WakeSha256(text: WakeText)

  /** The evidence an anchor checkpoint froze: the cognitions behind two provider Actions, provider usage and the
      historical wake. */
  datatype Checkpoint = Checkpoint(predecessor: string, audited: string, providerTotal: nat, wake: WakeText)

  predicate CanonicalWake(w: WakeText) {
    && w.scope == WAKE_SCOPE
    && (w.OneWake? ==> w.intent.id != "" && w.intent.source != "" && 0 <= w.intent.acceptedAt <= w.intent.dueAt)
  }

  predicate CanonicalCheckpoint(k: Checkpoint) {
    k.predecessor != k.audited && k.providerTotal >= 1 && CanonicalWake(k.wake)
  }

  /** `ObservationId` is the digest of the identity material; `OpportunityMaterialIsUnique` in IdentityPreimages shows
      that the material determines the opportunity. */
  datatype TaskId = ObservationId(opportunity: Opportunity) | CheckpointId(text: string) | OtherId(text: string)

  datatype TaskKey = OpportunityKey(opportunity: Opportunity) | OtherKey(text: string)

  datatype Opportunity = Opportunity(
    generation: nat, due: I64, anchorTask: TaskId, anchorHash: Digest, predTask: Option<TaskId>, predHash: Option<Digest>)

  datatype Facts = Facts(
    opportunity: Opportunity, captured: I64, providerScope: string, providerTotal: nat, providerLimit: nat,
    predecessorAction: ActionName, auditedAction: ActionName, wakeScope: string, wakeHash: WakeHash)

  datatype Definition = ObservationDefinition(facts: Facts) | OtherDefinition(text: string)

  datatype Output = Payload(facts: Facts) | CheckpointBytes(checkpoint: Checkpoint) | OtherBytes(text: string)

  datatype Digest = Sha256(output: Output)

  datatype TaskResult = TaskResult(output: Output, canonicalEnvelope: bool)

  type Task = WorkTask<TaskId, TaskKey, Definition, TaskResult>

  type TaskStore = WorkStore<TaskId, TaskKey, Definition, TaskResult>

  predicate ValidOpportunity(o: Opportunity) {
    && 1 <= o.generation <= MAX_GENERATION && o.due >= 0 && o.anchorTask.CheckpointId?
    && if o.generation == 1 then o.predTask.None? && o.predHash.None?
       else o.predTask.Some? && o.predHash.Some? && o.predTask.value.ObservationId?
  }

  predicate ValidFacts(f: Facts) {
    && ValidOpportunity(f.opportunity) && f.captured >= f.opportunity.due
    && f.providerScope == PROVIDER_SCOPE && f.providerLimit != 0 && f.providerTotal <= f.providerLimit
    && f.predecessorAction.ProviderAction? && f.auditedAction.ProviderAction? && f.predecessorAction != f.auditedAction
    && f.wakeScope == WAKE_SCOPE
  }

  /** `make_local_continuity_observation_task`; `None` is the thrown `invalid_argument`. */
  function MakeObservation(f: Facts): (t: Option<Task>)
    ensures t.Some? <==> ValidFacts(f)
    ensures t.Some? ==> t.value.id == ObservationId(f.opportunity) && t.value.definition == ObservationDefinition(f)
  {
    if !ValidFacts(f) then None
    else Some(WorkTask(ObservationId(f.opportunity), OpportunityKey(f.opportunity), ObservationDefinition(f), Pending, 0, "", None))
  }

  /** `canonical_local_continuity_observation_success`. */
  predicate CanonicalObservation(t: Task) {
    && t.definition.ObservationDefinition? && MakeObservation(t.definition.facts).Some?
    && SameDefinition(t, MakeObservation(t.definition.facts).value)
    && t.status == Succeeded && t.result.Some? && t.result.value.canonicalEnvelope
    && t.result.value.output == Payload(t.definition.facts)
  }

  /** `inspect_anchor`: the checkpoint evidence of a succeeded anchor Task. */
  function AnchorEvidence(tasks: TaskStore, id: TaskId): (r: Option<Checkpoint>)
    ensures r.Some? ==> CanonicalCheckpoint(r.value)
  {
    var t := Find(tasks, id);
    if t.Some? && id.CheckpointId? && t.value.status == Succeeded && t.value.result.Some? && t.value.result.value.canonicalEnvelope
       && t.value.result.value.output.CheckpointBytes? && CanonicalCheckpoint(t.value.result.value.output.checkpoint)
    then Some(t.value.result.value.output.checkpoint) else None
  }

  predicate AnchorHolds(tasks: TaskStore, id: TaskId, hash: Digest) {
    AnchorEvidence(tasks, id).Some? && Sha256(CheckpointBytes(AnchorEvidence(tasks, id).value)) == hash
  }

  // --- The evidence stores at the time of a capture ---------------------------------------------------------------

  datatype ActionStatus = ActionSucceeded | ActionUnfinished

  datatype EffectResult = EffectConfirmed | EffectUnconfirmed

  datatype Action = Action(id: ActionName, key: ActionName, status: ActionStatus, effect: EffectResult, leased: bool)

  datatype WakeAnswer = NoWake | SeveralWakes | WakeRow(intent: Option<WakeIntent>)

  /** What the Action store, the budget store and the wake store answer; a budget scope without a total is a snapshot
      that fails. */
  datatype Evidence = Evidence(
    byId: map<ActionName, Action>, byKey: map<ActionName, Action>, totals: map<string, nat>, wakes: map<string, WakeAnswer>)

  /** `require_confirmed_action`. */
  predicate ConfirmedAction(e: Evidence, id: ActionName, key: ActionName) {
    && id in e.byId && key in e.byKey && e.byId[id].id == e.byKey[key].id && e.byId[id].id == id && e.byId[id].key == key
    && e.byId[id].status.ActionSucceeded? && e.byId[id].effect.EffectConfirmed? && !e.byId[id].leased
  }

  /** `current_wake_canonical`; `None` covers an ambiguous scope and a row without its intent. */
  function CurrentWake(e: Evidence, scope: string): Option<WakeText> {
    match (if scope in e.wakes then e.wakes[scope] else NoWake)
    case NoWake => Some(EmptyWake(scope))
    case SeveralWakes => None
    case WakeRow(intent) => if intent.None? then None else Some(OneWake(scope, intent.value))
  }

  /** `capture_facts` for an opportunity frozen at `captured`; `None` is whatever it throws. */
  function CaptureFacts(o: Opportunity, captured: I64, k: Checkpoint, e: Evidence): Option<Facts> {
    if !ConfirmedAction(e, ProviderAction(k.predecessor), ProviderAction(k.predecessor)) then None
    else if !ConfirmedAction(e, ProviderAction(k.audited), ProviderAction(k.audited)) then None
    else if PROVIDER_SCOPE !in e.totals || e.totals[PROVIDER_SCOPE] != k.providerTotal then None
    else
      var wake := CurrentWake(e, WAKE_SCOPE);
      if wake.None? || wake.value != k.wake || WakeSha256(wake.value) != WakeSha256(k.wake) then None
      else Some(Facts(o, captured, PROVIDER_SCOPE, e.totals[PROVIDER_SCOPE], PROVIDER_LIMIT,
                      ProviderAction(k.predecessor), ProviderAction(k.audited), WAKE_SCOPE, WakeSha256(k.wake)))
  }

  /** The facts that an opportunity and its anchor determine without any other store. */
  function AnchoredFacts(o: Opportunity, captured: I64, k: Checkpoint): Facts {
    Facts(o, captured, PROVIDER_SCOPE, k.providerTotal, PROVIDER_LIMIT, ProviderAction(k.predecessor), ProviderAction(k.audited),
          WAKE_SCOPE, WakeSha256(k.wake))
  }

  /** The stores still say what the anchor froze. */
  predicate EvidenceAgrees(k: Checkpoint, e: Evidence) {
    && ConfirmedAction(e, ProviderAction(k.predecessor), ProviderAction(k.predecessor))
    && ConfirmedAction(e, ProviderAction(k.audited), ProviderAction(k.audited))
    && PROVIDER_SCOPE in e.totals && e.totals[PROVIDER_SCOPE] == k.providerTotal
    && CurrentWake(e, WAKE_SCOPE) == Some(k.wake)
  }

  /** Whatever the stores say, a capture yields the facts the anchor determines or none at all, and it yields them
      exactly while the stores agree with the anchor. */
  lemma CaptureIsAnchored(o: Opportunity, captured: I64, k: Checkpoint, e: Evidence)
    ensures CaptureFacts(o, captured, k, e) == if EvidenceAgrees(k, e) then Some(AnchoredFacts(o, captured, k)) else None
  {
  }

  /** Anchored facts can be refused by the Task builder for one reason only: a provider total above the limit. */
  lemma AnchoredFactsAreValid(o: Opportunity, captured: I64, k: Checkpoint)
    requires ValidOpportunity(o) && captured >= o.due && CanonicalCheckpoint(k)
    ensures MakeObservation(AnchoredFacts(o, captured, k)).Some? <==> k.providerTotal <= PROVIDER_LIMIT
  {
  }
}
