/** The four classes that share the pulse cursor, the Task table and the Action store: the pulse itself, the
    read-only provider gate, stale refresh and the provider service (src/AutonomousCognition*.cpp,
    src/ProviderTaskHandler.cpp). `Fault` arguments say where the process may stop. */
module PulseAgentModel {
  import opened Base
  import opened Work
  import opened CognitionTasks
  import opened PulseStoreModel

  datatype Consume = Accepted | Duplicate | TotalExhausted | WindowExhausted | Cooldown | BudgetClockRollback

  // --- Actions: the durable evidence of a provider effect ---------------------------------------------------

  datatype ActionName = ProviderCall(task: TaskId) | OtherAction(text: string)

  /** The Action store by contract: ids and idempotency keys are unique and rows are never removed. */
  datatype ActionStore = ActionStore(ids: set<ActionName>, keys: set<ActionName>)

  /** `provider_action_absent`. */
  predicate ActionAbsent(actions: ActionStore, t: Task) {
    ProviderCall(t.id) !in actions.ids && ProviderCall(t.key) !in actions.keys
  }

  /** A provider Action is only ever created inside an execution of its Task, and an execution counts an attempt. */
  ghost predicate ActionsFollowAttempts(actions: ActionStore, tasks: TaskStore) {
    && (forall id :: ProviderCall(id) in actions.ids ==> id in tasks.rows && tasks.rows[id].attempts >= 1)
    && (forall k :: ProviderCall(k) in actions.keys ==>
          k in tasks.keys && tasks.keys[k] in tasks.rows && tasks.rows[tasks.keys[k]].attempts >= 1)
  }

  // --- The provider gate -----------------------------------------------------------------------------------

  datatype GateReason =
    | CursorNotCanonical | PulseBlocked | DeadlineInconsistent | GateTaskMissing | GateTaskNotCanonical | NonSuccessTerminal
    | OwnershipAmbiguous | AttemptsExhausted | PredecessorDiffers | SnapshotDiffers | CaptureDiffers | GateSnapshotMissing
    | SnapshotNotCanonical | SnapshotDrifted | PredecessorGone | PredecessorHashDrifted | EmbeddedDecisionDrifted
    | AuthorityAmbiguous | ClockBehindContext | ContextStale | ActionExists | BudgetRollback | BudgetReturnedDuplicate

  datatype Gate = Eligible(task: TaskId) | GateWaiting | GateDormant | GateBlocked(reason: GateReason) | GateUnavailable

  /** The selector of non-terminal current-cognition Tasks. */
  function NonTerminalCognition(tasks: TaskStore): set<TaskId> {
    set id | id in tasks.rows && tasks.rows[id].definition.CognitionDefinition? && !Terminal(tasks.rows[id].status)
  }

  /** `AutonomousCognitionProviderGate::evaluate`: a read-only decision. */
  function GateOf(c: Cursor, tasks: TaskStore, actions: ActionStore, now: I64, budget: Consume, selector: bool): Gate {
    if !ValidCursor(c) then GateBlocked(CursorNotCanonical)
    else match c.state
         case Idle => GateWaiting
         case Quiescent => GateWaiting
         case Preparing => GateWaiting
         case Blocked => GateBlocked(PulseBlocked)
         case Prepared => PreparedGate(c, tasks, actions, now, budget, selector)
  }

  function PreparedGate(c: Cursor, tasks: TaskStore, actions: ActionStore, now: I64, budget: Consume, selector: bool): Gate
    requires ValidCursor(c) && c.state.Prepared?
  {
    if c.observed.value < c.due then GateBlocked(DeadlineInconsistent)
    else
      var found := Find(tasks, c.currentTask.value);
      if found.None? then GateBlocked(GateTaskMissing)
      else if !CurrentCognition(found.value) then GateBlocked(GateTaskNotCanonical)
      else if Terminal(found.value.status) then
        if found.value.status == Succeeded then GateWaiting else GateBlocked(NonSuccessTerminal)
      else if found.value.status != Pending then GateBlocked(OwnershipAmbiguous)
      else if found.value.attempts >= MAX_ATTEMPTS then GateBlocked(AttemptsExhausted)
      else EvidenceGate(c, found.value, tasks, actions, now, budget, selector)
  }

  function EvidenceGate(c: Cursor, t: Task, tasks: TaskStore, actions: ActionStore, now: I64, budget: Consume, selector: bool): Gate
    requires ValidCursor(c) && c.state.Prepared? && CurrentCognition(t)
  {
    var lineage := t.definition.linkage;
    if lineage.predTask != c.predTask then GateBlocked(PredecessorDiffers)
    else if lineage.snapshotTask != c.snapshotTask.value then GateBlocked(SnapshotDiffers)
    else if lineage.capsule.capturedAt != c.observed.value then GateBlocked(CaptureDiffers)
    else
      var snapshot := Find(tasks, c.snapshotTask.value);
      if snapshot.None? then GateBlocked(GateSnapshotMissing)
      else if !CanonicalSnapshot(snapshot.value) then GateBlocked(SnapshotNotCanonical)
      else if snapshot.value.definition.capsule != lineage.capsule then GateBlocked(SnapshotDrifted)
      else
        var predecessor := Find(tasks, c.predTask);
        if predecessor.None? || !CurrentCognition(predecessor.value) || predecessor.value.status != Succeeded
           || predecessor.value.result.None? || !predecessor.value.result.value.canonicalType then GateBlocked(PredecessorGone)
        else if ResultHash(predecessor.value) != c.predHash then GateBlocked(PredecessorHashDrifted)
        else if predecessor.value.result.value.output != DecisionBytes(lineage.decision) then GateBlocked(EmbeddedDecisionDrifted)
        else if !selector then GateUnavailable
        else if NonTerminalCognition(tasks) != {t.id} then GateBlocked(AuthorityAmbiguous)
        else if now < lineage.capsule.capturedAt then GateBlocked(ClockBehindContext)
        else if now - lineage.capsule.capturedAt > MAX_SNAPSHOT_AGE_MS then GateBlocked(ContextStale)
        else if !ActionAbsent(actions, t) then GateBlocked(ActionExists)
        else match budget
             case Accepted => Eligible(t.id)
             case Cooldown => GateWaiting
             case WindowExhausted => GateWaiting
             case TotalExhausted => GateDormant
             case BudgetClockRollback => GateBlocked(BudgetRollback)
             case Duplicate => GateBlocked(BudgetReturnedDuplicate)
  }

  // --- What each pulse call is meant to do -------------------------------------------------------------------

  datatype PulseResult =
    | Unseeded | Seeded | DuplicateSeed | NotDue | BudgetBlocked | PreparingResult | PreparedResult | Waiting
    | SettledContinue | SettledStop | ClockRollback | BlockedResult | ConflictResult | UnavailableResult

  datatype Plan = Stay(result: PulseResult) | WriteCursor(cursor: Cursor, result: PulseResult)

  /** `add_hours`, with its explicit overflow check. */
  function AddCadence(base: I64, cadence: I64): (r: Option<I64>)
    requires cadence >= 0
    ensures r.Some? ==> r.value == base + cadence
    ensures r.None? <==> base < 0 || base + cadence > INT64_MAX
  {
    if base < 0 || base > INT64_MAX - cadence then None else Some(base + cadence)
  }

  function Block(c: Cursor, reason: BlockReason): Plan
    requires ValidCursor(c)
  {
    WriteCursor(c.(revision := c.revision + 1, state := PulseState.Blocked, blocked := Some(reason)), BlockedResult)
  }

  function PlanPrepared(c: Cursor, tasks: TaskStore, now: I64): Plan
    requires ValidCursor(c) && c.state.Prepared?
  {
    var t := Find(tasks, c.currentTask.value);
    if t.None? then Block(c, TaskMissing)
    else if !Terminal(t.value.status) then Stay(Waiting)
    else if t.value.status != Succeeded then Block(c, TaskFailed)
    else if !CanonicalCognition(t.value) then Block(c, ResultNotCanonical)
    else
      var stop := t.value.result.value.output.decision.Stop?;
      var due := AddCadence(now, if stop then QUIESCENT_CADENCE_MS else CONTINUE_CADENCE_MS);
      if due.None? then Block(c, DeadlineOverflows)
      else WriteCursor(
        c.(revision := c.revision + 1, generation := c.generation + 1, state := if stop then Quiescent else Idle,
           predTask := t.value.id, predHash := ResultHash(t.value), anchor := now, due := due.value,
           observed := None, snapshotTask := None, currentTask := None, blocked := None),
        if stop then SettledStop else SettledContinue)
  }

  function Frozen(c: Cursor, now: I64): Cursor
    requires ValidCursor(c)
  {
    c.(revision := c.revision + 1, state := Preparing, observed := Some(now))
  }

  /** What the snapshot recorder answered, and the Task table it left behind. */
  datatype Recorder =
    | Recorded(tasks: TaskStore, snapshot: TaskId)
    | RecorderRefused(tasks: TaskStore)
    | RecorderUnavailable(tasks: TaskStore)

  predicate CapturedAt(tasks: TaskStore, snapshot: TaskId, at: I64) {
    snapshot in tasks.rows && tasks.rows[snapshot].definition.SnapshotDefinition? ==> tasks.rows[snapshot].definition.capsule.capturedAt == at
  }

  /** The recorder's contract: it only adds or finishes Tasks, and its clock is fixed at the frozen observation, which
      the recorded document repeats. What it recorded is checked by the claim. */
  ghost predicate RecorderKeepsContract(recorder: Recorder, tasks: TaskStore, observed: I64) {
    && WellFormedStore(recorder.tasks) && Evolves(tasks, recorder.tasks)
    && (recorder.Recorded? ==> CapturedAt(recorder.tasks, recorder.snapshot, observed))
  }

  /** The observation a call records, if it records one. */
  function ObservationTime(row: Option<Cursor>, now: I64): I64 {
    if row.Some? && row.value.state.Preparing? && row.value.observed.Some? then row.value.observed.value else now
  }

  /** Everything one `observe` call meets: its clock readings, the budget store's answers, what the recorder and the
      Runtime do, and where its two cursor writes fail. */
  datatype Inputs = Inputs(
    now: I64, budget: Consume, frozenBudget: Consume, recorder: Recorder, claimNow: I64, reply: SubmitReply,
    freezeFault: Fault, fault: Fault)

  datatype Preparation = Preparation(tasks: TaskStore, plan: Plan)

  function ClaimFor(c: Cursor, tasks: TaskStore, snapshot: TaskId, now: I64, reply: SubmitReply): Preparation
    requires ValidCursor(c) && c.state.Preparing?
  {
    var (tasks', claimed) := Claim(tasks, c.predTask, snapshot, now, reply);
    match claimed
    case ClaimUnavailable => Preparation(tasks', Stay(UnavailableResult))
    case ClaimRefused => Preparation(tasks', Block(c, ClaimFailed))
    case Claimed(task) =>
      Preparation(tasks', WriteCursor(c.(revision := c.revision + 1, state := Prepared, snapshotTask := Some(snapshot),
                                         currentTask := Some(task.id)), PreparedResult))
  }

  function Prepare(c: Cursor, tasks: TaskStore, x: Inputs): Preparation
    requires ValidCursor(c) && c.state.Preparing?
  {
    if x.now < c.observed.value then Preparation(tasks, Stay(ClockRollback))
    else if x.now - c.observed.value > MAX_SNAPSHOT_AGE_MS then Preparation(tasks, Block(c, ObservationStale))
    else if !CanonicalAt(tasks, c.predTask, c.predHash) then Preparation(tasks, Block(c, PredecessorChanged))
    else if !x.frozenBudget.Accepted? then Preparation(tasks, Block(c, BudgetNotAccepted))
    else match x.recorder
         case RecorderUnavailable(t) => Preparation(t, Stay(UnavailableResult))
         case RecorderRefused(t) => Preparation(t, Block(c, SnapshotFailed))
         case Recorded(t, snapshot) => ClaimFor(c, t, snapshot, x.claimNow, x.reply)
  }

  /** One compare-and-swap of the cursor row and the answer it leads to. */
  ghost predicate PlanEffect(c: Cursor, plan: Plan, fault: Fault, log: seq<Cursor>, log': seq<Cursor>, result: PulseResult) {
    match plan
    case Stay(r) => log' == log && result == r
    case WriteCursor(r, code) =>
      var legal := StoreAllows(c, r);
      && log' == (if legal && !fault.FailsBeforeCommit? then log + [r] else log)
      && result == (if !legal then ConflictResult else if fault.Healthy? then code else UnavailableResult)
  }

  // --- Stale retirement ------------------------------------------------------------------------------------

  const RETIREMENT_REASON := "autonomous pulse retired stale current cognition before provider effect"

  /** `exact_retirement_marker`. */
  predicate Retired(t: Task) {
    && t.status == Cancelled && t.attempts == 0 && t.cancelReason == RETIREMENT_REASON
    && t.result.Some? && t.result.value.failureCode == "cancelled" && t.result.value.failureMessage == RETIREMENT_REASON
  }

  /** What the work Runtime makes of a pending Task it cancels. */
  function CancelledTask(t: Task): Task {
    t.(status := Cancelled, cancelReason := RETIREMENT_REASON,
       result := Some(TaskResult(OtherBytes(""), false, "cancelled", RETIREMENT_REASON)))
  }

  function ResetCursor(c: Cursor): Cursor
    requires ValidCursor(c)
  {
    c.(revision := c.revision + 1, state := Idle, observed := None, snapshotTask := None, currentTask := None, blocked := None)
  }

  /** `RefreshDied` is no answer: the process stopped between the cancellation and the reset. */
  datatype RefreshResult = NotApplicable | RefreshRetired | RefreshBlocked | RefreshUnavailable | RefreshDied

  datatype RefreshPlan = Leave(result: RefreshResult) | Reset | CancelThenReset

  /** The intended effect of one stale-refresh step on the cursor that was read. */
  function PlanRefresh(c: Cursor, tasks: TaskStore, actions: ActionStore, gate: Gate): RefreshPlan {
    if !c.state.Prepared? || c.currentTask.None? then Leave(NotApplicable)
    else
      var t := Find(tasks, c.currentTask.value);
      if t.None? then Leave(RefreshBlocked)
      else if Retired(t.value) then (if ActionAbsent(actions, t.value) then Reset else Leave(RefreshBlocked))
      else match gate
           case GateUnavailable => Leave(RefreshUnavailable)
           case GateBlocked(reason) =>
             if reason != ContextStale then Leave(RefreshBlocked)
             else if t.value.status != Pending || t.value.attempts != 0 || !ActionAbsent(actions, t.value) then Leave(RefreshBlocked)
             else CancelThenReset
           case _ => Leave(NotApplicable)
  }

  // --- Invariant over the cursor history, the Task table, the Action store and the provider calls -----------

  ghost predicate SettlementCanonical(log: seq<Cursor>, tasks: TaskStore, i: int)
    requires 0 <= i < |log| - 1
  {
    Settles(log[i], log[i + 1]) ==> CanonicalAt(tasks, log[i + 1].predTask, log[i + 1].predHash)
  }

  ghost predicate ResetRetired(log: seq<Cursor>, tasks: TaskStore, i: int)
    requires 0 <= i < |log| - 1
  {
    Resets(log[i], log[i + 1]) ==>
      log[i].currentTask.Some? && log[i].currentTask.value in tasks.rows && Retired(tasks.rows[log[i].currentTask.value])
  }

  ghost predicate HistoryWitnessed(log: seq<Cursor>, tasks: TaskStore) {
    forall i :: 0 <= i < |log| - 1 ==> SettlementCanonical(log, tasks, i) && ResetRetired(log, tasks, i)
  }

  /** Every provider invocation left its Action behind, and no Task was invoked twice. */
  ghost predicate CallsRecorded(calls: seq<TaskId>, actions: ActionStore) {
    && (forall k :: 0 <= k < |calls| ==> ProviderCall(calls[k]) in actions.ids)
    && (forall j, k :: 0 <= j < k < |calls| ==> calls[j] != calls[k])
  }

  /** The Task a prepared cursor names links the very predecessor and snapshot of that cursor, and both are still
      canonical in the Task table. */
  ghost predicate EvidenceInPlace(c: Cursor, tasks: TaskStore) {
    c.state.Prepared? ==>
      && c.currentTask.Some? && c.snapshotTask.Some?
      && c.currentTask.value in tasks.rows && c.snapshotTask.value in tasks.rows && c.predTask in tasks.rows
      && CurrentCognition(tasks.rows[c.currentTask.value])
      && CanonicalSnapshot(tasks.rows[c.snapshotTask.value])
      && CanonicalAt(tasks, c.predTask, c.predHash)
      && var linkage := tasks.rows[c.currentTask.value].definition.linkage;
      && linkage.predTask == c.predTask && linkage.snapshotTask == c.snapshotTask.value
      && c.observed == Some(linkage.capsule.capturedAt)
      && linkage.capsule == tasks.rows[c.snapshotTask.value].definition.capsule
      && DecisionBytes(linkage.decision) == tasks.rows[c.predTask].result.value.output
  }

  lemma CanonicalStays(tasks: TaskStore, tasks': TaskStore, id: TaskId, hash: Digest)
    requires CanonicalAt(tasks, id, hash) && Evolves(tasks, tasks')
    ensures CanonicalAt(tasks', id, hash) && tasks'.rows[id] == tasks.rows[id]
  {
  }

  /** A claim that succeeds leaves the evidence its prepared cursor rests on in place. */
  lemma ClaimLeavesEvidence(c: Cursor, tasks: TaskStore, snapshot: TaskId, now: I64, reply: SubmitReply, prepared: Cursor)
    requires WellFormedStore(tasks) && CanonicalAt(tasks, c.predTask, c.predHash)
    requires var claimed := Claim(tasks, c.predTask, snapshot, now, reply).1;
      claimed.Claimed? && prepared.currentTask == Some(claimed.task.id)
    requires prepared.predTask == c.predTask && prepared.predHash == c.predHash && prepared.snapshotTask == Some(snapshot)
    requires prepared.observed.Some? && CapturedAt(tasks, snapshot, prepared.observed.value)
    ensures EvidenceInPlace(prepared, Claim(tasks, c.predTask, snapshot, now, reply).0)
  {
    hide Claim;
    ClaimOnlyInserts(tasks, c.predTask, snapshot, now, reply);
    ClaimLinksItsEvidence(tasks, c.predTask, snapshot, now, reply);
    CanonicalStays(tasks, Claim(tasks, c.predTask, snapshot, now, reply).0, c.predTask, c.predHash);
  }

  lemma EvidenceStays(c: Cursor, tasks: TaskStore, tasks': TaskStore)
    requires EvidenceInPlace(c, tasks) && Evolves(tasks, tasks')
    ensures EvidenceInPlace(c, tasks')
  {
  }

  ghost predicate PulseInvariant(log: seq<Cursor>, tasks: TaskStore, actions: ActionStore, calls: seq<TaskId>) {
    && PulseChain(log)
    && WellFormedStore(tasks)
    && HistoryWitnessed(log, tasks)
    && (log != [] ==> EvidenceInPlace(log[|log| - 1], tasks))
    && ActionsFollowAttempts(actions, tasks)
    && CallsRecorded(calls, actions)
  }

  /** What the other owners of the Task table and of the Action store may do between two calls. */
  ghost predicate WorldMoves(tasks: TaskStore, actions: ActionStore, tasks': TaskStore, actions': ActionStore) {
    && WellFormedStore(tasks') && Evolves(tasks, tasks')
    && actions.ids <= actions'.ids && actions.keys <= actions'.keys
    && ActionsFollowAttempts(actions', tasks')
  }

  lemma WorldKeepsInvariant(log: seq<Cursor>, tasks: TaskStore, actions: ActionStore, calls: seq<TaskId>,
                            tasks': TaskStore, actions': ActionStore)
    requires PulseInvariant(log, tasks, actions, calls) && WorldMoves(tasks, actions, tasks', actions')
    ensures PulseInvariant(log, tasks', actions', calls)
  {
    if log != [] {
      EvidenceStays(log[|log| - 1], tasks, tasks');
    }
    forall i | 0 <= i < |log| - 1
      ensures SettlementCanonical(log, tasks', i) && ResetRetired(log, tasks', i)
    {
      assert SettlementCanonical(log, tasks, i) && ResetRetired(log, tasks, i);
    }
  }

  lemma TasksKeepInvariant(log: seq<Cursor>, tasks: TaskStore, actions: ActionStore, calls: seq<TaskId>, tasks': TaskStore)
    requires PulseInvariant(log, tasks, actions, calls) && WellFormedStore(tasks') && Evolves(tasks, tasks')
    ensures PulseInvariant(log, tasks', actions, calls)
  {
    forall k | ProviderCall(k) in actions.keys
      ensures k in tasks'.keys && tasks'.keys[k] in tasks'.rows && tasks'.rows[tasks'.keys[k]].attempts >= 1
    {
      assert tasks'.rows[tasks.keys[k]].key == k;
    }
    WorldKeepsInvariant(log, tasks, actions, calls, tasks', actions);
  }

  lemma WriteKeepsInvariant(log: seq<Cursor>, tasks: TaskStore, actions: ActionStore, calls: seq<TaskId>, r: Cursor)
    requires PulseInvariant(log, tasks, actions, calls) && log != [] && EvidenceInPlace(r, tasks)
    requires var e := log[|log| - 1];
      && PulseTransition(e, r)
      && (Settles(e, r) ==> CanonicalAt(tasks, r.predTask, r.predHash))
      && (Resets(e, r) ==> e.currentTask.Some? && e.currentTask.value in tasks.rows && Retired(tasks.rows[e.currentTask.value]))
    ensures PulseInvariant(log + [r], tasks, actions, calls)
  {
    var log' := log + [r];
    forall i | 0 <= i < |log'| - 1
      ensures PulseTransition(log'[i], log'[i + 1]) && SettlementCanonical(log', tasks, i) && ResetRetired(log', tasks, i)
    {
      if i < |log| - 1 {
        assert PulseTransition(log[i], log[i + 1]) && SettlementCanonical(log, tasks, i) && ResetRetired(log, tasks, i);
      }
    }
  }

  // --- The services ------------------------------------------------------------------------------------------

  /** What one stale-refresh step meets: its clock and gate inputs, whether the Runtime cancels, whether the process
      dies right after the cancellation, and where the cursor write fails. */
  datatype RefreshInputs = RefreshInputs(now: I64, budget: Consume, selector: bool, cancels: bool, dies: bool, fault: Fault)

  /** One execution of the provider handler. `diesAfter` is where the process stops, if it stops. */
  datatype Stage = Survives | DiesAfterStart | DiesAfterAction | DiesAfterCall
  datatype Run = Run(startable: bool, diesAfter: Stage, budget: Consume, status: Status, result: Option<TaskResult>)

  /** The handler gets as far as its Action: it outlives its start and the budget admits the call. */
  predicate Acts(run: Run) {
    !run.diesAfter.DiesAfterStart? && (run.budget.Accepted? || run.budget.Duplicate?)
  }

  function WithAction(actions: ActionStore, t: Task): ActionStore {
    ActionStore(actions.ids + {ProviderCall(t.id)}, actions.keys + {ProviderCall(t.key)})
  }

  /** The row after one execution: started, and finished unless the process died on the way. */
  function ExecutedTask(t: Task, run: Run): Task {
    var started := t.(status := Running, attempts := t.attempts + 1);
    if run.diesAfter.DiesAfterStart? || (Acts(run) && !run.diesAfter.Survives?) then started
    else started.(status := run.status, result := run.result)
  }

  class PulseAgent {
    const store: PulseStore
    var tasks: TaskStore
    var actions: ActionStore
    ghost var calls: seq<TaskId>

    ghost predicate Valid()
      reads this, store
    {
      store.Valid() && PulseInvariant(store.log, tasks, actions, calls)
    }

    constructor (tasks: TaskStore, actions: ActionStore)
      requires WellFormedStore(tasks) && ActionsFollowAttempts(actions, tasks)
      ensures Valid() && fresh(store) && store.log == [] && calls == [] && this.tasks == tasks && this.actions == actions
    {
      store := new PulseStore();
      this.tasks, this.actions, calls := tasks, actions, [];
    }

    /** Lease recovery, operator cancellation, other Tasks and other Actions. */
    method World(tasks': TaskStore, actions': ActionStore)
      requires Valid() && WorldMoves(tasks, actions, tasks', actions')
      modifies this`tasks, this`actions
      ensures Valid() && tasks == tasks' && actions == actions'
    {
      WorldKeepsInvariant(store.log, tasks, actions, calls, tasks', actions');
      tasks, actions := tasks', actions';
    }

    /** `seed`. */
    method Seed(predecessor: TaskId, now: I64, fault: Fault) returns (result: PulseResult)
      requires Valid()
      modifies store
      ensures Valid()
      ensures old(store.row).Some? ==>
        && store.log == old(store.log)
        && result == (if old(store.row).value.generation > 0 || old(store.row).value.predTask == predecessor then DuplicateSeed else ConflictResult)
      ensures old(store.row).None? ==>
        var seeded := SeedCursor(tasks, predecessor, now);
        && store.log == (if seeded.Some? && !fault.FailsBeforeCommit? then [seeded.value] else [])
        && (result.Seeded? <==> seeded.Some? && fault.Healthy?)
    {
      if store.row.Some? {
        return if store.row.value.generation > 0 || store.row.value.predTask == predecessor then DuplicateSeed else ConflictResult;
      }
      var found := Find(tasks, predecessor);
      if found.None? || !CanonicalCognition(found.value) {
        return ConflictResult;
      }
      if now < 0 {
        return ClockRollback;
      }
      var stop := found.value.result.value.output.decision.Stop?;
      var due := AddCadence(now, if stop then QUIESCENT_CADENCE_MS else CONTINUE_CADENCE_MS);
      if due.None? {
        return ConflictResult;
      }
      var cursor := Cursor(0, 0, if stop then Quiescent else Idle, predecessor, ResultHash(found.value), now, due.value, None, None, None, None);
      var write := store.Seed(cursor, fault);
      result := match write
        case WriteAccepted => Seeded
        case WriteDuplicate => DuplicateSeed
        case WriteUnavailable => UnavailableResult
        case _ => ConflictResult;
    }

    /** `observe` up to the point where the cursor is preparing; a due idle cursor is frozen and prepared in one call. */
    method Observe(x: Inputs) returns (result: PulseResult)
      requires Valid() && RecorderKeepsContract(x.recorder, tasks, ObservationTime(store.row, x.now))
      modifies this`tasks, store
      ensures Valid()
      ensures old(store.row).None? ==> result == Unseeded && store.log == old(store.log) && tasks == old(tasks)
      ensures old(store.row).Some? ==> ObserveEffect(old(store.row).value, old(tasks), x, old(store.log), store.log, tasks, result)
    {
      hide PulseInvariant, StoreChain, StoreAllows, PlanPrepared, PlanEffect, Prepare, IdleEffect, RecorderKeepsContract;
      if store.row.None? {
        return Unseeded;
      }
      var cursor := store.row.value;
      if cursor.state.Blocked? {
        return BlockedResult;
      }
      if x.now < cursor.anchor {
        return ClockRollback;
      }
      if cursor.state.Prepared? {
        result := ObservePrepared(cursor, x.now, x.fault);
        return;
      }
      if cursor.state.Preparing? {
        result := ObservePreparing(cursor, x);
        return;
      }
      result := ObserveIdle(cursor, x);
    }

    /** An idle or quiescent cursor: when it is due and affordable it is frozen, and prepared in the same call. */
    method ObserveIdle(cursor: Cursor, x: Inputs) returns (result: PulseResult)
      requires Valid() && store.row == Some(cursor) && (cursor.state.Idle? || cursor.state.Quiescent?) && cursor.anchor <= x.now
      requires RecorderKeepsContract(x.recorder, tasks, x.now)
      modifies this`tasks, store
      ensures Valid()
      ensures IdleEffect(cursor, old(tasks), x, old(store.log), store.log, tasks, result)
    {
      hide PulseInvariant, StoreChain, CanonicalAt, Prepare, RecorderKeepsContract;
      if !CanonicalAt(tasks, cursor.predTask, cursor.predHash) {
        result := BlockCursor(cursor, PredecessorNotCanonical, x.fault);
        return;
      }
      if x.now < cursor.due {
        return NotDue;
      }
      if !x.budget.Accepted? {
        return BudgetBlocked;
      }
      var preparing := cursor.(revision := cursor.revision + 1, state := Preparing, observed := Some(x.now));
      result := Commit(cursor, preparing, PreparingResult, x.freezeFault);
      if result != PreparingResult {
        return;
      }
      result := ObservePreparing(preparing, x);
    }

    method ObservePrepared(cursor: Cursor, now: I64, fault: Fault) returns (result: PulseResult)
      requires Valid() && store.row == Some(cursor) && cursor.state.Prepared? && cursor.anchor <= now
      modifies store
      ensures Valid()
      ensures PlanEffect(cursor, PlanPrepared(cursor, tasks, now), fault, old(store.log), store.log, result)
    {
      hide PulseInvariant;
      var task := Find(tasks, cursor.currentTask.value);
      if task.None? {
        result := BlockCursor(cursor, TaskMissing, fault);
        return;
      }
      if !Terminal(task.value.status) {
        return Waiting;
      }
      if task.value.status != Succeeded {
        result := BlockCursor(cursor, TaskFailed, fault);
        return;
      }
      if !CanonicalCognition(task.value) {
        result := BlockCursor(cursor, ResultNotCanonical, fault);
        return;
      }
      var settled := cursor;
      settled := settled.(revision := settled.revision + 1, generation := settled.generation + 1);
      settled := settled.(predTask := cursor.currentTask.value, predHash := ResultHash(task.value), anchor := now);
      settled := settled.(observed := None, snapshotTask := None, currentTask := None, blocked := None);
      var stop := task.value.result.value.output.decision.Stop?;
      settled := settled.(state := if stop then Quiescent else Idle);
      var due := AddCadence(now, if stop then QUIESCENT_CADENCE_MS else CONTINUE_CADENCE_MS);
      if due.None? {
        result := BlockCursor(cursor, DeadlineOverflows, fault);
        return;
      }
      settled := settled.(due := due.value);
      TaskAtHand(store.log, tasks, actions, calls, cursor.currentTask.value);
      result := Commit(cursor, settled, if stop then SettledStop else SettledContinue, fault);
    }

    method ObservePreparing(cursor: Cursor, x: Inputs) returns (result: PulseResult)
      requires Valid() && store.row == Some(cursor) && cursor.state.Preparing? && cursor.anchor <= x.now
      requires cursor.observed.Some? && RecorderKeepsContract(x.recorder, tasks, cursor.observed.value)
      modifies this`tasks, store
      ensures Valid()
      ensures var p := Prepare(cursor, old(tasks), x);
        tasks == p.tasks && PlanEffect(cursor, p.plan, x.fault, old(store.log), store.log, result)
    {
      hide PulseInvariant, StoreChain, StoreAllows, CanonicalAt, ClaimFor;
      if x.now < cursor.observed.value {
        return ClockRollback;
      }
      if x.now - cursor.observed.value > MAX_SNAPSHOT_AGE_MS {
        result := BlockCursor(cursor, ObservationStale, x.fault);
        return;
      }
      if !CanonicalAt(tasks, cursor.predTask, cursor.predHash) {
        result := BlockCursor(cursor, PredecessorChanged, x.fault);
        return;
      }
      if !x.frozenBudget.Accepted? {
        result := BlockCursor(cursor, BudgetNotAccepted, x.fault);
        return;
      }
      CanonicalStays(tasks, x.recorder.tasks, cursor.predTask, cursor.predHash);
      TasksKeepInvariant(store.log, tasks, actions, calls, x.recorder.tasks);
      tasks := x.recorder.tasks;
      if x.recorder.RecorderUnavailable? {
        return UnavailableResult;
      }
      if x.recorder.RecorderRefused? {
        result := BlockCursor(cursor, SnapshotFailed, x.fault);
        return;
      }
      result := ClaimAndPrepare(cursor, x.recorder.snapshot, x.claimNow, x.reply, x.fault);
    }

    method ClaimAndPrepare(cursor: Cursor, snapshot: TaskId, claimNow: I64, reply: SubmitReply, fault: Fault) returns (result: PulseResult)
      requires Valid() && store.row == Some(cursor) && cursor.state.Preparing? && CanonicalAt(tasks, cursor.predTask, cursor.predHash)
      requires cursor.observed.Some? && CapturedAt(tasks, snapshot, cursor.observed.value)
      modifies this`tasks, store
      ensures Valid()
      ensures var p := ClaimFor(cursor, old(tasks), snapshot, claimNow, reply);
        tasks == p.tasks && PlanEffect(cursor, p.plan, fault, old(store.log), store.log, result)
    {
      hide PulseInvariant, StoreChain, Claim;
      var (tasks', claimed) := Claim(tasks, cursor.predTask, snapshot, claimNow, reply);
      ClaimKeepsInvariant(store.log, tasks, actions, calls, cursor.predTask, snapshot, claimNow, reply);
      tasks := tasks';
      if claimed.ClaimUnavailable? {
        return UnavailableResult;
      }
      if claimed.ClaimRefused? {
        result := BlockCursor(cursor, ClaimFailed, fault);
        return;
      }
      var prepared := cursor.(revision := cursor.revision + 1, state := Prepared);
      prepared := prepared.(snapshotTask := Some(snapshot), currentTask := Some(claimed.task.id));
      ClaimLeavesEvidence(cursor, old(tasks), snapshot, claimNow, reply, prepared);
      result := Commit(cursor, prepared, PreparedResult, fault);
    }

    /** `block_cursor`. */
    method BlockCursor(cursor: Cursor, reason: BlockReason, fault: Fault) returns (result: PulseResult)
      requires Valid() && store.row == Some(cursor) && !cursor.state.Blocked?
      modifies store
      ensures Valid()
      ensures PlanEffect(cursor, Block(cursor, reason), fault, old(store.log), store.log, result)
    {
      hide PulseInvariant;
      var blocked := cursor.(revision := cursor.revision + 1, state := PulseState.Blocked, blocked := Some(reason));
      result := Commit(cursor, blocked, BlockedResult, fault);
    }

    /** Store write shared by every branch; the proposed cursor follows the relation whenever the store takes it. */
    method Commit(cursor: Cursor, replacement: Cursor, code: PulseResult, fault: Fault) returns (result: PulseResult)
      requires Valid() && store.row == Some(cursor)
      requires StoreAllows(cursor, replacement) ==>
        && PulseTransition(cursor, replacement) && EvidenceInPlace(replacement, tasks)
        && (Settles(cursor, replacement) ==> CanonicalAt(tasks, replacement.predTask, replacement.predHash))
        && (Resets(cursor, replacement) ==>
              cursor.currentTask.Some? && cursor.currentTask.value in tasks.rows && Retired(tasks.rows[cursor.currentTask.value]))
      modifies store
      ensures Valid()
      ensures PlanEffect(cursor, WriteCursor(replacement, code), fault, old(store.log), store.log, result)
    {
      if StoreAllows(cursor, replacement) {
        WriteKeepsInvariant(store.log, tasks, actions, calls, replacement);
      }
      var write := store.Replace(cursor, replacement, fault);
      result := match write
        case WriteAccepted => code
        case WriteUnavailable => UnavailableResult
        case _ => ConflictResult;
    }

    /** `AutonomousCognitionStaleRefresh::step`. */
    method RefreshStep(y: RefreshInputs) returns (result: RefreshResult)
      requires Valid()
      modifies this`tasks, store
      ensures Valid()
      ensures old(store.row).None? ==> result == NotApplicable && store.log == old(store.log) && tasks == old(tasks)
      ensures old(store.row).Some? ==>
        var c := old(store.row).value;
        RefreshEffect(c, RefreshPlanOf(c, old(tasks), actions, y), y, old(store.log), old(tasks), store.log, tasks, result)
    {
      hide PulseInvariant, StoreChain, GateOf;
      if store.row.None? {
        return NotApplicable;
      }
      var cursor := store.row.value;
      if !cursor.state.Prepared? {
        return NotApplicable;
      }
      var found := Find(tasks, cursor.currentTask.value);
      if found.None? {
        return RefreshBlocked;
      }
      var task := found.value;
      TaskAtHand(store.log, tasks, actions, calls, cursor.currentTask.value);
      if Retired(task) {
        result := ResetRetiredCursor(cursor, task, y.fault);
        return;
      }
      var gate := GateOf(cursor, tasks, actions, y.now, y.budget, y.selector);
      if gate.GateUnavailable? {
        return RefreshUnavailable;
      }
      if !gate.GateBlocked? {
        return NotApplicable;
      }
      if gate.reason != ContextStale {
        return RefreshBlocked;
      }
      if task.status != Pending || task.attempts != 0 {
        return RefreshBlocked;
      }
      if !ActionAbsent(actions, task) {
        return RefreshBlocked;
      }
      if !y.cancels {
        return RefreshBlocked;
      }
      var retired := CancelledTask(task);
      UpdateKeepsInvariant(store.log, tasks, actions, calls, retired);
      tasks := Update(tasks, retired);
      if y.dies {
        return RefreshDied;
      }
      result := ResetRetiredCursor(cursor, retired, y.fault);
    }

    /** `reset_retired`. */
    method ResetRetiredCursor(cursor: Cursor, task: Task, fault: Fault) returns (result: RefreshResult)
      requires Valid() && store.row == Some(cursor) && cursor.state.Prepared?
      requires cursor.currentTask == Some(task.id) && Find(tasks, task.id) == Some(task) && Retired(task)
      modifies store
      ensures Valid()
      ensures ResetEffect(cursor, ActionAbsent(actions, task), fault, old(store.log), store.log, result)
    {
      hide PulseInvariant;
      if !ActionAbsent(actions, task) {
        return RefreshBlocked;
      }
      var reset := cursor.(revision := cursor.revision + 1, state := Idle, observed := None);
      reset := reset.(snapshotTask := None, currentTask := None, blocked := None);
      var write := Commit(cursor, reset, PreparingResult, fault);
      result := match write case PreparingResult => RefreshRetired case ConflictResult => RefreshBlocked case _ => RefreshUnavailable;
    }

    /** The eligible branch of `AutonomousCognitionProviderService::step`: one execution of the current Task by the
        provider handler. */
    method ExecuteProvider(now: I64, budget: Consume, selector: bool, run: Run) returns (executed: bool)
      requires Valid()
      modifies this`tasks, this`actions, this`calls
      ensures Valid() && |calls| <= |old(calls)| + 1
      ensures executed ==>
        && store.row.Some? && store.row.value.currentTask.Some?
        && GateOf(store.row.value, old(tasks), old(actions), now, budget, selector) == Eligible(store.row.value.currentTask.value)
      ensures executed ==>
        && Started(store.row.value, tasks)
        && var t := old(tasks).rows[store.row.value.currentTask.value];
        && tasks == Update(old(tasks), ExecutedTask(t, run))
        && actions == (if Acts(run) then WithAction(old(actions), t) else old(actions))
        && calls == (if Acts(run) && !run.diesAfter.DiesAfterAction? then old(calls) + [t.id] else old(calls))
      ensures !executed ==> tasks == old(tasks) && actions == old(actions) && calls == old(calls)
    {
      hide PulseInvariant, GateOf, StoreChain, CurrentCognition, WellFormedStore, CanonicalAt;
      TableAtHand(store.log, tasks, actions, calls);
      if store.row.None? {
        return false;
      }
      var cursor := store.row.value;
      var gate := GateOf(cursor, tasks, actions, now, budget, selector);
      if !gate.Eligible? {
        return false;
      }
      EligibleMeansUnspent(cursor, tasks, actions, now, budget, selector);
      if !run.startable {
        return false;
      }
      executed := true;
      var started := tasks.rows[gate.task];
      started := started.(status := Running, attempts := started.attempts + 1);
      UpdateKeepsInvariant(store.log, tasks, actions, calls, started);
      tasks := Update(tasks, started);
      if run.diesAfter == DiesAfterStart {
        return;
      }
      if run.budget.Accepted? || run.budget.Duplicate? {
        // The Action is durable before the provider is invoked.
        CallKeepsInvariant(store.log, tasks, actions, calls, started);
        actions := WithAction(actions, started);
        if run.diesAfter == DiesAfterAction {
          return;
        }
        calls := calls + [started.id];
        if run.diesAfter == DiesAfterCall {
          return;
        }
      }
      var finished := started.(status := run.status, result := run.result);
      UpdateKeepsInvariant(store.log, tasks, actions, calls, finished);
      tasks := Update(tasks, finished);
    }

    /** `AutonomousCognitionPulseService::step`: refresh, then observe whatever cursor and table the refresh left;
        `between` is the history after the refresh. A Task that has started is never retired. */
    method PulseStep(y: RefreshInputs, x: Inputs)
      returns (refresh: RefreshResult, result: PulseResult, died: bool, ghost between: seq<Cursor>)
      requires Valid()
      requires RecorderKeepsContract(x.recorder, RefreshedTasks(store.row, tasks, actions, y), ObservationTime(store.row, x.now))
      modifies this`tasks, store
      ensures Valid()
      ensures died <==> refresh.RefreshDied?
      ensures old(store.row).None? ==>
        refresh == NotApplicable && result == Unseeded && store.log == old(store.log) && tasks == old(tasks)
      ensures old(store.row).Some? ==>
        var c, left := old(store.row).value, RefreshedTasks(old(store.row), old(tasks), actions, y);
        && RefreshEffect(c, RefreshPlanOf(c, old(tasks), actions, y), y, old(store.log), old(tasks), between, left, refresh)
        && between != [] && ValidCursor(between[|between| - 1])
        && if died then store.log == between && tasks == left
           else ObserveEffect(between[|between| - 1], left, x, between, store.log, tasks, result)
      ensures old(store.row).Some? && Started(old(store.row).value, old(tasks)) ==>
        var c := old(store.row).value;
        && between == old(store.log) && tasks == old(tasks) && !died
        && if x.now < c.anchor then store.log == between
           else PlanEffect(c, PlanPrepared(c, old(tasks), x.now), x.fault, between, store.log, result)
    {
      hide PulseInvariant, StoreChain, GateOf, PlanRefresh, ObserveEffect, RecorderKeepsContract, Retired, CancelledTask, RefreshPlanOf, PlanPrepared, PlanEffect;
      ghost var before := tasks;
      if store.row.Some? {
        RefreshOnlyResets(store.row.value, tasks, actions, y);
      }
      refresh := RefreshStep(y);
      between := store.log;
      assert tasks == RefreshedTasks(old(store.row), before, actions, y);
      if refresh.RefreshDied? {
        return refresh, UnavailableResult, true, between;
      }
      died := false;
      result := Observe(x);
      if old(store.row).Some? && Started(old(store.row).value, before) {
        PreparedObserves(old(store.row).value, before, x, between, store.log, tasks, result);
      }
    }

    /** `AutonomousCognitionProviderService::step`: a pulse step, at most one provider execution, and after a finished
        one a second pulse step that can only settle, wait or block; `settled` is the history before it. */
    method ServiceStep(y: RefreshInputs, x: Inputs, gate: RefreshInputs, run: Run, y2: RefreshInputs, x2: Inputs)
      returns (executed: bool, ghost settled: seq<Cursor>, answer: PulseResult)
      requires Valid() && RecorderKeepsContract(x.recorder, RefreshedTasks(store.row, tasks, actions, y), ObservationTime(store.row, x.now))
      modifies this`tasks, this`actions, this`calls, store
      ensures Valid() && |calls| <= |old(calls)| + 1
      ensures calls != old(calls) ==> executed
      ensures executed ==>
        && settled != [] && ValidCursor(settled[|settled| - 1]) && settled[|settled| - 1].state.Prepared?
        && var c := settled[|settled| - 1];
        && if run.diesAfter.Survives? && Terminal(run.status) && c.anchor <= x2.now
           then PlanEffect(c, PlanPrepared(c, tasks, x2.now), x2.fault, settled, store.log, answer)
           else store.log == settled
    {
      hide PulseInvariant, StoreChain, GateOf, PlanPrepared, PlanEffect, RecorderKeepsContract, RefreshedTasks, RefreshEffect, ObserveEffect;
      hide ValidCursor;
      ghost var between;
      var refresh, observation, died;
      refresh, observation, died, between := PulseStep(y, x);
      settled, answer := store.log, observation;
      var healthy := refresh.RefreshBlocked? || refresh.RefreshUnavailable? || observation.PreparedResult? || observation.Waiting?;
      if died || !healthy || store.row.None? || !store.row.value.state.Prepared? {
        return false, settled, answer;
      }
      executed := ExecuteProvider(gate.now, gate.budget, gate.selector, run);
      if !executed || !run.diesAfter.Survives? || !Terminal(run.status) {
        return;
      }
      TableAtHand(store.log, tasks, actions, calls);
      NothingToRecord(store.row, tasks, actions, y2, ObservationTime(store.row, x2.now));
      var again := x2.(recorder := RecorderUnavailable(RefreshedTasks(store.row, tasks, actions, y2)));
      var refresh2, died2;
      refresh2, answer, died2, between := PulseStep(y2, again);
    }
  }

  // --- Effects and lemmas the services use --------------------------------------------------------------------

  function SeedCursor(tasks: TaskStore, predecessor: TaskId, now: I64): (r: Option<Cursor>)
    ensures r.Some? ==> ValidCursor(r.value) && r.value.revision == 0 && r.value.generation == 0 && (r.value.state.Idle? || r.value.state.Quiescent?)
  {
    var found := Find(tasks, predecessor);
    if found.None? || !CanonicalCognition(found.value) || now < 0 then None
    else
      var stop := found.value.result.value.output.decision.Stop?;
      var due := AddCadence(now, if stop then QUIESCENT_CADENCE_MS else CONTINUE_CADENCE_MS);
      if due.None? then None
      else Some(Cursor(0, 0, if stop then Quiescent else Idle, predecessor, ResultHash(found.value), now, due.value, None, None, None, None))
  }

  ghost predicate ObserveEffect(c: Cursor, tasks: TaskStore, x: Inputs, log: seq<Cursor>, log': seq<Cursor>, tasks': TaskStore,
                                result: PulseResult)
    requires ValidCursor(c)
  {
    if c.state.Blocked? then result == BlockedResult && log' == log && tasks' == tasks
    else if x.now < c.anchor then result == ClockRollback && log' == log && tasks' == tasks
    else if c.state.Prepared? then tasks' == tasks && PlanEffect(c, PlanPrepared(c, tasks, x.now), x.fault, log, log', result)
    else if c.state.Preparing? then
      var p := Prepare(c, tasks, x);
      tasks' == p.tasks && PlanEffect(c, p.plan, x.fault, log, log', result)
    else IdleEffect(c, tasks, x, log, log', tasks', result)
  }

  /** A due cursor is frozen and prepared in one call; every other one is written at most once. */
  ghost predicate IdleEffect(c: Cursor, tasks: TaskStore, x: Inputs, log: seq<Cursor>, log': seq<Cursor>, tasks': TaskStore,
                             result: PulseResult)
    requires ValidCursor(c)
  {
    if !CanonicalAt(tasks, c.predTask, c.predHash) then
      tasks' == tasks && PlanEffect(c, Block(c, PredecessorNotCanonical), x.fault, log, log', result)
    else if x.now < c.due then tasks' == tasks && log' == log && result == NotDue
    else if !x.budget.Accepted? then tasks' == tasks && log' == log && result == BudgetBlocked
    else
      var frozen := Frozen(c, x.now);
      if StoreAllows(c, frozen) && x.freezeFault.Healthy? then
        var p := Prepare(frozen, tasks, x);
        tasks' == p.tasks && PlanEffect(frozen, p.plan, x.fault, log + [frozen], log', result)
      else tasks' == tasks && PlanEffect(c, WriteCursor(frozen, PreparingResult), x.freezeFault, log, log', result)
  }

  ghost predicate ResetEffect(c: Cursor, unspent: bool, fault: Fault, log: seq<Cursor>, log': seq<Cursor>, result: RefreshResult) {
    && ValidCursor(c)
    && var legal := unspent && StoreAllows(c, ResetCursor(c));
    && log' == (if legal && !fault.FailsBeforeCommit? then log + [ResetCursor(c)] else log)
    && result == (if !legal then RefreshBlocked else if fault.Healthy? then RefreshRetired else RefreshUnavailable)
  }

  ghost predicate RefreshEffect(c: Cursor, plan: RefreshPlan, y: RefreshInputs,
                                log: seq<Cursor>, tasks: TaskStore, log': seq<Cursor>, tasks': TaskStore, result: RefreshResult) {
    match plan
    case Leave(r) => result == r && log' == log && tasks' == tasks
    case Reset => tasks' == tasks && ResetEffect(c, true, y.fault, log, log', result)
    case CancelThenReset =>
      && c.currentTask.Some? && c.currentTask.value in tasks.rows
      && if !y.cancels then result == RefreshBlocked && log' == log && tasks' == tasks
         else
           && tasks' == Update(tasks, CancelledTask(tasks.rows[c.currentTask.value]))
           && if y.dies then result == RefreshDied && log' == log else ResetEffect(c, true, y.fault, log, log', result)
  }

  function RefreshPlanOf(c: Cursor, tasks: TaskStore, actions: ActionStore, y: RefreshInputs): RefreshPlan {
    PlanRefresh(c, tasks, actions, GateOf(c, tasks, actions, y.now, y.budget, y.selector))
  }

  /** The Task table a stale-refresh step leaves behind. */
  function RefreshedTasks(row: Option<Cursor>, tasks: TaskStore, actions: ActionStore, y: RefreshInputs): TaskStore {
    if row.None? then tasks
    else
      var c := row.value;
      var plan := RefreshPlanOf(c, tasks, actions, y);
      if plan.CancelThenReset? && y.cancels && c.currentTask.Some? && c.currentTask.value in tasks.rows
      then Update(tasks, CancelledTask(tasks.rows[c.currentTask.value])) else tasks
  }

  predicate Started(c: Cursor, tasks: TaskStore) {
    && c.state.Prepared? && c.currentTask.Some? && c.currentTask.value in tasks.rows
    && tasks.rows[c.currentTask.value].attempts >= 1
  }

  /** A recorder that is never reached trivially keeps its contract. */
  lemma NothingToRecord(row: Option<Cursor>, tasks: TaskStore, actions: ActionStore, y: RefreshInputs, observed: I64)
    requires WellFormedStore(tasks)
    ensures var t := RefreshedTasks(row, tasks, actions, y); RecorderKeepsContract(RecorderUnavailable(t), t, observed)
  {
  }

  /** A refresh touches prepared cursors only, and one whose Task has started not at all. */
  lemma RefreshOnlyResets(c: Cursor, tasks: TaskStore, actions: ActionStore, y: RefreshInputs)
    ensures var plan := RefreshPlanOf(c, tasks, actions, y);
      if plan.Leave? then plan.result != RefreshDied else c.state.Prepared? && !Started(c, tasks)
  {
    hide GateOf;
  }

  lemma PreparedObserves(c: Cursor, tasks: TaskStore, x: Inputs, log: seq<Cursor>, log': seq<Cursor>, tasks': TaskStore, result: PulseResult)
    requires ValidCursor(c) && c.state.Prepared? && ObserveEffect(c, tasks, x, log, log', tasks', result)
    ensures tasks' == tasks
    ensures if x.now < c.anchor then log' == log else PlanEffect(c, PlanPrepared(c, tasks, x.now), x.fault, log, log', result)
  {
  }

  lemma TaskAtHand(log: seq<Cursor>, tasks: TaskStore, actions: ActionStore, calls: seq<TaskId>, id: TaskId)
    requires PulseInvariant(log, tasks, actions, calls)
    ensures id in tasks.rows ==> tasks.rows[id].id == id
  {
  }

  lemma TableAtHand(log: seq<Cursor>, tasks: TaskStore, actions: ActionStore, calls: seq<TaskId>)
    requires PulseInvariant(log, tasks, actions, calls)
    ensures WellFormedStore(tasks)
  {
  }

  lemma UpdateKeepsInvariant(log: seq<Cursor>, tasks: TaskStore, actions: ActionStore, calls: seq<TaskId>, t: Task)
    requires PulseInvariant(log, tasks, actions, calls) && t.id in tasks.rows && RowEvolves(tasks.rows[t.id], t)
    ensures PulseInvariant(log, Update(tasks, t), actions, calls)
  {
    UpdateEvolves(tasks, t);
    TasksKeepInvariant(log, tasks, actions, calls, Update(tasks, t));
  }

  lemma ClaimKeepsInvariant(log: seq<Cursor>, tasks: TaskStore, actions: ActionStore, calls: seq<TaskId>,
                            predTask: TaskId, snapshot: TaskId, now: I64, reply: SubmitReply)
    requires PulseInvariant(log, tasks, actions, calls)
    ensures PulseInvariant(log, Claim(tasks, predTask, snapshot, now, reply).0, actions, calls)
    ensures WellFormedStore(tasks)
  {
    ClaimOnlyInserts(tasks, predTask, snapshot, now, reply);
    TasksKeepInvariant(log, tasks, actions, calls, Claim(tasks, predTask, snapshot, now, reply).0);
  }

  lemma EligibleMeansUnspent(c: Cursor, tasks: TaskStore, actions: ActionStore, now: I64, budget: Consume, selector: bool)
    requires WellFormedStore(tasks) && GateOf(c, tasks, actions, now, budget, selector).Eligible?
    ensures ValidCursor(c) && c.state.Prepared? && c.currentTask.value in tasks.rows
    ensures var t := tasks.rows[c.currentTask.value];
      && GateOf(c, tasks, actions, now, budget, selector) == Eligible(t.id) && t.id == c.currentTask.value
      && CurrentCognition(t) && t.status == Pending && t.attempts < MAX_ATTEMPTS
      && ActionAbsent(actions, t) && budget.Accepted?
  {
  }

  /** The Action of an executing Task is new, so the invocation that follows it is the Task's first. */
  lemma CallKeepsInvariant(log: seq<Cursor>, tasks: TaskStore, actions: ActionStore, calls: seq<TaskId>, t: Task)
    requires PulseInvariant(log, tasks, actions, calls)
    requires Find(tasks, t.id) == Some(t) && t.attempts >= 1 && ActionAbsent(actions, t)
    ensures var actions' := WithAction(actions, t);
      && PulseInvariant(log, tasks, actions', calls)
      && PulseInvariant(log, tasks, actions', calls + [t.id])
  {
  }

  // --- What holds of every run --------------------------------------------------------------------------------

  /** Some cursor of the history was prepared with this Task in this generation. */
  ghost predicate NamedAt(log: seq<Cursor>, i: int, id: TaskId, generation: int) {
    0 <= i < |log| && log[i].state.Prepared? && log[i].currentTask == Some(id) && log[i].generation == generation
  }

  ghost predicate Spent(actions: ActionStore, tasks: TaskStore, id: TaskId) {
    id in tasks.rows && !ActionAbsent(actions, tasks.rows[id])
  }

  /** A retired Task has no Action, before or after its cancellation, whatever anyone does to either store. */
  lemma RetiredIsNeverSpent(log: seq<Cursor>, tasks: TaskStore, actions: ActionStore, calls: seq<TaskId>, id: TaskId,
                            tasks': TaskStore, actions': ActionStore)
    requires PulseInvariant(log, tasks, actions, calls)
    requires id in tasks.rows && Retired(tasks.rows[id])
    requires WorldMoves(tasks, actions, tasks', actions')
    ensures !Spent(actions, tasks, id) && !Spent(actions', tasks', id)
    ensures id !in calls
  {
    assert ProviderCall(id) !in actions.ids;
  }

  /** At most one provider Action per generation: of all the prepared cursors a generation ever had, only one can
      name a Task with an Action. */
  lemma OneActionPerGeneration(log: seq<Cursor>, tasks: TaskStore, actions: ActionStore, calls: seq<TaskId>,
                               i: nat, j: nat, a: TaskId, b: TaskId, generation: U64)
    requires PulseInvariant(log, tasks, actions, calls)
    requires NamedAt(log, i, a, generation) && NamedAt(log, j, b, generation)
    requires Spent(actions, tasks, a) && Spent(actions, tasks, b)
    ensures i == j && a == b
  {
    if i < j {
      SameGenerationMeansReset(log, i, j);
      assert ResetRetired(log, tasks, i);
      RetiredIsNeverSpent(log, tasks, actions, calls, a, tasks, actions);
    } else if j < i {
      SameGenerationMeansReset(log, j, i);
      assert ResetRetired(log, tasks, j);
      RetiredIsNeverSpent(log, tasks, actions, calls, b, tasks, actions);
    }
  }

  /** At most one provider invocation per generation. */
  lemma OneCallPerGeneration(log: seq<Cursor>, tasks: TaskStore, actions: ActionStore, calls: seq<TaskId>,
                             i: nat, j: nat, x: nat, y: nat, generation: U64)
    requires PulseInvariant(log, tasks, actions, calls) && x < |calls| && y < |calls|
    requires NamedAt(log, i, calls[x], generation) && NamedAt(log, j, calls[y], generation)
    ensures x == y
  {
    assert ProviderCall(calls[x]) in actions.ids && ProviderCall(calls[y]) in actions.ids;
    OneActionPerGeneration(log, tasks, actions, calls, i, j, calls[x], calls[y], generation);
  }

  /** A generation only ever starts from the canonical success of the Task the previous one had prepared, and that
      evidence is still in the Task table. */
  lemma GenerationsRestOnSuccess(log: seq<Cursor>, tasks: TaskStore, actions: ActionStore, calls: seq<TaskId>, i: nat)
    requires PulseInvariant(log, tasks, actions, calls) && i < |log| - 1
    requires log[i + 1].generation != log[i].generation
    ensures log[i].state.Prepared? && log[i + 1].generation == log[i].generation + 1
    ensures log[i].currentTask == Some(log[i + 1].predTask)
    ensures CanonicalAt(tasks, log[i + 1].predTask, log[i + 1].predHash)
  {
    assert PulseTransition(log[i], log[i + 1]);
    assert SettlementCanonical(log, tasks, i);
  }

  /** The gate's deadline-inconsistency block is unreachable: it answers so for a cursor exactly when the cursor is
      valid, prepared and untimely, and no cursor of any run is. */
  lemma DeadlineBlockExactly(c: Cursor, tasks: TaskStore, actions: ActionStore, now: I64, budget: Consume, selector: bool)
    ensures GateOf(c, tasks, actions, now, budget, selector) == GateBlocked(DeadlineInconsistent)
            <==> ValidCursor(c) && c.state.Prepared? && !Timely(c)
  {
  }

  lemma DeadlineBlockUnreachable(log: seq<Cursor>, tasks: TaskStore, actions: ActionStore, calls: seq<TaskId>,
                                 now: I64, budget: Consume, selector: bool)
    requires PulseInvariant(log, tasks, actions, calls) && log != []
    ensures GateOf(log[|log| - 1], tasks, actions, now, budget, selector) != GateBlocked(DeadlineInconsistent)
  {
    EveryCursorIsTimely(log, |log| - 1);
    DeadlineBlockExactly(log[|log| - 1], tasks, actions, now, budget, selector);
  }

  predicate LineageReason(reason: GateReason) {
    reason in {GateTaskMissing, GateTaskNotCanonical, PredecessorDiffers, SnapshotDiffers, GateSnapshotMissing, SnapshotNotCanonical,
               SnapshotDrifted, PredecessorGone, PredecessorHashDrifted, EmbeddedDecisionDrifted, CursorNotCanonical, CaptureDiffers}
  }

  lemma EvidenceGatePasses(c: Cursor, tasks: TaskStore, actions: ActionStore, now: I64, budget: Consume, selector: bool)
    requires ValidCursor(c) && c.state.Prepared? && EvidenceInPlace(c, tasks)
    ensures var gate := EvidenceGate(c, tasks.rows[c.currentTask.value], tasks, actions, now, budget, selector);
      gate.GateBlocked? ==> !LineageReason(gate.reason)
  {
    hide ActionAbsent, NonTerminalCognition;
  }

  /** Nor can the gate ever find the lineage of a prepared cursor broken: twelve of its block reasons are unreachable,
      whatever anyone else does to the two stores. */
  lemma LineageBlocksUnreachable(log: seq<Cursor>, tasks: TaskStore, actions: ActionStore, calls: seq<TaskId>,
                                 now: I64, budget: Consume, selector: bool)
    requires PulseInvariant(log, tasks, actions, calls) && log != []
    ensures var gate := GateOf(log[|log| - 1], tasks, actions, now, budget, selector);
      gate.GateBlocked? ==> !LineageReason(gate.reason)
  {
    hide EvidenceGate, PulseInvariant, CanonicalAt, CanonicalSnapshot, CurrentCognition, ValidCursor;
    var c := log[|log| - 1];
    LastAtHand(log, tasks, actions, calls);
    if c.state.Prepared? {
      EvidenceGatePasses(c, tasks, actions, now, budget, selector);
    }
  }

  lemma LastAtHand(log: seq<Cursor>, tasks: TaskStore, actions: ActionStore, calls: seq<TaskId>)
    requires PulseInvariant(log, tasks, actions, calls) && log != []
    ensures ValidCursor(log[|log| - 1]) && EvidenceInPlace(log[|log| - 1], tasks)
  {
    hide EvidenceInPlace, HistoryWitnessed;
    if |log| > 1 {
      assert PulseTransition(log[|log| - 2], log[|log| - 2 + 1]);
    }
  }
}
