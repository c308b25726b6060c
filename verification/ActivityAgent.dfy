/** The local activity pulse itself and its scheduler projection (src/LocalActivityPulse.cpp,
    src/LocalActivityPulseSchedulerBridge.cpp). */
module ActivityAgentModel {
  import opened Base
  import opened Work
  import opened ActivityTasks
  import opened ActivityStoreModel

  datatype PulseResult =
    | Unseeded | Seeded | DuplicateSeed | Ineligible | NotDue | PreparingResult | Waiting | SettledResult | QuiescentResult
    | ClockRollback | BlockedResult | ConflictResult | UnavailableResult

  datatype SubmitReply = SubmitOk | SubmitInvalid | SubmitUnavailable | SubmitFailsAfter

  /** How one execution ends. `Died` is a crash before the result is durable, `DiedAfterResult` one right after. */
  datatype Execution =
    | NotStartable | StateConflict | Died
    | Finished(status: Status, result: Option<TaskResult>) | DiedAfterResult(status: Status, result: Option<TaskResult>)

  /** Everything one `observe` call meets: its clock, the Runtime, what the Action, budget and wake stores say, and where
      the process stops. */
  datatype Inputs = Inputs(
    now: I64, running: bool, evidence: Evidence, submit: SubmitReply, execution: Execution, freezeFault: Fault, fault: Fault)

  // --- What one observe is meant to do ------------------------------------------------------------------------

  /** `add_cadence`, with its explicit overflow check. */
  function AddCadence(base: I64): (r: Option<I64>)
    ensures r.Some? ==> r.value == base + CADENCE_MS
    ensures r.None? <==> base < 0 || base + CADENCE_MS > INT64_MAX
  {
    if base < 0 || base > INT64_MAX - CADENCE_MS then None else Some(base + CADENCE_MS)
  }

  datatype Plan = Stay(result: PulseResult) | WriteCursor(cursor: Cursor, result: PulseResult)

  function Block(c: Cursor, reason: BlockReason): Plan
    requires ValidCursor(c)
  {
    WriteCursor(c.(revision := c.revision + 1, state := ActivityState.Blocked, blocked := Some(reason)), BlockedResult)
  }

  function OpportunityOf(c: Cursor): Opportunity {
    Opportunity(c.generation, c.due, c.anchorTask, c.anchorHash, c.predTask, c.predHash)
  }

  function FactsOf(c: Cursor, checkpoint: Checkpoint): Facts
    requires c.captured.Some?
  {
    AnchoredFacts(OpportunityOf(c), c.captured.value, checkpoint)
  }

  function SettledWith(c: Cursor, hash: Digest): Cursor
    requires ValidCursor(c)
  {
    c.(revision := c.revision + 1, result := Some(hash), state := if c.generation == 3 then Quiescent else Settled)
  }

  /** `settle_cursor`. */
  function Settle(c: Cursor, t: Task): Plan
    requires ValidCursor(c)
  {
    if !CanonicalObservation(t) then Block(c, TerminalNotCanonical)
    else WriteCursor(SettledWith(c, Sha256(t.result.value.output)), if c.generation == 3 then QuiescentResult else SettledResult)
  }

  datatype Outcome = Outcome(tasks: TaskStore, plan: Plan)

  /** The Task exists under its id and key: settle it, or run it and settle it. */
  function Run(c: Cursor, tasks: TaskStore, t: Task, x: Inputs): Outcome
    requires ValidCursor(c)
  {
    if Terminal(t.status) then Outcome(tasks, Settle(c, t))
    else if !x.running then Outcome(tasks, Stay(UnavailableResult))
    else
      var started := t.(status := Running, attempts := t.attempts + 1);
      match x.execution
      case NotStartable => Outcome(tasks, Stay(Waiting))
      case StateConflict => Outcome(Update(tasks, started), Block(c, ExecutionConflict))
      case Died => Outcome(Update(tasks, started), Stay(UnavailableResult))
      case Finished(status, result) =>
        var finished := started.(status := status, result := result);
        Outcome(Update(tasks, finished), if Terminal(status) then Settle(c, finished) else Stay(Waiting))
      case DiedAfterResult(status, result) =>
        Outcome(Update(tasks, started.(status := status, result := result)), Stay(UnavailableResult))
  }

  function Perform(c: Cursor, tasks: TaskStore, expected: Task, x: Inputs): Outcome
    requires ValidCursor(c)
  {
    var byId, byKey := Find(tasks, expected.id), FindByKey(tasks, expected.key);
    if byId.Some? || byKey.Some? then
      if byId.None? || byKey.None? || byId.value.id != byKey.value.id || !SameDefinition(byId.value, expected)
      then Outcome(tasks, Block(c, TaskConflicts))
      else Run(c, tasks, byId.value, x)
    else if !x.running then Outcome(tasks, Stay(UnavailableResult))
    else match x.submit
         case SubmitInvalid => Outcome(tasks, Block(c, SubmissionRejected))
         case SubmitUnavailable => Outcome(tasks, Stay(UnavailableResult))
         case SubmitFailsAfter => Outcome(Insert(tasks, expected), Stay(UnavailableResult))
         case SubmitOk => Run(c, Insert(tasks, expected), expected, x)
  }

  /** The recoverable half of `observe`: everything is rebuilt from the preparing cursor and its anchor. */
  function Prepare(c: Cursor, tasks: TaskStore, x: Inputs): Outcome
    requires ValidCursor(c) && c.state.Preparing?
  {
    if !AnchorHolds(tasks, c.anchorTask, c.anchorHash) then Outcome(tasks, Block(c, AnchorNotCanonical))
    else
      var facts := CaptureFacts(OpportunityOf(c), c.captured.value, AnchorEvidence(tasks, c.anchorTask).value, x.evidence);
      if facts.None? then Outcome(tasks, Block(c, EvidenceMoved))
      else PrepareWith(c, tasks, facts.value, x)
  }

  function PrepareWith(c: Cursor, tasks: TaskStore, facts: Facts, x: Inputs): Outcome
    requires ValidCursor(c) && c.state.Preparing?
  {
    var expected := MakeObservation(facts);
    if expected.None? then Outcome(tasks, Block(c, CannotConstruct))
    else if Some(expected.value.id) != c.task then Outcome(tasks, Block(c, IdentityChanged))
    else Perform(c, tasks, expected.value, x)
  }

  /** When a cursor admits its next opportunity; `None` when the settled deadline overflows. */
  function NextDue(c: Cursor): Option<I64> {
    if c.state.Settled? && c.captured.Some? then AddCadence(c.captured.value) else Some(c.due)
  }

  function Frozen(c: Cursor, due: I64, now: I64): Cursor
    requires ValidCursor(c) && (c.state.Idle? || c.state.Settled?)
  {
    var generation := if c.state.Settled? then c.generation + 1 else 1;
    var predTask, predHash := if c.state.Settled? then c.task else None, if c.state.Settled? then c.result else None;
    var opportunity := Opportunity(generation, due, c.anchorTask, c.anchorHash, predTask, predHash);
    c.(revision := c.revision + 1, generation := generation, state := Preparing, due := due, captured := Some(now),
       task := Some(ObservationId(opportunity)), result := None, predTask := predTask, predHash := predHash, blocked := None)
  }

  predicate BehindClock(c: Cursor, now: I64) {
    now < c.anchorAt || (c.captured.Some? && now < c.captured.value)
  }

  /** The intended first write of `observe` on a valid cursor: nothing, a block, or the admission of an opportunity. */
  function PlanObserve(c: Cursor, x: Inputs): Plan
    requires ValidCursor(c)
  {
    if c.state.Blocked? then Stay(BlockedResult)
    else if c.state.Quiescent? then Stay(QuiescentResult)
    else if BehindClock(c, x.now) then Stay(ClockRollback)
    else if c.state.Preparing? then Stay(PreparingResult)
    else if NextDue(c).None? then Block(c, NextDeadlineOverflows)
    else if x.now < NextDue(c).value then Stay(NotDue)
    else if !x.running then Stay(UnavailableResult)
    else WriteCursor(Frozen(c, NextDue(c).value, x.now), PreparingResult)
  }

  ghost predicate PlanEffect(c: Cursor, plan: Plan, fault: Fault, log: seq<Cursor>, log': seq<Cursor>, result: PulseResult) {
    match plan
    case Stay(r) => log' == log && result == r
    case WriteCursor(r, code) =>
      var legal := ValidTransition(c, r);
      && log' == (if legal && !fault.FailsBeforeCommit? then log + [r] else log)
      && result == (if !legal then ConflictResult else if fault.Healthy? then code else UnavailableResult)
  }

  ghost predicate PrepareEffect(c: Cursor, tasks: TaskStore, x: Inputs, log: seq<Cursor>, log': seq<Cursor>, tasks': TaskStore, result: PulseResult) {
    && ValidCursor(c) && c.state.Preparing?
    && tasks' == Prepare(c, tasks, x).tasks && PlanEffect(c, Prepare(c, tasks, x).plan, x.fault, log, log', result)
  }

  /** A preparing cursor is carried on; an admission is carried on in the same call; anything else is one write at most. */
  ghost predicate ObserveEffect(c: Cursor, tasks: TaskStore, x: Inputs, log: seq<Cursor>, log': seq<Cursor>, tasks': TaskStore, result: PulseResult) {
    && ValidCursor(c)
    && var plan := PlanObserve(c, x);
    if plan == Stay(PreparingResult) then PrepareEffect(c, tasks, x, log, log', tasks', result)
    else if plan.WriteCursor? && plan.cursor.state.Preparing? then
      if ValidTransition(c, plan.cursor) && x.freezeFault.Healthy?
      then PrepareEffect(plan.cursor, tasks, x, log + [plan.cursor], log', tasks', result)
      else tasks' == tasks && PlanEffect(c, plan, x.freezeFault, log, log', result)
    else tasks' == tasks && PlanEffect(c, plan, x.fault, log, log', result)
  }

  // --- Invariant ------------------------------------------------------------------------------------------------

  /** A settlement records the digest of the one payload its preparing cursor determines. */
  ghost predicate Determined(e: Cursor, r: Cursor, tasks: TaskStore) {
    e.state.Preparing? && (r.state.Settled? || r.state.Quiescent?) ==>
      && ValidCursor(e) && AnchorHolds(tasks, e.anchorTask, e.anchorHash)
      && r == SettledWith(e, Sha256(Payload(FactsOf(e, AnchorEvidence(tasks, e.anchorTask).value))))
  }

  ghost predicate SettlementsDetermined(log: seq<Cursor>, tasks: TaskStore) {
    forall i :: 0 <= i < |log| - 1 ==> Determined(log[i], log[i + 1], tasks)
  }

  ghost predicate PreparedFor(log: seq<Cursor>, i: int, t: Task) {
    0 <= i < |log| && log[i].state.Preparing? && log[i].task == Some(t.id) && t.id.ObservationId? && t.id.opportunity.generation == log[i].generation
  }

  ghost predicate PreparedBySome(log: seq<Cursor>, t: Task) {
    exists i :: PreparedFor(log, i, t)
  }

  ghost predicate SubmissionsMatch(log: seq<Cursor>, tasks: TaskStore, submitted: seq<Task>) {
    && (forall k :: 0 <= k < |submitted| ==> submitted[k].id in tasks.rows && PreparedBySome(log, submitted[k]))
    && (forall j, k :: 0 <= j < k < |submitted| ==> submitted[j].id != submitted[k].id)
  }

  /** A preparing cursor reserves the Task of its own opportunity. */
  predicate Reserves(c: Cursor) {
    c.state.Preparing? ==> c.task == Some(ObservationId(OpportunityOf(c)))
  }

  ghost predicate ActivityInvariant(log: seq<Cursor>, tasks: TaskStore, submitted: seq<Task>) {
    && WellFormedStore(tasks) && ServiceChain(log)
    && (forall i :: 0 <= i < |log| ==> Reserves(log[i]))
    && SettlementsDetermined(log, tasks) && SubmissionsMatch(log, tasks, submitted)
  }

  lemma AnchorStays(tasks: TaskStore, tasks': TaskStore, id: TaskId, hash: Digest)
    requires AnchorHolds(tasks, id, hash) && Evolves(tasks, tasks')
    ensures AnchorHolds(tasks', id, hash) && AnchorEvidence(tasks', id) == AnchorEvidence(tasks, id)
  {
  }

  lemma WorldKeepsInvariant(log: seq<Cursor>, tasks: TaskStore, submitted: seq<Task>, tasks': TaskStore)
    requires ActivityInvariant(log, tasks, submitted) && WellFormedStore(tasks') && Evolves(tasks, tasks')
    ensures ActivityInvariant(log, tasks', submitted)
  {
    hide ServiceChain;
    forall i | 0 <= i < |log| - 1
      ensures Determined(log[i], log[i + 1], tasks')
    {
      assert Determined(log[i], log[i + 1], tasks);
      if AnchorHolds(tasks, log[i].anchorTask, log[i].anchorHash) {
        AnchorStays(tasks, tasks', log[i].anchorTask, log[i].anchorHash);
      }
    }
  }

  lemma WriteKeepsInvariant(log: seq<Cursor>, tasks: TaskStore, submitted: seq<Task>, r: Cursor)
    requires ActivityInvariant(log, tasks, submitted) && log != []
    requires var e := log[|log| - 1]; ValidTransition(e, r) && !e.state.Blocked? && Determined(e, r, tasks) && Reserves(r)
    ensures ActivityInvariant(log + [r], tasks, submitted)
  {
    hide ValidTransition, Determined, WellFormedStore;
    var log' := log + [r];
    forall i | 0 <= i < |log'| - 1
      ensures ValidTransition(log'[i], log'[i + 1]) && Determined(log'[i], log'[i + 1], tasks) && !log'[i].state.Blocked?
    {
      assert i < |log| - 1 ==> ValidTransition(log[i], log[i + 1]) && Determined(log[i], log[i + 1], tasks);
    }
    forall k | 0 <= k < |submitted|
      ensures PreparedBySome(log', submitted[k])
    {
      assert PreparedBySome(log, submitted[k]);
      var i :| PreparedFor(log, i, submitted[k]);
      assert PreparedFor(log', i, submitted[k]);
    }
  }

  lemma SubmissionKeepsInvariant(log: seq<Cursor>, tasks: TaskStore, submitted: seq<Task>, t: Task)
    requires ActivityInvariant(log, tasks, submitted) && log != [] && PreparedFor(log, |log| - 1, t)
    requires Find(tasks, t.id).None? && FindByKey(tasks, t.key).None?
    ensures ActivityInvariant(log, Insert(tasks, t), submitted + [t])
  {
    InsertEvolves(tasks, t);
    WorldKeepsInvariant(log, tasks, submitted, Insert(tasks, t));
    assert PreparedBySome(log, t);
  }

  class ActivityAgent {
    const store: ActivityStore
    var tasks: TaskStore
    ghost var submitted: seq<Task>

    ghost predicate Valid()
      reads this, store
    {
      store.Valid() && ActivityInvariant(store.log, tasks, submitted)
    }

    constructor (tasks: TaskStore)
      requires WellFormedStore(tasks)
      ensures Valid() && fresh(store) && this.tasks == tasks && store.log == [] && submitted == []
    {
      store := new ActivityStore();
      this.tasks, submitted := tasks, [];
    }

    method World(next: TaskStore)
      requires Valid() && WellFormedStore(next) && Evolves(tasks, next)
      modifies this`tasks
      ensures Valid() && tasks == next
    {
      WorldKeepsInvariant(store.log, tasks, submitted, next);
      tasks := next;
    }

    /** `seed`. */
    method Seed(anchor: TaskId, now: I64, fault: Fault) returns (result: PulseResult)
      requires Valid()
      modifies store
      ensures Valid()
      ensures var evidence := AnchorEvidence(tasks, anchor);
        var due := AddCadence(now);
        var seeds := evidence.Some? && old(store.row).None? && due.Some? && !fault.FailsBeforeCommit?;
        && (result.Seeded? <==> seeds && fault.Healthy?)
        && (result.Ineligible? <==> evidence.None?)
        && store.log == if !seeds then old(store.log)
                        else [Cursor(0, 0, Idle, anchor, Sha256(CheckpointBytes(evidence.value)), now, due.value, None, None, None, None, None, None)]
    {
      var evidence := AnchorEvidence(tasks, anchor);
      if evidence.None? {
        return Ineligible;
      }
      var hash := Sha256(CheckpointBytes(evidence.value));
      if store.row.Some? {
        return if store.row.value.anchorTask == anchor && store.row.value.anchorHash == hash then DuplicateSeed else ConflictResult;
      }
      if now < 0 {
        return ClockRollback;
      }
      var due := AddCadence(now);
      if due.None? {
        return ConflictResult;
      }
      var cursor := Cursor(0, 0, Idle, anchor, hash, now, due.value, None, None, None, None, None, None);
      var write := store.Seed(cursor, fault);
      result := match write case WriteAccepted => Seeded case WriteDuplicate => DuplicateSeed case WriteUnavailable => UnavailableResult case _ => ConflictResult;
    }

    /** `observe`. */
    method Observe(x: Inputs) returns (result: PulseResult)
      requires Valid()
      modifies this`tasks, this`submitted, store
      ensures Valid()
      ensures old(store.row).None? ==> result == Unseeded && store.log == old(store.log) && tasks == old(tasks)
      ensures old(store.row).Some? ==> ObserveEffect(old(store.row).value, old(tasks), x, old(store.log), store.log, tasks, result)
    {
      hide ActivityInvariant, StoreChain, PrepareEffect;
      if store.row.None? {
        return Unseeded;
      }
      var cursor := store.row.value;
      if cursor.state.Blocked? {
        return BlockedResult;
      }
      if cursor.state.Quiescent? {
        return QuiescentResult;
      }
      if x.now < cursor.anchorAt || (cursor.captured.Some? && x.now < cursor.captured.value) {
        return ClockRollback;
      }
      if cursor.state.Preparing? {
        result := ObservePreparing(cursor, x);
        return;
      }
      var generation, due := 1, cursor.due;
      var predTask, predHash := None, None;
      if cursor.state.Settled? {
        generation := cursor.generation + 1;
        var next := AddCadence(cursor.captured.value);
        if next.None? {
          result := BlockCursor(cursor, NextDeadlineOverflows, x.fault);
          return;
        }
        due, predTask, predHash := next.value, cursor.task, cursor.result;
      }
      if x.now < due {
        return NotDue;
      }
      if !x.running {
        return UnavailableResult;
      }
      var preparing := cursor.(revision := cursor.revision + 1, generation := generation, state := Preparing);
      preparing := preparing.(due := due, captured := Some(x.now), result := None, predTask := predTask, predHash := predHash, blocked := None);
      preparing := preparing.(task := Some(ObservationId(Opportunity(generation, due, cursor.anchorTask, cursor.anchorHash, predTask, predHash))));
      result := Commit(cursor, preparing, PreparingResult, x.freezeFault);
      if result != PreparingResult {
        return;
      }
      result := ObservePreparing(preparing, x);
    }

    method ObservePreparing(cursor: Cursor, x: Inputs) returns (result: PulseResult)
      requires Valid() && store.row == Some(cursor) && cursor.state.Preparing?
      modifies this`tasks, this`submitted, store
      ensures Valid()
      ensures PrepareEffect(cursor, old(tasks), x, old(store.log), store.log, tasks, result)
    {
      hide ActivityInvariant, StoreChain, Perform, ValidOpportunity;
      if !AnchorHolds(tasks, cursor.anchorTask, cursor.anchorHash) {
        result := BlockCursor(cursor, AnchorNotCanonical, x.fault);
        return;
      }
      var anchor := AnchorEvidence(tasks, cursor.anchorTask).value;
      CaptureIsAnchored(OpportunityOf(cursor), cursor.captured.value, anchor, x.evidence);
      var facts := CaptureFacts(OpportunityOf(cursor), cursor.captured.value, anchor, x.evidence);
      if facts.None? {
        result := BlockCursor(cursor, EvidenceMoved, x.fault);
        return;
      }
      var expected := MakeObservation(facts.value);
      if expected.None? {
        result := BlockCursor(cursor, CannotConstruct, x.fault);
        return;
      }
      if Some(expected.value.id) != cursor.task {
        result := BlockCursor(cursor, IdentityChanged, x.fault);
        return;
      }
      result := PerformTask(cursor, expected.value, x);
    }

    /** Submit the Task if it is not there, then run it. */
    method PerformTask(cursor: Cursor, expected: Task, x: Inputs) returns (result: PulseResult)
      requires Valid() && store.row == Some(cursor) && cursor.state.Preparing?
      requires AnchorHolds(tasks, cursor.anchorTask, cursor.anchorHash) && Some(expected.id) == cursor.task
      requires MakeObservation(FactsOf(cursor, AnchorEvidence(tasks, cursor.anchorTask).value)) == Some(expected)
      modifies this`tasks, this`submitted, store
      ensures Valid()
      ensures var o := Perform(cursor, old(tasks), expected, x);
        tasks == o.tasks && PlanEffect(cursor, o.plan, x.fault, old(store.log), store.log, result)
    {
      hide ActivityInvariant, StoreChain, Run, MakeObservation, WellFormedStore, Evolves, ValidTransition;
      TableAtHand(store.log, tasks, submitted);
      var byId, byKey := Find(tasks, expected.id), FindByKey(tasks, expected.key);
      if byId.Some? || byKey.Some? {
        if byId.None? || byKey.None? || byId.value.id != byKey.value.id || !SameDefinition(byId.value, expected) {
          result := BlockCursor(cursor, TaskConflicts, x.fault);
          return;
        }
        result := RunTask(cursor, byId.value, x);
        return;
      }
      if !x.running {
        return UnavailableResult;
      }
      if x.submit.SubmitInvalid? {
        result := BlockCursor(cursor, SubmissionRejected, x.fault);
        return;
      }
      if x.submit.SubmitUnavailable? {
        return UnavailableResult;
      }
      ExpectedIsPrepared(store.log, cursor, AnchorEvidence(tasks, cursor.anchorTask).value, expected);
      SubmissionKeepsInvariant(store.log, tasks, submitted, expected);
      InsertEvolves(tasks, expected);
      AnchorStays(tasks, Insert(tasks, expected), cursor.anchorTask, cursor.anchorHash);
      tasks, submitted := Insert(tasks, expected), submitted + [expected];
      if x.submit.SubmitFailsAfter? {
        return UnavailableResult;
      }
      result := RunTask(cursor, expected, x);
    }

    method RunTask(cursor: Cursor, task: Task, x: Inputs) returns (result: PulseResult)
      requires Valid() && store.row == Some(cursor) && cursor.state.Preparing?
      requires AnchorHolds(tasks, cursor.anchorTask, cursor.anchorHash) && Find(tasks, task.id) == Some(task)
      requires MakeObservation(FactsOf(cursor, AnchorEvidence(tasks, cursor.anchorTask).value)).Some?
      requires SameDefinition(task, MakeObservation(FactsOf(cursor, AnchorEvidence(tasks, cursor.anchorTask).value)).value)
      modifies this`tasks, store
      ensures Valid() && submitted == old(submitted)
      ensures var o := Run(cursor, old(tasks), task, x);
        tasks == o.tasks && PlanEffect(cursor, o.plan, x.fault, old(store.log), store.log, result)
    {
      hide ActivityInvariant, StoreChain, AnchorHolds, WellFormedStore, Evolves, ValidTransition, CanonicalObservation;
      TableAtHand(store.log, tasks, submitted);
      if Terminal(task.status) {
        result := SettleCursor(cursor, task, x.fault);
        return;
      }
      if !x.running {
        return UnavailableResult;
      }
      if x.execution.NotStartable? {
        return Waiting;
      }
      var started := task.(status := Running, attempts := task.attempts + 1);
      var after := if x.execution.Finished? || x.execution.DiedAfterResult?
                   then started.(status := x.execution.status, result := x.execution.result) else started;
      UpdateEvolves(tasks, after);
      WorldKeepsInvariant(store.log, tasks, submitted, Update(tasks, after));
      AnchorStays(tasks, Update(tasks, after), cursor.anchorTask, cursor.anchorHash);
      tasks := Update(tasks, after);
      if x.execution.StateConflict? {
        result := BlockCursor(cursor, ExecutionConflict, x.fault);
        return;
      }
      if x.execution.Died? || x.execution.DiedAfterResult? {
        return UnavailableResult;
      }
      if !Terminal(after.status) {
        return Waiting;
      }
      result := SettleCursor(cursor, after, x.fault);
    }

    /** `settle_cursor`. */
    method SettleCursor(cursor: Cursor, task: Task, fault: Fault) returns (result: PulseResult)
      requires Valid() && store.row == Some(cursor) && cursor.state.Preparing?
      requires AnchorHolds(tasks, cursor.anchorTask, cursor.anchorHash)
      requires MakeObservation(FactsOf(cursor, AnchorEvidence(tasks, cursor.anchorTask).value)).Some?
      requires SameDefinition(task, MakeObservation(FactsOf(cursor, AnchorEvidence(tasks, cursor.anchorTask).value)).value)
      modifies store
      ensures Valid()
      ensures PlanEffect(cursor, Settle(cursor, task), fault, old(store.log), store.log, result)
    {
      hide ActivityInvariant, StoreChain;
      if !CanonicalObservation(task) {
        result := BlockCursor(cursor, TerminalNotCanonical, fault);
        return;
      }
      var settled := cursor.(revision := cursor.revision + 1, result := Some(Sha256(task.result.value.output)), blocked := None);
      settled := settled.(state := if cursor.generation == 3 then Quiescent else Settled);
      result := Commit(cursor, settled, if cursor.generation == 3 then QuiescentResult else SettledResult, fault);
    }

    /** `block_cursor`. */
    method BlockCursor(cursor: Cursor, reason: BlockReason, fault: Fault) returns (result: PulseResult)
      requires Valid() && store.row == Some(cursor) && !cursor.state.Blocked?
      modifies store
      ensures Valid()
      ensures PlanEffect(cursor, Block(cursor, reason), fault, old(store.log), store.log, result)
    {
      var blocked := cursor.(revision := cursor.revision + 1, state := ActivityState.Blocked, blocked := Some(reason));
      result := Commit(cursor, blocked, BlockedResult, fault);
    }

    method Commit(cursor: Cursor, replacement: Cursor, code: PulseResult, fault: Fault) returns (result: PulseResult)
      requires Valid() && store.row == Some(cursor) && !cursor.state.Blocked? && Determined(cursor, replacement, tasks) && Reserves(replacement)
      modifies store
      ensures Valid()
      ensures PlanEffect(cursor, WriteCursor(replacement, code), fault, old(store.log), store.log, result)
    {
      hide Determined, ValidCursor;
      if ValidTransition(cursor, replacement) {
        WriteKeepsInvariant(store.log, tasks, submitted, replacement);
      }
      var write := store.Replace(cursor, replacement, fault);
      result := match write case WriteAccepted => code case WriteUnavailable => UnavailableResult case _ => ConflictResult;
    }
  }

  lemma TableAtHand(log: seq<Cursor>, tasks: TaskStore, submitted: seq<Task>)
    requires ActivityInvariant(log, tasks, submitted)
    ensures WellFormedStore(tasks)
  {
  }

  lemma ExpectedIsPrepared(log: seq<Cursor>, c: Cursor, checkpoint: Checkpoint, t: Task)
    requires log != [] && log[|log| - 1] == c && c.state.Preparing? && c.captured.Some? && c.task == Some(t.id)
    requires MakeObservation(FactsOf(c, checkpoint)) == Some(t)
    ensures PreparedFor(log, |log| - 1, t)
  {
  }

  // --- What holds of every run ------------------------------------------------------------------------------------

  /** Crash convergence: a preparing cursor is followed, if by anything, by a block or by the one settled cursor that it
      and its anchor determine, however often the process died on the way and whatever the evidence stores did. */
  lemma PreparingConverges(log: seq<Cursor>, tasks: TaskStore, submitted: seq<Task>, i: nat)
    requires ActivityInvariant(log, tasks, submitted) && i < |log| - 1 && log[i].state.Preparing?
    ensures ValidCursor(log[i])
    ensures log[i + 1].state.Blocked?
            || (AnchorHolds(tasks, log[i].anchorTask, log[i].anchorHash)
                && log[i + 1] == SettledWith(log[i], Sha256(Payload(FactsOf(log[i], AnchorEvidence(tasks, log[i].anchorTask).value)))))
  {
    assert ValidTransition(log[i], log[i + 1]) && Determined(log[i], log[i + 1], tasks);
  }

  /** At most one Task is submitted per generation, and a whole run submits at most three. */
  lemma OneObservationPerGeneration(log: seq<Cursor>, tasks: TaskStore, submitted: seq<Task>, j: nat, k: nat)
    requires ActivityInvariant(log, tasks, submitted) && j < k < |submitted|
    ensures submitted[j].id.ObservationId? && submitted[k].id.ObservationId?
    ensures submitted[j].id.opportunity.generation != submitted[k].id.opportunity.generation
  {
    assert PreparedBySome(log, submitted[j]) && PreparedBySome(log, submitted[k]);
    var a :| PreparedFor(log, a, submitted[j]);
    var b :| PreparedFor(log, b, submitted[k]);
    if a < b {
      OnePreparationPerGeneration(log, a, b);
    } else if b < a {
      OnePreparationPerGeneration(log, b, a);
    }
  }

  function GenerationOf(t: Task): nat {
    if t.id.ObservationId? then t.id.opportunity.generation else 0
  }

  lemma SubmissionHasGeneration(log: seq<Cursor>, tasks: TaskStore, submitted: seq<Task>, k: nat)
    requires ActivityInvariant(log, tasks, submitted) && k < |submitted|
    ensures 1 <= GenerationOf(submitted[k]) <= 3
  {
    assert PreparedBySome(log, submitted[k]);
    var i :| PreparedFor(log, i, submitted[k]);
    ActivityRevisionIsIndex(log);
  }

  lemma GenerationsDiffer(log: seq<Cursor>, tasks: TaskStore, submitted: seq<Task>, j: nat, k: nat)
    requires ActivityInvariant(log, tasks, submitted) && j < |submitted| && k < |submitted|
    requires GenerationOf(submitted[j]) == GenerationOf(submitted[k])
    ensures j == k
  {
    hide ActivityInvariant;
    if j < k {
      OneObservationPerGeneration(log, tasks, submitted, j, k);
    } else if k < j {
      OneObservationPerGeneration(log, tasks, submitted, k, j);
    }
  }

  lemma AtMostThreeObservations(log: seq<Cursor>, tasks: TaskStore, submitted: seq<Task>)
    requires ActivityInvariant(log, tasks, submitted)
    ensures |submitted| <= 3
  {
    hide ActivityInvariant, GenerationOf;
    var indices := Range(|submitted|);
    var generations := map k | k in indices :: GenerationOf(submitted[k]);
    forall k | k in indices
      ensures generations[k] in {1, 2, 3}
    {
      SubmissionHasGeneration(log, tasks, submitted, k);
    }
    forall j, k | j in indices && k in indices && generations[j] == generations[k]
      ensures j == k
    {
      GenerationsDiffer(log, tasks, submitted, j, k);
    }
    InjectionBound(indices, {1, 2, 3}, generations);
  }

  // --- The scheduler projection -------------------------------------------------------------------------------------

  datatype Deadline = Inactive | Active(at: I64) | Undefined

  /** `inspect_local_activity_pulse_deadline`. */
  function DeadlineOf(cursor: Option<Cursor>, enabled: bool): Deadline {
    if !enabled || cursor.None? then Inactive
    else if !ValidCursor(cursor.value) then Undefined
    else
      var c := cursor.value;
      match c.state
      case Blocked => Inactive
      case Quiescent => Inactive
      case Idle => Active(c.due)
      case Preparing => Active(Max(c.due, c.captured.value))
      case Settled => var next := AddCadence(c.captured.value); if next.None? then Undefined else Active(next.value)
  }

  /** The projection is exact: with an active deadline d, `observe` plans no write and no recovery before d, and from d
      on it never answers not-due or clock-rollback. */
  lemma ProjectionIsExact(c: Cursor, x: Inputs)
    requires ValidCursor(c) && DeadlineOf(Some(c), true).Active?
    ensures var d, plan := DeadlineOf(Some(c), true).at, PlanObserve(c, x);
      && (plan.WriteCursor? || plan == Stay(PreparingResult) ==> x.now >= d)
      && (x.now >= d <==> plan != Stay(NotDue) && plan != Stay(ClockRollback))
      && (x.now >= d && x.running && !c.state.Preparing? ==> plan.WriteCursor? && plan.cursor.state.Preparing?)
  {
  }

  /** The projection binds the service: before the deadline a call changes neither the sidecar nor the Task table, and
      from the deadline on its answer is never not-due or clock-rollback. */
  lemma ProjectionBindsObserve(c: Cursor, tasks: TaskStore, x: Inputs, log: seq<Cursor>, log': seq<Cursor>, tasks': TaskStore,
                               result: PulseResult)
    requires ObserveEffect(c, tasks, x, log, log', tasks', result) && DeadlineOf(Some(c), true).Active?
    ensures var d := DeadlineOf(Some(c), true).at;
      if x.now < d then log' == log && tasks' == tasks && (result == NotDue || result == ClockRollback)
      else result != NotDue && result != ClockRollback
  {
    ProjectionIsExact(c, x);
    if x.now >= DeadlineOf(Some(c), true).at {
      if c.state.Preparing? {
        PreparationAnswers(c, tasks, x);
      } else if x.running && ValidTransition(c, PlanObserve(c, x).cursor) {
        PreparationAnswers(PlanObserve(c, x).cursor, tasks, x);
      }
    }
  }

  lemma PreparationAnswers(c: Cursor, tasks: TaskStore, x: Inputs)
    requires ValidCursor(c) && c.state.Preparing?
    ensures var plan := Prepare(c, tasks, x).plan; plan.result != NotDue && plan.result != ClockRollback
  {
  }

  /** A valid cursor without an active deadline is finished, or settled so late that the next deadline overflows; then
      `observe` blocks it as soon as the clock allows. */
  lemma NoDeadlineMeansFinished(c: Cursor, x: Inputs)
    requires ValidCursor(c)
    ensures DeadlineOf(Some(c), true).Inactive? <==> c.state.Blocked? || c.state.Quiescent?
    ensures DeadlineOf(Some(c), true).Undefined? <==> c.state.Settled? && c.captured.value + CADENCE_MS > INT64_MAX
    ensures DeadlineOf(Some(c), true).Undefined? && x.now >= c.captured.value ==> PlanObserve(c, x) == Block(c, NextDeadlineOverflows)
  {
  }

  datatype Armed = ArmInvalid | ArmInactive | ArmScheduled | ArmAdvanced | ArmUnchanged

  /** The wake Scheduler by contract: it keeps the earliest deadline it was asked for. */
  class Scheduler {
    var next: Option<I64>

    constructor ()
      ensures next == None
    {
      next := None;
    }

    method RequestAt(at: I64) returns (update: Armed)
      modifies this
      ensures next == Some(if old(next).Some? && old(next).value <= at then old(next).value else at)
      ensures update == if old(next).None? then ArmScheduled else if at < old(next).value then ArmAdvanced else ArmUnchanged
    {
      if next.None? {
        next := Some(at);
        return ArmScheduled;
      }
      if at < next.value {
        next := Some(at);
        return ArmAdvanced;
      }
      return ArmUnchanged;
    }

    /** `arm`: after it, an active cursor is never slept past. */
    method Arm(cursor: Option<Cursor>, enabled: bool) returns (armed: Armed)
      modifies this
      ensures match DeadlineOf(cursor, enabled)
        case Inactive => armed == ArmInactive && next == old(next)
        case Undefined => armed == ArmInvalid && next == old(next)
        case Active(at) => next.Some? && next.value <= at && (next == old(next) || next == Some(at))
    {
      var inspection := DeadlineOf(cursor, enabled);
      if inspection.Undefined? {
        return ArmInvalid;
      }
      if inspection.Inactive? {
        return ArmInactive;
      }
      armed := RequestAt(inspection.at);
    }
  }
}
