/** The services that drive the local cycle (src/LocalGooseCycleBootstrap.cpp, src/LocalGooseCycleService.cpp,
    src/LocalGooseCycleStimulusService.cpp) over two sidecars and the Task table, none of which share a
    transaction. Each method's `Fault` arguments say where the process may stop. */
module CycleAgentModel {
  import opened Base
  import opened LocalGooseCycle
  import opened Work
  import opened CycleStoreModel
  import opened CycleAntiSpin
  import opened CycleEvidence
  import opened StimulusStoreModel

  // --- The cursors the services write --------------------------------------------------------------------

  function BlockedCursor(c: Cursor, reason: BlockReason): Cursor
    requires ValidCursor(c)
  {
    c.(revision := c.revision + 1, state := CycleState.Blocked, blocked := Some(reason))
  }

  function CapturedCursor(c: Cursor, now: I64): Cursor
    requires ValidCursor(c)
  {
    c.(revision := c.revision + 1, state := CycleState.Prepared, captured := Some(now), blocked := None)
  }

  function RearmedCursor(c: Cursor, due: I64): Cursor
    requires ValidCursor(c)
  {
    c.(revision := c.revision + 1, state := CycleState.Scheduled, due := Some(due))
  }

  /** `add_delay`, with its explicit overflow check. */
  function AddDelay(base: I64, requested: I64): (r: Option<I64>)
    ensures r.Some? ==> r.value == base + Max(requested, MINIMUM_DELAY_MS)
    ensures r.None? <==> base < 0 || requested < 0 || base + Max(requested, MINIMUM_DELAY_MS) > INT64_MAX
  {
    if base < 0 || requested < 0 then None
    else
      var delay := Max(requested, MINIMUM_DELAY_MS);
      if base > INT64_MAX - delay then None else Some(base + delay)
  }

  function RequestedDelay(d: Decision): Option<I64> {
    if d.nextWakeAfterMs.Some? then d.nextWakeAfterMs
    else if d.kind.ContinueLocal? then Some(MINIMUM_DELAY_MS) else None
  }

  /** The cursor a canonical success settles into; `None` when the next deadline overflows. */
  function SettledCursor(c: Cursor, t: Task, now: I64): (r: Option<Cursor>)
    requires ValidCursor(c) && CanonicalCycleSuccess(t)
  {
    var base := c.(revision := c.revision + 1, generation := c.generation + 1, predTask := Some(t.id),
                   predHash := Some(ResultHash(t)), captured := None, currentTask := None, blocked := None);
    var delay := RequestedDelay(t.result.value.output.decision);
    if delay.None? then Some(base.(state := CycleState.Dormant, due := None))
    else
      var due := AddDelay(now, delay.value);
      if due.None? then None else Some(base.(state := CycleState.Scheduled, due := due))
  }

  // --- What one service step is meant to do --------------------------------------------------------------

  datatype StepResult =
    | StepDormant | StepWaiting | StepPrepared | StepSubmitted | StepExecuted | StepScheduled | StepBlocked
    | StepConflict | StepUnavailable

  datatype Plan = Stay(result: StepResult) | WriteCursor(cursor: Cursor, result: StepResult) | SubmitTask(task: Task) | RunTask(id: TaskId)

  /** Whether the Task table holds the derived Task, does not know it at all, or contradicts it. */
  datatype Lookup = Absent | Present(task: Task) | Contradicted

  function LookUp(tasks: TaskStore, expected: Task): Lookup {
    var byId, byKey := Find(tasks, expected.id), FindByKey(tasks, expected.key);
    if byId.None? && byKey.None? then Absent
    else if byId.None? || byKey.None? || byId.value.id != byKey.value.id || !SameDefinition(byId.value, expected) then Contradicted
    else Present(byId.value)
  }

  function PlanCapture(c: Cursor, tasks: TaskStore, model: string, now: I64): Plan
    requires ValidCursor(c) && c.state.Scheduled?
  {
    var captured := CapturedCursor(c, now);
    var expected := Derive(captured, tasks, model);
    if expected.None? then WriteCursor(BlockedCursor(c, CannotDerive), StepBlocked)
    else
      var prepared := captured.(currentTask := Some(expected.value.id));
      if ValidTransition(c, prepared) then WriteCursor(prepared, StepPrepared)
      else WriteCursor(BlockedCursor(c, CaptureNotCanonical), StepBlocked)
  }

  function PlanSettle(c: Cursor, t: Task, now: I64): (r: Plan)
    requires ValidCursor(c) && c.state.Prepared? && Terminal(t.status)
    ensures r.WriteCursor?
  {
    if t.status != Succeeded then WriteCursor(BlockedCursor(c, NonSuccess), StepBlocked)
    else if !CanonicalCycleSuccess(t) then WriteCursor(BlockedCursor(c, NonCanonicalSuccess), StepBlocked)
    else
      var settled := SettledCursor(c, t, now);
      if settled.None? then WriteCursor(BlockedCursor(c, DeadlineOverflows), StepBlocked)
      else if !ValidTransition(c, settled.value) then WriteCursor(BlockedCursor(c, SettlementNotCanonical), StepBlocked)
      else WriteCursor(settled.value, if settled.value.state.Scheduled? then StepScheduled else StepDormant)
  }

  function PlanPresent(c: Cursor, t: Task, now: I64, running: bool): (r: Plan)
    requires ValidCursor(c) && c.state.Prepared?
    ensures !r.SubmitTask?
  {
    if Terminal(t.status) then PlanSettle(c, t, now)
    else if t.status != Pending then Stay(StepWaiting)
    else if running then RunTask(t.id) else Stay(StepUnavailable)
  }

  function PlanLookedUp(c: Cursor, tasks: TaskStore, expected: Task, now: I64, running: bool): Plan
    requires ValidCursor(c) && c.state.Prepared?
  {
    match LookUp(tasks, expected)
    case Contradicted => WriteCursor(BlockedCursor(c, TaskConflicts), StepBlocked)
    case Absent => if running then SubmitTask(expected) else Stay(StepUnavailable)
    case Present(t) => PlanPresent(c, t, now, running)
  }

  /** A prepared cursor: the Task it names is derived again from durable evidence, and whatever the Task table
      holds under that id and key decides what is left to do. */
  function PlanRecover(c: Cursor, tasks: TaskStore, model: string, now: I64, running: bool): Plan
    requires ValidCursor(c) && c.state.Prepared?
  {
    var expected := Derive(c, tasks, model);
    if expected.None? || Some(expected.value.id) != c.currentTask then WriteCursor(BlockedCursor(c, IdentityDiffers), StepBlocked)
    else PlanLookedUp(c, tasks, expected.value, now, running)
  }

  /** The intended effect of `LocalGooseCycleService::step` on a valid cursor. */
  function PlanStep(c: Cursor, tasks: TaskStore, model: string, now: I64, running: bool): Plan
    requires ValidCursor(c)
  {
    match c.state
    case Dormant => Stay(StepDormant)
    case Blocked => Stay(StepBlocked)
    case Scheduled =>
      if now < 0 then Stay(StepUnavailable)
      else if now < c.due.value then Stay(StepWaiting)
      else PlanCapture(c, tasks, model, now)
    case Prepared =>
      if now < 0 then Stay(StepUnavailable) else PlanRecover(c, tasks, model, now, running)
  }

  datatype SubmitReply = SubmitOk | SubmitRejected | SubmitFailsBefore | SubmitFailsAfter

  /** How one execution of the Task ends; `Died` is a crash between lease and result. */
  datatype Execution = NotStartable | StateConflict | Died | Finished(status: Status, result: Option<TaskResult>)

  function AfterExecution(tasks: TaskStore, id: TaskId, x: Execution): TaskStore
    requires id in tasks.rows
  {
    var t := tasks.rows[id];
    var started := t.(status := Running, attempts := t.attempts + 1);
    match x
    case NotStartable => tasks
    case StateConflict => Update(tasks, started)
    case Died => Update(tasks, started)
    case Finished(status, result) => Update(tasks, started.(status := status, result := result))
  }

  /** One compare-and-swap of the cursor row, and the answer it leads to. A replacement that is no legal
      transition is refused and nothing is written. */
  ghost predicate WriteEffect(c: Cursor, r: Cursor, code: StepResult, now: int, fault: Fault, log: seq<Entry>, log': seq<Entry>,
                              result: StepResult) {
    var legal := ValidTransition(c, r);
    && log' == (if legal && !fault.FailsBeforeCommit? then log + [Entry(r, now)] else log)
    && result == (if !legal then StepConflict else if fault.Healthy? then code else StepUnavailable)
  }

  /** Everything one step meets: the model and clock of the service, whether the Runtime is running, what it answers
      to a submission, how an execution ends, and where the cursor write fails. */
  datatype StepInputs = StepInputs(model: string, now: I64, running: bool, submit: SubmitReply, execution: Execution, fault: Fault)

  /** What one service step does to the durable state, given its plan: at most one cursor write or one Task change. */
  ghost predicate StepEffect(c: Cursor, plan: Plan, x: StepInputs,
                             log: seq<Entry>, tasks: TaskStore, log': seq<Entry>, tasks': TaskStore, result: StepResult)
    requires ValidCursor(c)
  {
    match plan
    case Stay(r) => result == r && log' == log && tasks' == tasks
    case WriteCursor(r, code) => tasks' == tasks && WriteEffect(c, r, code, x.now, x.fault, log, log', result)
    case SubmitTask(t) =>
      if x.submit.SubmitRejected? then
        tasks' == tasks && WriteEffect(c, BlockedCursor(c, SubmissionRejected), StepBlocked, x.now, x.fault, log, log', result)
      else
        && log' == log && result == (if x.submit.SubmitOk? then StepSubmitted else StepUnavailable)
        && tasks' == (if x.submit.SubmitFailsBefore? then tasks else Insert(tasks, t))
    case RunTask(id) =>
      && id in tasks.rows && tasks' == AfterExecution(tasks, id, x.execution)
      && match x.execution
         case StateConflict => WriteEffect(c, BlockedCursor(c, ExecutionConflict), StepBlocked, x.now, x.fault, log, log', result)
         case NotStartable => log' == log && result == StepWaiting
         case Died => log' == log && result == StepUnavailable
         case Finished(_, _) => log' == log && result == StepExecuted
  }

  // --- Stimuli -------------------------------------------------------------------------------------------

  /** `exact_rearmed_cursor`. */
  predicate ExactRearmed(c: Cursor, s: Stimulus, tasks: TaskStore) {
    && c.revision == s.targetRevision + 1 && c.generation == s.targetGeneration
    && c.state.Scheduled? && c.due == Some(s.acceptedAt)
    && c.captured.None? && c.currentTask.None? && c.blocked.None?
    && CanonicalPredecessor(c, tasks)
  }

  datatype Fate = Consume | Rearm | Review(reason: TerminalReason) | Supersede(reason: TerminalReason)

  /** What `reconcile` must do with an accepted stimulus. */
  function FateOf(s: Stimulus, row: Option<Cursor>, tasks: TaskStore, observedAt: I64): Fate {
    if observedAt < s.acceptedAt then Review(ClockBeforeAcceptance)
    else if row.None? then Review(CursorDisappeared)
    else
      var c := row.value;
      if ExactRearmed(c, s, tasks) then Consume
      else if c.revision == s.targetRevision + 1 && c.generation == s.targetGeneration then Review(SuccessorDiffers)
      else if c.revision != s.targetRevision || c.generation != s.targetGeneration then Supersede(TargetChanged)
      else if !c.state.Dormant? then Review(StateWithoutRevision)
      else if !CanonicalPredecessor(c, tasks) then Review(PredecessorNotCanonical)
      else if !ValidCursor(c) || !ValidTransition(c, RearmedCursor(c, s.acceptedAt)) then Review(CannotTransition)
      else Rearm
  }

  function TerminalStimulus(s: Stimulus, fate: Fate, observedAt: I64): Stimulus
    requires s.targetRevision < UINT64_MAX
  {
    var at := Some(Max(observedAt, s.acceptedAt));
    match fate
    case Consume => s.(status := Consumed, terminalAt := at, resultingRevision := Some(s.targetRevision + 1))
    case Rearm => s.(status := Consumed, terminalAt := at, resultingRevision := Some(s.targetRevision + 1))
    case Review(reason) => s.(status := StimulusStatus.ManualReview, terminalAt := at, reason := Some(reason))
    case Supersede(reason) => s.(status := Superseded, terminalAt := at, reason := Some(reason))
  }

  datatype StimulusResult =
    | ResultAccepted | ResultDuplicate | ResultConsumed | ResultSuperseded | ResultManualReview | ResultConflict
    | ResultInvalid | ResultUnavailable

  function TerminalResult(status: StimulusStatus): StimulusResult {
    match status
    case Accepted => ResultAccepted
    case Consumed => ResultConsumed
    case Superseded => ResultSuperseded
    case ManualReview => ResultManualReview
  }

  /** What one reconcile of the accepted stimulus in row `i` does to the two sidecars, given its fate. A cursor
      write that was not acknowledged leaves the stimulus accepted, for the next call to recognise. */
  ghost predicate FateEffect(c: Option<Cursor>, i: nat, fate: Fate, at: I64, cursorFault: Fault, stimulusFault: Fault,
                             log: seq<Entry>, rows: seq<Stimulus>, log': seq<Entry>, rows': seq<Stimulus>, result: StimulusResult)
    requires i < |rows| && rows[i].targetRevision <= INT64_MAX
    requires fate.Rearm? ==> c.Some? && ValidCursor(c.value)
  {
    var t := TerminalStimulus(rows[i], fate, at);
    var unacknowledged := fate.Rearm? && !cursorFault.Healthy?;
    && log' == (if fate.Rearm? && !cursorFault.FailsBeforeCommit? then log + [Entry(RearmedCursor(c.value, rows[i].acceptedAt), at)] else log)
    && rows' == (if unacknowledged || stimulusFault.FailsBeforeCommit? then rows else rows[i := t])
    && result == (if unacknowledged || !stimulusFault.Healthy? then ResultUnavailable else TerminalResult(t.status))
  }

  /** A re-armed cursor is due at once, so a step that comes before the next reconcile captures or blocks it, and the
      stimulus that caused the re-arm is then superseded. */
  lemma StepBeforeReconcileSupersedes(s: Stimulus, c: Cursor, tasks: TaskStore, observedAt: I64, tasks': TaskStore, x: StepInputs,
                                      tasks'': TaskStore, later: I64)
    requires FateOf(s, Some(c), tasks, observedAt) == Rearm && x.now >= s.acceptedAt && later >= s.acceptedAt >= 0
    ensures ValidCursor(RearmedCursor(c, s.acceptedAt))
    ensures var plan := PlanStep(RearmedCursor(c, s.acceptedAt), tasks', x.model, x.now, x.running);
      plan.WriteCursor? && FateOf(s, Some(plan.cursor), tasks'', later) == Supersede(TargetChanged)
  {
    hide Derive, CanonicalPredecessor;
  }

  /** The store would let a dormant cursor be blocked; a stimulus that finds its target so goes to manual review. */
  lemma BlockedTargetIsReviewed(s: Stimulus, c: Cursor, b: Cursor, tasks: TaskStore, observedAt: I64)
    requires c.revision == s.targetRevision && c.generation == s.targetGeneration && observedAt >= s.acceptedAt
    requires ValidTransition(c, b) && b.state.Blocked?
    ensures FateOf(s, Some(b), tasks, observedAt) == Review(SuccessorDiffers)
  {
    hide CanonicalPredecessor;
  }

  // --- Invariant over the two sidecars and the Task table --------------------------------------------------

  ghost predicate RearmAt(log: seq<Entry>, r: int) {
    1 <= r < |log| && IsRearm(log[r - 1].cursor, log[r].cursor)
  }

  /** Stimulus `s` is the one that made entry `targetRevision + 1` of the history. */
  ghost predicate Caused(log: seq<Entry>, s: Stimulus) {
    RearmAt(log, s.targetRevision + 1) && log[s.targetRevision + 1].cursor.due == Some(s.acceptedAt)
  }

  ghost predicate CausedBySome(log: seq<Entry>, rows: seq<Stimulus>, r: int) {
    exists k :: 0 <= k < |rows| && rows[k].targetRevision == r - 1 && Caused(log, rows[k])
  }

  /** A stimulus was accepted while its target was the current, dormant cursor. */
  ghost predicate Targeted(log: seq<Entry>, s: Stimulus) {
    && s.targetRevision < |log|
    && log[s.targetRevision].cursor.state.Dormant?
    && log[s.targetRevision].cursor.generation == s.targetGeneration
    && (s.status.Consumed? ==> Caused(log, s))
    && (s.status.Accepted? && RearmAt(log, s.targetRevision + 1) ==> Caused(log, s))
  }

  ghost predicate AllTargeted(log: seq<Entry>, rows: seq<Stimulus>) {
    forall k :: 0 <= k < |rows| ==> Targeted(log, rows[k])
  }

  predicate Rivals(a: Stimulus, b: Stimulus) {
    a.targetRevision == b.targetRevision && Live(a) && Live(b)
  }

  ghost predicate NoRivals(rows: seq<Stimulus>) {
    forall i, j :: 0 <= i < j < |rows| ==> !Rivals(rows[i], rows[j])
  }

  ghost predicate RearmsCaused(log: seq<Entry>, rows: seq<Stimulus>) {
    forall r :: RearmAt(log, r) ==> CausedBySome(log, rows, r)
  }

  ghost predicate StimuliMatchHistory(log: seq<Entry>, rows: seq<Stimulus>) {
    AllTargeted(log, rows) && NoRivals(rows) && RearmsCaused(log, rows)
  }

  ghost predicate PreparedFor(log: seq<Entry>, i: int, t: Task) {
    && 0 <= i < |log| && log[i].cursor.state.Prepared? && log[i].cursor.currentTask == Some(t.id)
    && t.definition.CycleDefinition? && t.definition.input.generation == log[i].cursor.generation
  }

  ghost predicate PreparedBySome(log: seq<Entry>, t: Task) {
    exists i :: PreparedFor(log, i, t)
  }

  ghost predicate SubmissionsMatchHistory(log: seq<Entry>, tasks: TaskStore, submitted: seq<Task>) {
    && (forall k :: 0 <= k < |submitted| ==> submitted[k].id in tasks.rows)
    && (forall k :: 0 <= k < |submitted| ==> PreparedBySome(log, submitted[k]))
    && (forall j, k :: 0 <= j < k < |submitted| ==> submitted[j].id != submitted[k].id)
  }

  ghost predicate CycleInvariant(log: seq<Entry>, rows: seq<Stimulus>, tasks: TaskStore, submitted: seq<Task>) {
    && WellFormedStore(tasks)
    && TimedChain(log)
    && (log != [] ==> Rooted(log[|log| - 1].cursor, tasks))
    && UniqueRows(rows)
    && StimuliMatchHistory(log, rows)
    && SubmissionsMatchHistory(log, tasks, submitted)
  }

  // --- Preservation, one durable write at a time -----------------------------------------------------------

  lemma ChainGrows(log: seq<Entry>, e: Entry)
    requires TimedChain(log)
    requires log == [] ==> SeedCursor(e.cursor)
    requires log != [] ==> ValidTransition(log[|log| - 1].cursor, e.cursor) && TimedStep(log[|log| - 1].cursor, e.cursor, e.at)
    ensures TimedChain(log + [e])
  {
    var log' := log + [e];
    forall i | 0 <= i < |log'| - 1
      ensures ValidTransition(log'[i].cursor, log'[i + 1].cursor) && TimedStep(log'[i].cursor, log'[i + 1].cursor, log'[i + 1].at)
    {
    }
  }

  lemma CursorWriteKeepsInvariant(log: seq<Entry>, rows: seq<Stimulus>, tasks: TaskStore, submitted: seq<Task>, e: Entry)
    requires CycleInvariant(log, rows, tasks, submitted)
    requires log == [] ==> SeedCursor(e.cursor)
    requires log != [] ==>
      && ValidTransition(log[|log| - 1].cursor, e.cursor) && TimedStep(log[|log| - 1].cursor, e.cursor, e.at)
      && (IsRearm(log[|log| - 1].cursor, e.cursor) ==>
            RearmedBySome(rows, |log| - 1, e.cursor))
    requires Rooted(e.cursor, tasks)
    ensures CycleInvariant(log + [e], rows, tasks, submitted)
  {
    hide StimuliMatchHistory, ValidTransition, TimedStep, Rooted, UniqueRows, WellFormedStore, PreparedFor;
    ChainGrows(log, e);
    CursorWriteKeepsHistory(log, rows, e);
    forall k | 0 <= k < |submitted|
      ensures PreparedBySome(log + [e], submitted[k])
    {
      assert PreparedBySome(log, submitted[k]);
      var i :| PreparedFor(log, i, submitted[k]);
      PreparedForStays(log, e, i, submitted[k]);
    }
  }

  lemma PreparedForStays(log: seq<Entry>, e: Entry, i: int, t: Task)
    requires PreparedFor(log, i, t)
    ensures PreparedFor(log + [e], i, t)
  {
  }

  /** Row `k` is the accepted stimulus of the revision that cursor `c` re-arms, and gave it its deadline. */
  predicate RearmedBy(rows: seq<Stimulus>, k: int, revision: int, c: Cursor) {
    0 <= k < |rows| && rows[k].status.Accepted? && rows[k].targetRevision == revision && c.due == Some(rows[k].acceptedAt)
  }

  ghost predicate RearmedBySome(rows: seq<Stimulus>, revision: int, c: Cursor) {
    exists k :: RearmedBy(rows, k, revision, c)
  }

  lemma OneLiveRow(rows: seq<Stimulus>, i: nat, k: nat)
    requires NoRivals(rows) && i < |rows| && k < |rows| && Live(rows[i]) && Live(rows[k])
    requires rows[i].targetRevision == rows[k].targetRevision
    ensures i == k
  {
    assert i < k ==> Rivals(rows[i], rows[k]);
    assert k < i ==> Rivals(rows[k], rows[i]);
  }

  lemma CursorWriteKeepsHistory(log: seq<Entry>, rows: seq<Stimulus>, e: Entry)
    requires StimuliMatchHistory(log, rows)
    requires log != [] && IsRearm(log[|log| - 1].cursor, e.cursor) ==> RearmedBySome(rows, |log| - 1, e.cursor)
    ensures StimuliMatchHistory(log + [e], rows)
  {
    hide IsRearm, Caused, NoRivals;
    var log' := log + [e];
    forall r | RearmAt(log', r)
      ensures CausedBySome(log', rows, r)
    {
      if r < |log| {
        assert RearmAt(log, r) && CausedBySome(log, rows, r);
        var k :| 0 <= k < |rows| && rows[k].targetRevision == r - 1 && Caused(log, rows[k]);
        CausedStays(log, rows[k], e);
      } else {
        var k :| RearmedBy(rows, k, |log| - 1, e.cursor);
        NewestIsCaused(log, rows[k], e);
      }
    }
    forall i | 0 <= i < |rows|
      ensures Targeted(log', rows[i])
    {
      assert Targeted(log, rows[i]);
      if Caused(log, rows[i]) {
        CausedStays(log, rows[i], e);
      } else if rows[i].status.Accepted? && rows[i].targetRevision == |log| - 1 && RearmAt(log', rows[i].targetRevision + 1) {
        var k :| RearmedBy(rows, k, |log| - 1, e.cursor);
        OneLiveRow(rows, i, k);
        NewestIsCaused(log, rows[i], e);
      }
    }
  }

  lemma CausedStays(log: seq<Entry>, s: Stimulus, e: Entry)
    requires Caused(log, s)
    ensures Caused(log + [e], s)
  {
  }

  lemma NewestIsCaused(log: seq<Entry>, s: Stimulus, e: Entry)
    requires log != [] && s.targetRevision == |log| - 1
    requires IsRearm(log[|log| - 1].cursor, e.cursor) && e.cursor.due == Some(s.acceptedAt)
    ensures Caused(log + [e], s)
  {
  }

  lemma TasksEvolveKeepsInvariant(log: seq<Entry>, rows: seq<Stimulus>, tasks: TaskStore, tasks': TaskStore, submitted: seq<Task>)
    requires CycleInvariant(log, rows, tasks, submitted)
    requires WellFormedStore(tasks') && Evolves(tasks, tasks')
    ensures CycleInvariant(log, rows, tasks', submitted)
  {
    if log != [] {
      RootedIsStable(log[|log| - 1].cursor, tasks, tasks');
    }
  }

  /** Replacing or adding rows keeps every cause, as long as no row changes its target or acceptance time. */
  lemma CausesKept(log: seq<Entry>, rows: seq<Stimulus>, rows': seq<Stimulus>)
    requires RearmsCaused(log, rows) && |rows| <= |rows'|
    requires forall k :: 0 <= k < |rows| ==> SameIdentity(rows[k], rows'[k])
    ensures RearmsCaused(log, rows')
  {
    forall r | RearmAt(log, r)
      ensures CausedBySome(log, rows', r)
    {
      CauseKept(log, rows, rows', r);
    }
  }

  lemma CauseKept(log: seq<Entry>, rows: seq<Stimulus>, rows': seq<Stimulus>, r: int)
    requires CausedBySome(log, rows, r) && |rows| <= |rows'|
    requires forall k :: 0 <= k < |rows| ==> SameIdentity(rows[k], rows'[k])
    ensures CausedBySome(log, rows', r)
  {
    var k :| 0 <= k < |rows| && rows[k].targetRevision == r - 1 && Caused(log, rows[k]);
    assert SameIdentity(rows[k], rows'[k]);
  }

  /** A new stimulus targets the current cursor, so nothing can have consumed that target yet. */
  lemma AppendKeepsInvariant(log: seq<Entry>, rows: seq<Stimulus>, tasks: TaskStore, submitted: seq<Task>, s: Stimulus)
    requires CycleInvariant(log, rows, tasks, submitted) && UniqueRows(rows + [s])
    requires s.status.Accepted? && log != []
    requires var c := log[|log| - 1].cursor; c.state.Dormant? && s.targetRevision == c.revision && s.targetGeneration == c.generation
    requires FindAcceptedTarget(rows, s.targetRevision) < 0
    ensures CycleInvariant(log, rows + [s], tasks, submitted)
  {
    hide StimuliMatchHistory;
    AppendKeepsHistory(log, rows, s);
  }

  lemma AppendKeepsHistory(log: seq<Entry>, rows: seq<Stimulus>, s: Stimulus)
    requires Chain(log) && StimuliMatchHistory(log, rows)
    requires s.status.Accepted? && log != []
    requires var c := log[|log| - 1].cursor; c.state.Dormant? && s.targetRevision == c.revision && s.targetGeneration == c.generation
    requires FindAcceptedTarget(rows, s.targetRevision) < 0
    ensures StimuliMatchHistory(log, rows + [s])
  {
    hide RearmsCaused;
    RevisionIsIndex(log);
    var rows' := rows + [s];
    CausesKept(log, rows, rows');
    forall i | 0 <= i < |rows|
      ensures Targeted(log, rows'[i]) && !Rivals(rows[i], s)
    {
      assert Targeted(log, rows[i]);
    }
    assert Targeted(log, s);
  }

  lemma TerminalizeKeepsInvariant(log: seq<Entry>, rows: seq<Stimulus>, tasks: TaskStore, submitted: seq<Task>, i: nat, t: Stimulus)
    requires CycleInvariant(log, rows, tasks, submitted) && i < |rows| && UniqueRows(rows[i := t])
    requires rows[i].status.Accepted? && SameIdentity(rows[i], t)
    requires t.status.Consumed? ==> Caused(log, t)
    ensures CycleInvariant(log, rows[i := t], tasks, submitted)
  {
    hide StimuliMatchHistory;
    TerminalizeKeepsHistory(log, rows, i, t);
  }

  lemma TerminalizeKeepsHistory(log: seq<Entry>, rows: seq<Stimulus>, i: nat, t: Stimulus)
    requires StimuliMatchHistory(log, rows)
    requires i < |rows| && rows[i].status.Accepted? && SameIdentity(rows[i], t)
    requires t.status.Consumed? ==> Caused(log, t)
    ensures StimuliMatchHistory(log, rows[i := t])
  {
    hide RearmsCaused;
    var rows' := rows[i := t];
    CausesKept(log, rows, rows');
    assert Targeted(log, rows[i]);
    forall k | 0 <= k < |rows'|
      ensures Targeted(log, rows'[k])
    {
      assert k != i ==> Targeted(log, rows[k]);
    }
    forall a, b | 0 <= a < b < |rows'|
      ensures !Rivals(rows'[a], rows'[b])
    {
      assert !Rivals(rows[a], rows[b]);
    }
  }

  lemma OnlyRow(rows: seq<Stimulus>, i: nat)
    requires UniqueRows(rows) && i < |rows|
    ensures FindStimulus(rows, rows[i].id) == i
  {
  }

  /** A fate always leads to a legal terminal row: a caused re-arm leaves room for its resulting revision. */
  lemma CanTerminalize(log: seq<Entry>, s: Stimulus, fate: Fate, observedAt: I64)
    requires Chain(log) && ValidStimulus(s) && s.status.Accepted?
    requires fate.Consume? || fate.Rearm? ==> Caused(log, s)
    ensures ValidStimulusTransition(s, TerminalStimulus(s, fate, observedAt))
  {
    RevisionIsIndex(log);
  }

  /** Every stimulus has a live cursor row, and one that finds its exact re-arm in that row caused it. */
  lemma StimulusAtHand(log: seq<Entry>, rows: seq<Stimulus>, tasks: TaskStore, submitted: seq<Task>, i: nat)
    requires CycleInvariant(log, rows, tasks, submitted) && i < |rows|
    ensures log != [] && ValidStimulus(rows[i]) && rows[i].targetRevision <= INT64_MAX
    ensures var c := log[|log| - 1].cursor;
      && (ExactRearmed(c, rows[i], tasks) ==> Caused(log, rows[i]))
      && (c.revision == rows[i].targetRevision && c.generation == rows[i].targetGeneration ==> c.state.Dormant? && c.generation >= 2)
  {
    assert Targeted(log, rows[i]);
    RevisionIsIndex(log);
  }

  /** A source no row names has no row under its derived id either. */
  lemma SourceIsNew(rows: seq<Stimulus>, s: Stimulus)
    requires UniqueRows(rows) && ValidStimulus(s) && FindSource(rows, s.sourceId) < 0
    ensures s !in rows && FindStimulus(rows, s.id) < 0
  {
  }

  lemma InvariantAtHand(log: seq<Entry>, rows: seq<Stimulus>, tasks: TaskStore, submitted: seq<Task>)
    requires CycleInvariant(log, rows, tasks, submitted)
    ensures WellFormedStore(tasks) && (log != [] ==> Rooted(log[|log| - 1].cursor, tasks))
  {
  }

  /** The state, revision and Task id of a cursor play no part in what its evidence derives. */
  lemma CaptureDerives(c: Cursor, prepared: Cursor, tasks: TaskStore, model: string, now: I64)
    requires ValidCursor(c) && prepared == CapturedCursor(c, now).(currentTask := prepared.currentTask)
    ensures Derive(prepared, tasks, model) == Derive(CapturedCursor(c, now), tasks, model)
  {
  }

  lemma LineageCarriedOver(c: Cursor, r: Cursor, tasks: TaskStore)
    requires HasLineage(c, tasks)
    requires r.generation == c.generation && SamePredecessor(c, r) && r.anchorTask == c.anchorTask && r.anchorHash == c.anchorHash
    ensures HasLineage(r, tasks)
  {
    if c.generation >= 2 {
      var m :| CursorLineage(c, tasks, m);
      assert CursorLineage(r, tasks, m);
    }
  }

  lemma ExecutionEvolves(tasks: TaskStore, id: TaskId, x: Execution)
    requires WellFormedStore(tasks) && id in tasks.rows && !Terminal(tasks.rows[id].status)
    ensures WellFormedStore(AfterExecution(tasks, id, x)) && Evolves(tasks, AfterExecution(tasks, id, x))
  {
    if !x.NotStartable? {
      UpdateEvolves(tasks, AfterExecution(tasks, id, x).rows[id]);
    }
  }

  lemma SubmissionKeepsInvariant(log: seq<Entry>, rows: seq<Stimulus>, tasks: TaskStore, submitted: seq<Task>, t: Task)
    requires CycleInvariant(log, rows, tasks, submitted)
    requires t.id !in tasks.rows && FindByKey(tasks, t.key).None?
    requires log != [] && PreparedFor(log, |log| - 1, t)
    ensures CycleInvariant(log, rows, Insert(tasks, t), submitted + [t])
  {
    InsertEvolves(tasks, t);
    TasksEvolveKeepsInvariant(log, rows, tasks, Insert(tasks, t), submitted);
    assert PreparedBySome(log, t);
  }

  // --- The services --------------------------------------------------------------------------------------

  class CycleAgent {
    const cycle: CycleStore
    const stimuli: StimulusStore
    var tasks: TaskStore
    ghost var submitted: seq<Task>

    ghost predicate Valid()
      reads this, cycle, stimuli
    {
      cycle.Valid() && stimuli.Valid() && CycleInvariant(cycle.log, stimuli.rows, tasks, submitted)
    }

    constructor (tasks: TaskStore)
      requires WellFormedStore(tasks)
      ensures Valid() && fresh(cycle) && fresh(stimuli) && this.tasks == tasks && cycle.log == [] && stimuli.rows == []
    {
      cycle := new CycleStore();
      stimuli := new StimulusStore();
      this.tasks := tasks;
      submitted := [];
    }

    /** Anything another owner of the Task table does between two calls: lease recovery, operator commands, other Tasks. */
    method Environment(next: TaskStore)
      requires Valid() && WellFormedStore(next) && Evolves(tasks, next)
      modifies this`tasks
      ensures Valid() && tasks == next
    {
      TasksEvolveKeepsInvariant(cycle.log, stimuli.rows, tasks, next, submitted);
      tasks := next;
    }

    /** `seed_local_goose_cycle`, for the final observation named by the activity cursor. */
    method SeedCycle(anchorTask: TaskId, anchorHash: Digest, fault: Fault, ghost at: int) returns (result: WriteResult)
      requires Valid()
      modifies cycle
      ensures Valid()
      ensures var anchor := Find(tasks, anchorTask);
        var canonical := anchor.Some? && CanonicalObservationSuccess(anchor.value) && ResultHash(anchor.value) == anchorHash;
        var seed := Cursor(0, 0, CycleState.Dormant, anchorTask, anchorHash, None, None, None, None, None, None);
        && (result.WriteInvalid? <==> !canonical)
        && cycle.log == (if canonical && old(cycle.log) == [] && !fault.FailsBeforeCommit? then [Entry(seed, at)] else old(cycle.log))
    {
      var anchor := Find(tasks, anchorTask);
      if anchor.None? || !CanonicalObservationSuccess(anchor.value) || ResultHash(anchor.value) != anchorHash {
        return WriteInvalid;
      }
      var seed := Cursor(0, 0, CycleState.Dormant, anchorTask, anchorHash, None, None, None, None, None, None);
      if cycle.row.None? {
        CursorWriteKeepsInvariant(cycle.log, stimuli.rows, tasks, submitted, Entry(seed, at));
      }
      result := cycle.Seed(seed, fault, at);
    }

    /** `activate_local_goose_cycle`: the only exit from generation 0. */
    method Activate(due: I64, fault: Fault, ghost at: int) returns (result: WriteResult)
      requires Valid()
      modifies cycle
      ensures Valid()
      ensures var activates := due >= 0 && old(cycle.row).Some? && old(cycle.row).value.state.Dormant? && old(cycle.row).value.generation == 0;
        cycle.log == if activates && !fault.FailsBeforeCommit?
                     then old(cycle.log) + [Entry(RearmedCursor(old(cycle.row).value, due).(generation := 1), at)]
                     else old(cycle.log)
      ensures var row := old(cycle.row);
        result == if due < 0 then WriteInvalid
                  else if row.None? then WriteUnavailable
                  else if row.value.state.Scheduled? && row.value.generation == 1 then WriteDuplicate
                  else if !row.value.state.Dormant? || row.value.generation != 0 then WriteConflict
                  else if fault.Healthy? then WriteAccepted else WriteUnavailable
    {
      if due < 0 {
        return WriteInvalid;
      }
      if cycle.row.None? {
        return WriteUnavailable;
      }
      var found := cycle.row.value;
      RevisionAccounting(cycle.log);
      if found.state.Scheduled? && found.generation == 1 && found.revision == 1 && found.predTask.None? && found.predHash.None? {
        return WriteDuplicate;
      }
      if !found.state.Dormant? || found.generation != 0 || found.revision != 0 || found.predTask.Some? || found.predHash.Some? {
        return WriteConflict;
      }
      var scheduled := found.(revision := 1, generation := 1, state := CycleState.Scheduled, due := Some(due));
      CursorWriteKeepsInvariant(cycle.log, stimuli.rows, tasks, submitted, Entry(scheduled, at));
      result := cycle.Replace(found, scheduled, fault, at);
    }

    /** `LocalGooseCycleService::step`: the effect is the one planned for the cursor that was read. */
    method Step(x: StepInputs) returns (result: StepResult)
      requires Valid()
      modifies this, cycle
      ensures Valid()
      ensures old(cycle.row).None? ==>
        result == StepUnavailable && cycle.log == old(cycle.log) && tasks == old(tasks) && submitted == old(submitted)
      ensures old(cycle.row).Some? ==>
        var c := old(cycle.row).value;
        var plan := PlanStep(c, old(tasks), x.model, x.now, x.running);
        && StepEffect(c, plan, x, old(cycle.log), old(tasks), cycle.log, tasks, result)
        && submitted == (if plan.SubmitTask? && (x.submit.SubmitOk? || x.submit.SubmitFailsAfter?) then old(submitted) + [plan.task]
                         else old(submitted))
    {
      if cycle.row.None? {
        return StepUnavailable;
      }
      var cursor := cycle.row.value;
      if cursor.state.Dormant? {
        return StepDormant;
      }
      if cursor.state.Blocked? {
        return StepBlocked;
      }
      if x.now < 0 {
        return StepUnavailable;
      }
      if cursor.state.Scheduled? {
        if x.now < cursor.due.value {
          return StepWaiting;
        }
        result := Capture(cursor, x.model, x.fault, x.now);
      } else {
        result := Recover(cursor, x);
      }
    }

    /** The prepared half of `step`. */
    method Recover(cursor: Cursor, x: StepInputs) returns (result: StepResult)
      requires Valid() && cycle.row == Some(cursor) && cursor.state.Prepared? && x.now >= 0
      modifies this, cycle
      ensures Valid()
      ensures var plan := PlanRecover(cursor, old(tasks), x.model, x.now, x.running);
        && StepEffect(cursor, plan, x, old(cycle.log), old(tasks), cycle.log, tasks, result)
        && submitted == (if plan.SubmitTask? && (x.submit.SubmitOk? || x.submit.SubmitFailsAfter?) then old(submitted) + [plan.task]
                         else old(submitted))
    {
      hide CycleInvariant, WellFormedStore, UniqueRows, Chain, ValidCursor, HasLineage, Derive, PlanLookedUp, WriteEffect;
      InvariantAtHand(cycle.log, stimuli.rows, tasks, submitted);
      var expected := Derive(cursor, tasks, x.model);
      if expected.None? || Some(expected.value.id) != cursor.currentTask {
        result := WriteBlocked(cursor, IdentityDiffers, x.fault, x.now);
        return;
      }
      DerivedTask(cursor, tasks, x.model);
      result := RecoverTask(cursor, expected.value, x);
    }

    method RecoverTask(cursor: Cursor, expected: Task, x: StepInputs) returns (result: StepResult)
      requires Valid() && cycle.row == Some(cursor) && cursor.state.Prepared? && x.now >= 0
      requires Derive(cursor, tasks, x.model) == Some(expected) && EligibleCycleTask(expected)
      requires cursor.currentTask == Some(expected.id) && expected.definition.input.generation == cursor.generation
      modifies this, cycle
      ensures Valid()
      ensures var plan := PlanLookedUp(cursor, old(tasks), expected, x.now, x.running);
        && StepEffect(cursor, plan, x, old(cycle.log), old(tasks), cycle.log, tasks, result)
        && submitted == (if plan.SubmitTask? && (x.submit.SubmitOk? || x.submit.SubmitFailsAfter?) then old(submitted) + [plan.task]
                         else old(submitted))
    {
      hide CycleInvariant, WellFormedStore, UniqueRows, Chain, ValidCursor, HasLineage, Derive, PlanPresent, WriteEffect, EligibleCycleTask;
      InvariantAtHand(cycle.log, stimuli.rows, tasks, submitted);
      var byId, byKey := Find(tasks, expected.id), FindByKey(tasks, expected.key);
      if byId.Some? || byKey.Some? {
        if byId.None? || byKey.None? || byId.value.id != byKey.value.id || !SameDefinition(byId.value, expected) {
          result := WriteBlocked(cursor, TaskConflicts, x.fault, x.now);
          return;
        }
      } else {
        if !x.running {
          return StepUnavailable;
        }
        result := Submit(cursor, expected, x);
        return;
      }
      result := Resume(cursor, byId.value, x);
    }

    /** The derived Task is in the table: settle it, wait for it, or run it. */
    method Resume(cursor: Cursor, task: Task, x: StepInputs) returns (result: StepResult)
      requires Valid() && cycle.row == Some(cursor) && cursor.state.Prepared? && x.now >= 0
      requires Find(tasks, task.id) == Some(task)
      requires Derive(cursor, tasks, x.model).Some? && SameDefinition(task, Derive(cursor, tasks, x.model).value)
      modifies this, cycle
      ensures Valid() && submitted == old(submitted)
      ensures StepEffect(cursor, PlanPresent(cursor, task, x.now, x.running), x, old(cycle.log), old(tasks), cycle.log, tasks, result)
    {
      hide CycleInvariant, WellFormedStore, UniqueRows, Chain, ValidCursor, HasLineage, Derive, PlanSettle, WriteEffect;
      if Terminal(task.status) {
        result := Settle(cursor, task, x.model, x.fault, x.now);
        return;
      }
      if task.status != Pending {
        return StepWaiting;
      }
      if !x.running {
        return StepUnavailable;
      }
      result := Execute(cursor, task.id, x);
    }

    /** A scheduled cursor whose deadline has come captures the opportunity and names the Task it derives. */
    method Capture(cursor: Cursor, model: string, fault: Fault, now: I64) returns (result: StepResult)
      requires Valid() && cycle.row == Some(cursor) && cursor.state.Scheduled? && cursor.due.value <= now
      modifies cycle
      ensures Valid()
      ensures var plan := PlanCapture(cursor, tasks, model, now);
        WriteEffect(cursor, plan.cursor, plan.result, now, fault, old(cycle.log), cycle.log, result)
    {
      hide CycleInvariant, WellFormedStore, Evolves, UniqueRows, Chain, Lineage, HasLineage, Derive;
      InvariantAtHand(cycle.log, stimuli.rows, tasks, submitted);
      var prepared := cursor.(revision := cursor.revision + 1, state := CycleState.Prepared, captured := Some(now), blocked := None);
      var expected := Derive(prepared, tasks, model);
      if expected.None? {
        result := WriteBlocked(cursor, CannotDerive, fault, now);
        return;
      }
      prepared := prepared.(currentTask := Some(expected.value.id));
      if !ValidTransition(cursor, prepared) {
        result := WriteBlocked(cursor, CaptureNotCanonical, fault, now);
        return;
      }
      LineageCarriedOver(cursor, prepared, tasks);
      assert NamedUnder(prepared, tasks, model) by { CaptureDerives(cursor, prepared, tasks, model, now); }
      result := Commit(cursor, prepared, StepPrepared, fault, now);
    }

    /** The Task of a prepared cursor has ended: only a canonical success starts the next generation. */
    method Settle(cursor: Cursor, task: Task, model: string, fault: Fault, now: I64) returns (result: StepResult)
      requires Valid() && cycle.row == Some(cursor) && cursor.state.Prepared? && now >= 0
      requires Find(tasks, task.id) == Some(task) && Terminal(task.status)
      requires Derive(cursor, tasks, model).Some? && SameDefinition(task, Derive(cursor, tasks, model).value)
      modifies cycle
      ensures Valid()
      ensures var plan := PlanSettle(cursor, task, now);
        WriteEffect(cursor, plan.cursor, plan.result, now, fault, old(cycle.log), cycle.log, result)
    {
      hide CycleInvariant, WellFormedStore, Evolves, UniqueRows, Lineage, HasLineage, Chain, ValidTransition, Derive, ValidStimulus, WriteEffect;
      InvariantAtHand(cycle.log, stimuli.rows, tasks, submitted);
      if task.status != Succeeded {
        result := WriteBlocked(cursor, NonSuccess, fault, now);
        return;
      }
      if !CanonicalCycleSuccess(task) {
        result := WriteBlocked(cursor, NonCanonicalSuccess, fault, now);
        return;
      }
      var decision := task.result.value.output.decision;
      var replacement := cursor;
      replacement := replacement.(revision := replacement.revision + 1, generation := replacement.generation + 1);
      replacement := replacement.(predTask := Some(task.id), predHash := Some(ResultHash(task)));
      replacement := replacement.(captured := None, currentTask := None, blocked := None);
      var requested := decision.nextWakeAfterMs;
      if requested.None? && decision.kind.ContinueLocal? {
        requested := Some(MINIMUM_DELAY_MS);
      }
      if requested.Some? {
        var nextDue := AddDelay(now, requested.value);
        if nextDue.None? {
          result := WriteBlocked(cursor, DeadlineOverflows, fault, now);
          return;
        }
        replacement := replacement.(state := CycleState.Scheduled, due := nextDue);
      } else {
        replacement := replacement.(state := CycleState.Dormant, due := None);
      }
      if !ValidTransition(cursor, replacement) {
        result := WriteBlocked(cursor, SettlementNotCanonical, fault, now);
        return;
      }
      SettlementExtendsLineage(cursor, tasks, model, task, replacement);
      result := Commit(cursor, replacement, if replacement.state.Scheduled? then StepScheduled else StepDormant, fault, now);
    }

    /** Store write shared by the branches of `Step`; the plan has been checked against the cursor just read. */
    method Commit(cursor: Cursor, replacement: Cursor, code: StepResult, fault: Fault, now: I64) returns (result: StepResult)
      requires Valid() && cycle.row == Some(cursor)
      requires ValidTransition(cursor, replacement) ==> TimedStep(cursor, replacement, now) && Rooted(replacement, tasks) && !cursor.state.Dormant?
      modifies cycle
      ensures Valid()
      ensures WriteEffect(cursor, replacement, code, now, fault, old(cycle.log), cycle.log, result)
    {
      hide CycleInvariant, WellFormedStore, Evolves, UniqueRows, Lineage, HasLineage;
      InvariantAtHand(cycle.log, stimuli.rows, tasks, submitted);
      if ValidTransition(cursor, replacement) {
        CursorWriteKeepsInvariant(cycle.log, stimuli.rows, tasks, submitted, Entry(replacement, now));
      }
      var write := cycle.Replace(cursor, replacement, fault, now);
      if write.WriteAccepted? || write.WriteDuplicate? {
        return code;
      }
      if write.WriteUnavailable? {
        return StepUnavailable;
      }
      return StepConflict;
    }

    /** `write_blocked`. */
    method WriteBlocked(cursor: Cursor, reason: BlockReason, fault: Fault, now: I64) returns (result: StepResult)
      requires Valid() && cycle.row == Some(cursor) && !cursor.state.Dormant?
      modifies cycle
      ensures Valid()
      ensures WriteEffect(cursor, BlockedCursor(cursor, reason), StepBlocked, now, fault, old(cycle.log), cycle.log, result)
    {
      hide CycleInvariant, WellFormedStore, Evolves, UniqueRows, Lineage, HasLineage;
      InvariantAtHand(cycle.log, stimuli.rows, tasks, submitted);
      RevisionIsIndex(cycle.log);
      var blocked := cursor.(revision := cursor.revision + 1, state := CycleState.Blocked, blocked := Some(reason));
      LineageCarriedOver(cursor, blocked, tasks);
      result := Commit(cursor, blocked, StepBlocked, fault, now);
    }

    method Submit(cursor: Cursor, t: Task, x: StepInputs) returns (result: StepResult)
      requires Valid() && cycle.row == Some(cursor) && cursor.state.Prepared?
      requires EligibleCycleTask(t) && cursor.currentTask == Some(t.id) && t.definition.input.generation == cursor.generation
      requires t.id !in tasks.rows && FindByKey(tasks, t.key).None?
      modifies this, cycle
      ensures Valid()
      ensures submitted == if x.submit.SubmitOk? || x.submit.SubmitFailsAfter? then old(submitted) + [t] else old(submitted)
      ensures StepEffect(cursor, SubmitTask(t), x, old(cycle.log), old(tasks), cycle.log, tasks, result)
    {
      hide CycleInvariant, WellFormedStore, Evolves, UniqueRows, Lineage, HasLineage;
      InvariantAtHand(cycle.log, stimuli.rows, tasks, submitted);
      if x.submit.SubmitRejected? {
        result := WriteBlocked(cursor, SubmissionRejected, x.fault, x.now);
        return;
      }
      if x.submit.SubmitFailsBefore? {
        return StepUnavailable;
      }
      SubmissionKeepsInvariant(cycle.log, stimuli.rows, tasks, submitted, t);
      tasks, submitted := Insert(tasks, t), submitted + [t];
      result := if x.submit.SubmitOk? then StepSubmitted else StepUnavailable;
    }

    method Execute(cursor: Cursor, id: TaskId, x: StepInputs) returns (result: StepResult)
      requires Valid() && cycle.row == Some(cursor) && cursor.state.Prepared?
      requires id in tasks.rows && tasks.rows[id].status == Pending
      modifies this, cycle
      ensures Valid() && submitted == old(submitted)
      ensures StepEffect(cursor, RunTask(id), x, old(cycle.log), old(tasks), cycle.log, tasks, result)
    {
      hide CycleInvariant, WellFormedStore, Evolves, UniqueRows, Lineage, HasLineage;
      InvariantAtHand(cycle.log, stimuli.rows, tasks, submitted);
      var next := AfterExecution(tasks, id, x.execution);
      ExecutionEvolves(tasks, id, x.execution);
      TasksEvolveKeepsInvariant(cycle.log, stimuli.rows, tasks, next, submitted);
      tasks := next;
      if x.execution.StateConflict? {
        result := WriteBlocked(cursor, ExecutionConflict, x.fault, x.now);
        return;
      }
      result := match x.execution case NotStartable => StepWaiting case Died => StepUnavailable case _ => StepExecuted;
    }

    /** `accept_explicit_recheck`. */
    method AcceptExplicitRecheck(sourceId: string, acceptedAt: I64, fault: Fault) returns (result: StimulusResult)
      requires Valid()
      modifies stimuli
      ensures Valid()
      ensures var rows := old(stimuli.rows);
        var known := FindSource(rows, sourceId) >= 0;
        var stimulus := NewStimulus(cycle.row, tasks, sourceId, acceptedAt);
        var inserts := !known && stimulus.Some? && FindAcceptedTarget(rows, stimulus.value.targetRevision) < 0 && !fault.FailsBeforeCommit?;
        && stimuli.rows == (if inserts then rows + [stimulus.value] else rows)
        && (result.ResultAccepted? <==> inserts && fault.Healthy?)
        && (result.ResultDuplicate? <==> acceptedAt >= 0 && known)
    {
      hide CycleInvariant, WellFormedStore, UniqueRows, Lineage, HasLineage, ValidStimulus, CanonicalPredecessor;
      if acceptedAt < 0 {
        return ResultInvalid;
      }
      if FindSource(stimuli.rows, sourceId) >= 0 {
        return ResultDuplicate;
      }
      if cycle.row.None? {
        return ResultUnavailable;
      }
      var cursor := cycle.row.value;
      if !cursor.state.Dormant? || cursor.generation < 2 {
        return ResultInvalid;
      }
      if !CanonicalPredecessor(cursor, tasks) {
        return ResultInvalid;
      }
      var made := MakeStimulus(sourceId, acceptedAt, cursor.revision, cursor.generation);
      if made.None? {
        return ResultUnavailable;
      }
      var stimulus := made.value;
      ghost var before := stimuli.rows;
      SourceIsNew(before, stimulus);
      var write := stimuli.Append(stimulus, fault);
      if stimuli.rows != before {
        AppendKeepsInvariant(cycle.log, before, tasks, submitted, stimulus);
      }
      result := match write
        case WriteAccepted => ResultAccepted
        case WriteDuplicate => ResultDuplicate
        case WriteConflict => ResultConflict
        case WriteInvalid => ResultInvalid
        case WriteUnavailable => ResultUnavailable;
    }

    /** `LocalGooseCycleStimulusService::reconcile`: the cursor write and the stimulus write are separate
        transactions, and either may be the last thing the process does. */
    method Reconcile(id: StimulusId, observedAt: I64, cursorFault: Fault, stimulusFault: Fault) returns (result: StimulusResult)
      requires Valid()
      modifies cycle, stimuli
      ensures Valid()
      ensures var i, rows := FindStimulus(old(stimuli.rows), id), old(stimuli.rows);
        if observedAt >= 0 && i >= 0 && rows[i].status.Accepted? then
          FateEffect(old(cycle.row), i, FateOf(rows[i], old(cycle.row), tasks, observedAt), observedAt, cursorFault, stimulusFault,
                     old(cycle.log), rows, cycle.log, stimuli.rows, result)
        else
          && cycle.log == old(cycle.log) && stimuli.rows == rows
          && result == if observedAt < 0 || i < 0 then ResultInvalid else TerminalResult(rows[i].status)
    {
      hide CycleInvariant, UniqueRows, Lineage, HasLineage, ValidStimulus, Chain, ValidTransition, ValidCursor, Caused;
      hide CanonicalPredecessor, ExactRearmed, TerminalStimulus, FateEffect;
      ghost var log, rows := cycle.log, stimuli.rows;
      if observedAt < 0 {
        return ResultInvalid;
      }
      var i := FindStimulus(stimuli.rows, id);
      if i < 0 {
        return ResultInvalid;
      }
      var accepted := stimuli.rows[i];
      if !accepted.status.Accepted? {
        return TerminalResult(accepted.status);
      }
      StimulusAtHand(cycle.log, stimuli.rows, tasks, submitted, i);
      var cursor := cycle.row.value;
      if observedAt < accepted.acceptedAt {
        result := Terminalize(i, Review(ClockBeforeAcceptance), observedAt, stimulusFault);
        EndedByOneWrite(Some(cursor), i, Review(ClockBeforeAcceptance), observedAt, cursorFault, stimulusFault, log, rows, stimuli.rows, result);
        return;
      }
      if ExactRearmed(cursor, accepted, tasks) {
        result := Terminalize(i, Consume, observedAt, stimulusFault);
        EndedByOneWrite(Some(cursor), i, Consume, observedAt, cursorFault, stimulusFault, log, rows, stimuli.rows, result);
        return;
      }
      if cursor.revision == accepted.targetRevision + 1 && cursor.generation == accepted.targetGeneration {
        result := Terminalize(i, Review(SuccessorDiffers), observedAt, stimulusFault);
        EndedByOneWrite(Some(cursor), i, Review(SuccessorDiffers), observedAt, cursorFault, stimulusFault, log, rows, stimuli.rows, result);
        return;
      }
      if cursor.revision != accepted.targetRevision || cursor.generation != accepted.targetGeneration {
        result := Terminalize(i, Supersede(TargetChanged), observedAt, stimulusFault);
        EndedByOneWrite(Some(cursor), i, Supersede(TargetChanged), observedAt, cursorFault, stimulusFault, log, rows, stimuli.rows, result);
        return;
      }
      if !CanonicalPredecessor(cursor, tasks) {
        result := Terminalize(i, Review(PredecessorNotCanonical), observedAt, stimulusFault);
        EndedByOneWrite(Some(cursor), i, Review(PredecessorNotCanonical), observedAt, cursorFault, stimulusFault, log, rows, stimuli.rows, result);
        return;
      }
      var scheduled := cursor.(revision := cursor.revision + 1, state := CycleState.Scheduled, due := Some(accepted.acceptedAt));
      if !ValidTransition(cursor, scheduled) {
        result := Terminalize(i, Review(CannotTransition), observedAt, stimulusFault);
        EndedByOneWrite(Some(cursor), i, Review(CannotTransition), observedAt, cursorFault, stimulusFault, log, rows, stimuli.rows, result);
        return;
      }
      result := RearmAndConsume(i, cursor, scheduled, observedAt, cursorFault, stimulusFault);
    }

    /** The two writes of a consumption, cursor first. */
    method RearmAndConsume(i: nat, cursor: Cursor, scheduled: Cursor, observedAt: I64, cursorFault: Fault, stimulusFault: Fault)
      returns (result: StimulusResult)
      requires Valid() && cycle.row == Some(cursor) && i < |stimuli.rows| && stimuli.rows[i].status.Accepted?
      requires stimuli.rows[i].targetRevision == cursor.revision && cursor.state.Dormant? && cursor.generation >= 2
      requires scheduled == RearmedCursor(cursor, stimuli.rows[i].acceptedAt) && ValidTransition(cursor, scheduled)
      modifies cycle, stimuli
      ensures Valid()
      ensures FateEffect(Some(cursor), i, Rearm, observedAt, cursorFault, stimulusFault,
                         old(cycle.log), old(stimuli.rows), cycle.log, stimuli.rows, result)
    {
      hide CycleInvariant, UniqueRows, Lineage, HasLineage, ValidStimulus, WellFormedStore, Evolves;
      InvariantAtHand(cycle.log, stimuli.rows, tasks, submitted);
      RevisionIsIndex(cycle.log);
      LineageCarriedOver(cursor, scheduled, tasks);
      assert RearmedBy(stimuli.rows, i, |cycle.log| - 1, scheduled);
      CursorWriteKeepsInvariant(cycle.log, stimuli.rows, tasks, submitted, Entry(scheduled, observedAt));
      var write := cycle.Replace(cursor, scheduled, cursorFault, observedAt);
      if write.WriteUnavailable? {
        return ResultUnavailable;
      }
      assert RearmAt(cycle.log, stimuli.rows[i].targetRevision + 1);
      result := Terminalize(i, Rearm, observedAt, stimulusFault);
    }

    /** `terminalize`: the one write that ends a stimulus. */
    method Terminalize(i: nat, fate: Fate, observedAt: I64, fault: Fault) returns (result: StimulusResult)
      requires Valid() && i < |stimuli.rows| && stimuli.rows[i].status.Accepted?
      requires fate.Consume? || fate.Rearm? ==> Caused(cycle.log, stimuli.rows[i])
      modifies stimuli
      ensures Valid()
      ensures var t := TerminalStimulus(old(stimuli.rows)[i], fate, observedAt);
        && stimuli.rows == (if fault.FailsBeforeCommit? then old(stimuli.rows) else old(stimuli.rows)[i := t])
        && result == (if fault.Healthy? then TerminalResult(t.status) else ResultUnavailable)
    {
      hide CycleInvariant, UniqueRows;
      StimulusAtHand(cycle.log, stimuli.rows, tasks, submitted, i);
      var accepted := stimuli.rows[i];
      var replacement := TerminalStimulus(accepted, fate, observedAt);
      ghost var before := stimuli.rows;
      CanTerminalize(cycle.log, accepted, fate, observedAt);
      OnlyRow(before, i);
      var write, current := stimuli.Replace(accepted, replacement, fault);
      if stimuli.rows != before {
        TerminalizeKeepsInvariant(cycle.log, before, tasks, submitted, i, replacement);
      }
      if write.WriteAccepted? {
        return TerminalResult(replacement.status);
      }
      return ResultUnavailable;
    }
  }

  /** Every fate but a re-arm is one write to the stimulus row. */
  lemma EndedByOneWrite(c: Option<Cursor>, i: nat, fate: Fate, at: I64, cursorFault: Fault, stimulusFault: Fault, log: seq<Entry>,
                        rows: seq<Stimulus>, rows': seq<Stimulus>, result: StimulusResult)
    requires !fate.Rearm? && i < |rows| && rows[i].targetRevision <= INT64_MAX
    requires rows' == if stimulusFault.FailsBeforeCommit? then rows else rows[i := TerminalStimulus(rows[i], fate, at)]
    requires result == if stimulusFault.Healthy? then TerminalResult(TerminalStimulus(rows[i], fate, at).status) else ResultUnavailable
    ensures FateEffect(c, i, fate, at, cursorFault, stimulusFault, log, rows, log, rows', result)
  {
  }

  /** The stimulus `accept_explicit_recheck` would insert for the current cursor, if it would insert one at all. */
  function NewStimulus(row: Option<Cursor>, tasks: TaskStore, sourceId: string, acceptedAt: I64): (r: Option<Stimulus>) {
    if acceptedAt < 0 || row.None? || !row.value.state.Dormant? || row.value.generation < 2 || !CanonicalPredecessor(row.value, tasks)
    then None
    else MakeStimulus(sourceId, acceptedAt, row.value.revision, row.value.generation)
  }

  // --- What holds of every run -----------------------------------------------------------------------------

  /** Each consumed stimulus is one real re-arm of its own target with its own acceptance time as deadline, and
      no two consumed stimuli share a target. */
  lemma ConsumedOnce(log: seq<Entry>, rows: seq<Stimulus>, tasks: TaskStore, submitted: seq<Task>)
    requires CycleInvariant(log, rows, tasks, submitted)
    ensures forall k :: 0 <= k < |rows| && rows[k].status.Consumed? ==>
      && RearmAt(log, rows[k].targetRevision + 1)
      && rows[k].resultingRevision == Some(rows[k].targetRevision + 1)
      && log[rows[k].targetRevision + 1].cursor.due == Some(rows[k].acceptedAt)
    ensures forall i, j :: 0 <= i < j < |rows| && rows[i].status.Consumed? && rows[j].status.Consumed? ==>
      rows[i].targetRevision != rows[j].targetRevision
  {
    hide RearmsCaused, CausedBySome, SubmissionsMatchHistory, HasLineage, TimedChain;
    forall k | 0 <= k < |rows| && rows[k].status.Consumed?
      ensures Targeted(log, rows[k]) && ValidStimulus(rows[k])
    {
    }
    forall i, j | 0 <= i < j < |rows| && rows[i].status.Consumed? && rows[j].status.Consumed?
      ensures rows[i].targetRevision != rows[j].targetRevision
    {
      assert !Rivals(rows[i], rows[j]);
    }
  }

  /** What `reconcile` will do with an accepted stimulus is decided by its clock and by how far the cursor has come:
      the successor of its target is always its own re-arm, because nothing else ever leaves a dormant cursor. */
  lemma FateInEveryRun(log: seq<Entry>, rows: seq<Stimulus>, tasks: TaskStore, submitted: seq<Task>, i: nat, observedAt: I64)
    requires CycleInvariant(log, rows, tasks, submitted) && i < |rows| && rows[i].status.Accepted?
    ensures log != []
    ensures var s, c := rows[i], log[|log| - 1].cursor;
      && s.targetRevision <= c.revision
      && FateOf(s, Some(c), tasks, observedAt)
         == if observedAt < s.acceptedAt then Review(ClockBeforeAcceptance)
            else if c.revision > s.targetRevision + 1 then Supersede(TargetChanged)
            else if c.revision == s.targetRevision + 1 then Consume
            else if s.targetRevision == INT64_MAX then Review(CannotTransition)
            else Rearm
  {
    hide CanonicalPredecessor, RearmsCaused, NoRivals, SubmissionsMatchHistory, WellFormedStore, HasLineage;
    RevisionIsIndex(log);
    var last, target := |log| - 1, rows[i].targetRevision;
    assert Targeted(log, rows[i]) && ValidStimulus(rows[i]);
    if last <= target + 1 {
      assert last == target || (ValidTransition(log[target].cursor, log[target + 1].cursor)
                                && TimedStep(log[target].cursor, log[target + 1].cursor, log[target + 1].at));
      LineageMeansCanonicalPredecessor(log[last].cursor, tasks);
    }
  }

  /** Recovery: a stimulus whose re-arm was written while its own row was not is consumed by its next reconcile if and
      only if the clock is not behind its acceptance and no step has moved the re-armed cursor in between. */
  lemma CrashAfterRearmRecovers(log: seq<Entry>, rows: seq<Stimulus>, tasks: TaskStore, submitted: seq<Task>, i: nat, later: I64)
    requires CycleInvariant(log, rows, tasks, submitted) && i < |rows| && rows[i].status.Accepted? && Caused(log, rows[i])
    ensures var s, c := rows[i], log[|log| - 1].cursor;
      var fate := FateOf(s, Some(c), tasks, later);
      && (fate == Consume <==> later >= s.acceptedAt && c.state.Scheduled? && c.revision == s.targetRevision + 1)
      && (fate == Review(ClockBeforeAcceptance) <==> later < s.acceptedAt)
      && (fate == Supersede(TargetChanged) <==> later >= s.acceptedAt && c.revision > s.targetRevision + 1)
      && (fate.Consume? || fate == Review(ClockBeforeAcceptance) || fate == Supersede(TargetChanged))
  {
    hide CycleInvariant, FateOf;
    FateInEveryRun(log, rows, tasks, submitted, i, later);
    CausedIsPast(log, rows, tasks, submitted, i);
  }

  lemma CausedIsPast(log: seq<Entry>, rows: seq<Stimulus>, tasks: TaskStore, submitted: seq<Task>, i: nat)
    requires CycleInvariant(log, rows, tasks, submitted) && i < |rows| && Caused(log, rows[i])
    ensures log[|log| - 1].cursor.revision > rows[i].targetRevision
    ensures log[|log| - 1].cursor.revision == rows[i].targetRevision + 1 ==> log[|log| - 1].cursor.state.Scheduled?
  {
    RevisionIsIndex(log);
  }

  /** Such a stimulus is what an interrupted consumption leaves behind. */
  lemma InterruptedConsumption(c: Cursor, i: nat, at: I64, cursorFault: Fault, stimulusFault: Fault,
                               log: seq<Entry>, rows: seq<Stimulus>, tasks: TaskStore, submitted: seq<Task>,
                               log': seq<Entry>, rows': seq<Stimulus>, result: StimulusResult)
    requires CycleInvariant(log, rows, tasks, submitted) && log != [] && log[|log| - 1].cursor == c
    requires i < |rows| && rows[i].status.Accepted? && FateOf(rows[i], Some(c), tasks, at) == Rearm
    requires rows[i].targetRevision <= INT64_MAX
    requires FateEffect(Some(c), i, Rearm, at, cursorFault, stimulusFault, log, rows, log', rows', result)
    ensures rows' == rows && Caused(log', rows'[i]) <==>
      cursorFault.FailsAfterCommit? || (cursorFault.Healthy? && stimulusFault.FailsBeforeCommit?)
  {
    hide CanonicalPredecessor;
    RevisionIsIndex(log);
    assert Targeted(log, rows[i]) && ValidStimulus(rows[i]);
  }

  ghost function ConsumedRows(rows: seq<Stimulus>): set<int> {
    set k | 0 <= k < |rows| && rows[k].status.Consumed?
  }

  ghost function RearmRevisions(log: seq<Entry>): set<int> {
    set r | 1 <= r < |log| && RearmAt(log, r)
  }

  /** Conservation: consumed stimuli <= re-arms <= stimuli ever appended. */
  lemma StimuliConserved(log: seq<Entry>, rows: seq<Stimulus>, tasks: TaskStore, submitted: seq<Task>)
    requires CycleInvariant(log, rows, tasks, submitted)
    ensures |ConsumedRows(rows)| <= |RearmRevisions(log)| <= |rows|
  {
    ConsumedAreRearms(log, rows);
    RearmsAreAppended(log, rows);
  }

  lemma ConsumedAreRearms(log: seq<Entry>, rows: seq<Stimulus>)
    requires AllTargeted(log, rows) && NoRivals(rows)
    ensures |ConsumedRows(rows)| <= |RearmRevisions(log)|
  {
    var consumed := ConsumedRows(rows);
    var revision := map k | k in consumed :: rows[k].targetRevision + 1;
    forall k | k in consumed
      ensures revision[k] in RearmRevisions(log)
    {
      assert Targeted(log, rows[k]) && Caused(log, rows[k]);
    }
    forall i, j | i in consumed && j in consumed && revision[i] == revision[j]
      ensures i == j
    {
      assert Rivals(rows[i], rows[j]) && Rivals(rows[j], rows[i]);
    }
    InjectionBound(consumed, RearmRevisions(log), revision);
  }

  lemma RearmsAreAppended(log: seq<Entry>, rows: seq<Stimulus>)
    requires RearmsCaused(log, rows)
    ensures |RearmRevisions(log)| <= |rows|
  {
    hide RearmAt, Caused;
    var rearms := RearmRevisions(log);
    InjectionBound(rearms, Range(|rows|), map r | r in rearms :: CauseOf(log, rows, r));
  }

  ghost function CauseOf(log: seq<Entry>, rows: seq<Stimulus>, r: int): (k: int)
    requires CausedBySome(log, rows, r)
    ensures 0 <= k < |rows| && rows[k].targetRevision == r - 1
  {
    var k :| 0 <= k < |rows| && rows[k].targetRevision == r - 1 && Caused(log, rows[k]);
    k
  }

  /** At most one cycle Task is submitted per generation, over all crashes and re-derivations. */
  lemma OneTaskPerGeneration(log: seq<Entry>, rows: seq<Stimulus>, tasks: TaskStore, submitted: seq<Task>, j: nat, k: nat)
    requires CycleInvariant(log, rows, tasks, submitted)
    requires j < k < |submitted|
    ensures submitted[j].definition.CycleDefinition? && submitted[k].definition.CycleDefinition?
    ensures submitted[j].definition.input.generation != submitted[k].definition.input.generation
  {
    assert PreparedBySome(log, submitted[j]) && PreparedBySome(log, submitted[k]);
    var a :| PreparedFor(log, a, submitted[j]);
    var b :| PreparedFor(log, b, submitted[k]);
    if log[a].cursor.generation == log[b].cursor.generation {
      OneCapturePerGeneration(log, a, b);
    }
  }

  /** Crash determinism: a prepared cursor was captured under one model, and at any later moment, whatever became
      of the Task table, a re-derivation gives the Task it names exactly when it runs under that model again. */
  lemma CrashDeterminism(log: seq<Entry>, rows: seq<Stimulus>, tasks: TaskStore, submitted: seq<Task>) returns (model: string)
    requires CycleInvariant(log, rows, tasks, submitted)
    requires log != [] && log[|log| - 1].cursor.state.Prepared?
    ensures var c := log[|log| - 1].cursor;
      forall tasks', model' :: WellFormedStore(tasks') && Evolves(tasks, tasks') ==>
        (NamedUnder(c, tasks', model') <==> model' == model)
  {
    var c := log[|log| - 1].cursor;
    model :| NamedUnder(c, tasks, model);
    forall tasks', model' | WellFormedStore(tasks') && Evolves(tasks, tasks')
      ensures NamedUnder(c, tasks', model') <==> model' == model
    {
      DeriveIsStable(c, tasks, tasks', model, model');
    }
  }

  /** In every reachable cursor of generation g >= 2 the predecessor evidence is a chain of exactly g - 1 Tasks. */
  lemma CursorHasFullLineage(log: seq<Entry>, rows: seq<Stimulus>, tasks: TaskStore, submitted: seq<Task>) returns (chain: seq<Task>)
    requires CycleInvariant(log, rows, tasks, submitted)
    requires log != [] && log[|log| - 1].cursor.generation >= 2
    ensures var c := log[|log| - 1].cursor;
      && |chain| == c.generation - 1
      && c.predTask == Some(chain[0].id) && chain[0].result.Some? && c.predHash == Some(ResultHash(chain[0]))
      && (forall k :: 0 <= k < |chain| ==>
            && Find(tasks, chain[k].id) == Some(chain[k]) && CanonicalCycleSuccess(chain[k])
            && chain[k].definition.input.generation == c.generation - 1 - k
            && chain[k].definition.input.anchorTask == c.anchorTask && chain[k].definition.input.anchorHash == c.anchorHash
            && chain[0].definition.CycleDefinition? && chain[k].definition.input.model == chain[0].definition.input.model)
      && (forall k :: 0 <= k < |chain| - 1 ==> Linked(chain[k], chain[k + 1]))
  {
    var c := log[|log| - 1].cursor;
    var model :| CursorLineage(c, tasks, model);
    chain := LineageListed(tasks, c.predTask.value, c.predHash.value, c.generation - 1, c.anchorTask, c.anchorHash, model);
  }
}
