/** Crashes of the activity pulse converge: from a preparing cursor, any pattern of interrupted calls followed by one
    healthy call writes the very cursor that one healthy call alone would have written (src/LocalActivityPulse.cpp). */
module ActivityConvergence {
  import opened Base
  import opened Work
  import opened ActivityTasks
  import opened ActivityStoreModel
  import opened ActivityAgentModel

  /** A preparing cursor with the checkpoint its anchor holds, within the provider limit. */
  ghost predicate Anchored(c: Cursor, tasks: TaskStore, k: Checkpoint) {
    && ValidCursor(c) && c.state.Preparing? && Reserves(c)
    && AnchorHolds(tasks, c.anchorTask, c.anchorHash) && AnchorEvidence(tasks, c.anchorTask) == Some(k)
    && k.providerTotal <= PROVIDER_LIMIT
  }

  /** The one Task such a cursor asks for. */
  function TaskOf(c: Cursor, k: Checkpoint): Task
    requires ValidCursor(c) && c.state.Preparing?
  {
    var f := FactsOf(c, k);
    WorkTask(ObservationId(f.opportunity), OpportunityKey(f.opportunity), ObservationDefinition(f), Pending, 0, "", None)
  }

  /** The one write that settles it. */
  function SettlementPlan(c: Cursor, k: Checkpoint): Plan
    requires ValidCursor(c) && c.state.Preparing?
  {
    WriteCursor(SettlementOf(c, k), if c.generation == 3 then QuiescentResult else SettledResult)
  }

  /** The one cursor it can settle into. */
  function SettlementOf(c: Cursor, k: Checkpoint): Cursor
    requires ValidCursor(c) && c.state.Preparing?
  {
    SettledWith(c, Sha256(Payload(FactsOf(c, k))))
  }

  lemma AnchoredTask(c: Cursor, tasks: TaskStore, k: Checkpoint)
    requires Anchored(c, tasks, k)
    ensures MakeObservation(FactsOf(c, k)) == Some(TaskOf(c, k)) && c.task == Some(TaskOf(c, k).id)
  {
    AnchoredFactsAreValid(OpportunityOf(c), c.captured.value, k);
  }

  /** `LocalContinuityObservationHandler::execute` answers with the Task's own input; a process may die before it runs or
      right after its result is durable, and a Task that somebody runs already is not startable. */
  predicate ByHandler(x: Execution, f: Facts) {
    match x
    case NotStartable => true
    case StateConflict => false
    case Died => true
    case Finished(status, result) => status == Succeeded && result == Some(TaskResult(Payload(f), true))
    case DiedAfterResult(status, result) => status == Succeeded && result == Some(TaskResult(Payload(f), true))
  }

  /** A call during which the evidence stores stand still and nobody refuses the Task; it may die anywhere. */
  predicate Undisturbed(x: Inputs, c: Cursor, k: Checkpoint)
    requires ValidCursor(c) && c.state.Preparing?
  {
    EvidenceAgrees(k, x.evidence) && !x.submit.SubmitInvalid? && ByHandler(x.execution, FactsOf(c, k))
  }

  /** ... and one that is not interrupted at all. */
  predicate Healthy(x: Inputs, c: Cursor, k: Checkpoint)
    requires ValidCursor(c) && c.state.Preparing?
  {
    && Undisturbed(x, c, k) && x.running && x.submit.SubmitOk? && x.execution.Finished?
  }

  /** What a crash can leave in the Task table: no Task, the Task still to do, or its canonical success. */
  ghost predicate Resumable(c: Cursor, tasks: TaskStore, k: Checkpoint)
    requires ValidCursor(c) && c.state.Preparing?
  {
    var t := TaskOf(c, k);
    var byId, byKey := Find(tasks, t.id), FindByKey(tasks, t.key);
    && WellFormedStore(tasks) && byId == byKey
    && (byId.Some? ==> SameDefinition(byId.value, t) && (byId.value.status in {Pending, Running} || CanonicalObservation(byId.value)))
  }

  predicate InExecution(c: Cursor, tasks: TaskStore, k: Checkpoint)
    requires ValidCursor(c) && c.state.Preparing?
  {
    var t := Find(tasks, TaskOf(c, k).id);
    t.Some? && t.value.status == Running
  }

  lemma PrepareIsPerform(c: Cursor, tasks: TaskStore, k: Checkpoint, x: Inputs)
    requires Anchored(c, tasks, k) && Undisturbed(x, c, k)
    ensures Prepare(c, tasks, x) == Perform(c, tasks, TaskOf(c, k), x)
  {
    hide ConfirmedAction, CaptureFacts, AnchorEvidence, Perform;
    AnchoredTask(c, tasks, k);
    CaptureIsAnchored(OpportunityOf(c), c.captured.value, k, x.evidence);
  }

  /** One call with a table in which the Task stands ready. */
  lemma RunStaysResumable(c: Cursor, tasks: TaskStore, k: Checkpoint, t: Task, x: Inputs)
    requires Anchored(c, tasks, k) && Resumable(c, tasks, k) && Undisturbed(x, c, k)
    requires Find(tasks, TaskOf(c, k).id) == Some(t)
    ensures Resumable(c, Run(c, tasks, t, x).tasks, k) && Evolves(tasks, Run(c, tasks, t, x).tasks)
    ensures var plan := Run(c, tasks, t, x).plan; plan.Stay? || plan == SettlementPlan(c, k)
    ensures Healthy(x, c, k) && t.status != Running ==> Run(c, tasks, t, x).plan.WriteCursor?
  {
    hide AnchorHolds, AnchorEvidence, EvidenceAgrees, ValidCursor, WellFormedStore, Evolves, Resumable, MakeObservation;
    AnchoredTask(c, tasks, k);
    TaskAtHand(c, tasks, k, t);
    EvolvesReflexive(tasks);
    var tasks' := Run(c, tasks, t, x).tasks;
    if tasks' != tasks {
      UpdateStaysResumable(c, tasks, k, t, tasks'.rows[t.id]);
    }
  }

  lemma TaskAtHand(c: Cursor, tasks: TaskStore, k: Checkpoint, t: Task)
    requires ValidCursor(c) && c.state.Preparing? && Resumable(c, tasks, k) && Find(tasks, TaskOf(c, k).id) == Some(t)
    ensures SameDefinition(t, TaskOf(c, k)) && (t.status in {Pending, Running} || CanonicalObservation(t))
  {
  }

  lemma UpdateStaysResumable(c: Cursor, tasks: TaskStore, k: Checkpoint, t: Task, t': Task)
    requires ValidCursor(c) && c.state.Preparing? && Resumable(c, tasks, k) && Find(tasks, TaskOf(c, k).id) == Some(t)
    requires RowEvolves(t, t') && (t'.status in {Pending, Running} || CanonicalObservation(t'))
    ensures Resumable(c, Update(tasks, t'), k) && Evolves(tasks, Update(tasks, t'))
  {
    hide CanonicalObservation, ValidCursor;
    UpdateEvolves(tasks, t');
  }

  lemma InsertedIsResumable(c: Cursor, tasks: TaskStore, k: Checkpoint)
    requires Anchored(c, tasks, k) && Resumable(c, tasks, k) && Find(tasks, TaskOf(c, k).id).None?
    ensures var tasks' := Insert(tasks, TaskOf(c, k));
      && Evolves(tasks, tasks') && Resumable(c, tasks', k) && Anchored(c, tasks', k)
      && Find(tasks', TaskOf(c, k).id) == Some(TaskOf(c, k))
  {
    hide AnchorEvidence, ValidCursor;
    InsertEvolves(tasks, TaskOf(c, k));
    AnchorStays(tasks, Insert(tasks, TaskOf(c, k)), c.anchorTask, c.anchorHash);
  }

  /** Whatever interrupts a call, it leaves the table resumable and plans the one settlement or nothing; an uninterrupted
      one plans the settlement. */
  lemma CallIsResumable(c: Cursor, tasks: TaskStore, k: Checkpoint, x: Inputs)
    requires Anchored(c, tasks, k) && Resumable(c, tasks, k) && Undisturbed(x, c, k)
    ensures var o := Prepare(c, tasks, x);
      && Resumable(c, o.tasks, k) && Evolves(tasks, o.tasks)
      && (o.plan.Stay? || o.plan == SettlementPlan(c, k))
      && (Healthy(x, c, k) && !InExecution(c, tasks, k) ==> o.plan.WriteCursor?)
  {
    hide AnchorHolds, AnchorEvidence, Reserves, Healthy, Run, Undisturbed, WellFormedStore, Evolves, CanonicalObservation, Resumable, ValidCursor;
    PrepareIsPerform(c, tasks, k, x);
    var t := TaskOf(c, k);
    var byId := Find(tasks, t.id);
    LookupAgrees(c, tasks, k);
    EvolvesReflexive(tasks);
    if byId.Some? {
      RunStaysResumable(c, tasks, k, byId.value, x);
    } else if x.running && !x.submit.SubmitUnavailable? {
      NotRefused(x, c, k);
      InsertedIsResumable(c, tasks, k);
      if x.submit.SubmitOk? {
        RunStaysResumable(c, Insert(tasks, t), k, t, x);
        EvolvesTransitive(tasks, Insert(tasks, t), Run(c, Insert(tasks, t), t, x).tasks);
      } else {
        NotHealthy(x, c, k);
      }
    } else {
      NotHealthy(x, c, k);
    }
  }

  lemma LookupAgrees(c: Cursor, tasks: TaskStore, k: Checkpoint)
    requires ValidCursor(c) && c.state.Preparing? && Resumable(c, tasks, k)
    ensures var t := TaskOf(c, k);
      && Find(tasks, t.id) == FindByKey(tasks, t.key)
      && (Find(tasks, t.id).Some? ==> SameDefinition(Find(tasks, t.id).value, t))
  {
  }

  lemma NotRefused(x: Inputs, c: Cursor, k: Checkpoint)
    requires ValidCursor(c) && c.state.Preparing? && Undisturbed(x, c, k)
    ensures !x.submit.SubmitInvalid?
  {
  }

  lemma NotHealthy(x: Inputs, c: Cursor, k: Checkpoint)
    requires ValidCursor(c) && c.state.Preparing? && (!x.running || !x.submit.SubmitOk?)
    ensures !Healthy(x, c, k)
  {
  }

  lemma EvolvesTransitive(a: TaskStore, b: TaskStore, c: TaskStore)
    requires Evolves(a, b) && Evolves(b, c)
    ensures Evolves(a, c)
  {
    forall id | id in a.rows
      ensures id in c.rows && RowEvolves(a.rows[id], c.rows[id])
    {
      assert RowEvolves(a.rows[id], b.rows[id]) && RowEvolves(b.rows[id], c.rows[id]);
    }
  }

  // --- Any pattern of crashes -------------------------------------------------------------------------------------

  /** One interrupted call and the table the next call finds. */
  datatype Interrupted = Interrupted(x: Inputs, found: TaskStore)

  /** Between two calls the rest of the Runtime goes on; of this Task it only takes back an expired lease. */
  ghost predicate LeaseTakenBack(c: Cursor, k: Checkpoint, left: TaskStore, found: TaskStore)
    requires ValidCursor(c) && c.state.Preparing?
  {
    && WellFormedStore(found) && Evolves(left, found)
    && var t := TaskOf(c, k);
    var before, after := Find(left, t.id), Find(found, t.id);
    if before.None? then after.None? && FindByKey(found, t.key).None?
    else after == before || (before.value.status == Running && after == Some(before.value.(status := Pending)))
  }

  ghost predicate CrashPattern(c: Cursor, k: Checkpoint, tasks: TaskStore, calls: seq<Interrupted>)
    requires ValidCursor(c) && c.state.Preparing?
    decreases |calls|
  {
    calls == [] ||
    (&& Undisturbed(calls[0].x, c, k)
     && LeaseTakenBack(c, k, Prepare(c, tasks, calls[0].x).tasks, calls[0].found)
     && CrashPattern(c, k, calls[0].found, calls[1..]))
  }

  function Found(tasks: TaskStore, calls: seq<Interrupted>): TaskStore {
    if calls == [] then tasks else calls[|calls| - 1].found
  }

  lemma LeaseKeepsResumable(c: Cursor, tasks: TaskStore, k: Checkpoint, left: TaskStore, found: TaskStore)
    requires Anchored(c, tasks, k) && Evolves(tasks, left) && Resumable(c, left, k) && LeaseTakenBack(c, k, left, found)
    ensures Anchored(c, found, k) && Resumable(c, found, k)
  {
    hide AnchorEvidence, ValidCursor;
    EvolvesTransitive(tasks, left, found);
    AnchorStays(tasks, found, c.anchorTask, c.anchorHash);
  }

  lemma {:induction false} PatternStaysResumable(c: Cursor, k: Checkpoint, tasks: TaskStore, calls: seq<Interrupted>)
    requires Anchored(c, tasks, k) && Resumable(c, tasks, k) && CrashPattern(c, k, tasks, calls)
    ensures Anchored(c, Found(tasks, calls), k) && Resumable(c, Found(tasks, calls), k)
    decreases |calls|
  {
    hide AnchorHolds, AnchorEvidence, Reserves, Resumable, Undisturbed, LeaseTakenBack, Prepare, ValidCursor;
    if calls != [] {
      CallIsResumable(c, tasks, k, calls[0].x);
      LeaseKeepsResumable(c, tasks, k, Prepare(c, tasks, calls[0].x).tasks, calls[0].found);
      PatternStaysResumable(c, k, calls[0].found, calls[1..]);
      assert Found(tasks, calls) == Found(calls[0].found, calls[1..]);
    }
  }

  /** Convergence: after any pattern of crashes a healthy call plans the very settlement that a healthy call plans
      without any crash, as soon as the Task's lease has been taken back. */
  lemma CrashesConverge(c: Cursor, k: Checkpoint, tasks: TaskStore, calls: seq<Interrupted>, x: Inputs, y: Inputs)
    requires Anchored(c, tasks, k) && Resumable(c, tasks, k) && CrashPattern(c, k, tasks, calls)
    requires Healthy(x, c, k) && Healthy(y, c, k)
    requires !InExecution(c, tasks, k) && !InExecution(c, Found(tasks, calls), k)
    ensures Prepare(c, tasks, x).plan == Prepare(c, Found(tasks, calls), y).plan == SettlementPlan(c, k)
  {
    hide AnchorHolds, AnchorEvidence, Reserves, Resumable, Healthy, Prepare, ValidCursor;
    HealthyIsUndisturbed(x, c, k);
    HealthyIsUndisturbed(y, c, k);
    CallIsResumable(c, tasks, k, x);
    PatternStaysResumable(c, k, tasks, calls);
    CallIsResumable(c, Found(tasks, calls), k, y);
  }

  lemma HealthyIsUndisturbed(x: Inputs, c: Cursor, k: Checkpoint)
    requires ValidCursor(c) && c.state.Preparing? && Healthy(x, c, k)
    ensures Undisturbed(x, c, k)
  {
  }

  /** In a run that plan is carried out: the healthy call appends the settlement and reports it. */
  lemma HealthyObserveSettles(log: seq<Cursor>, tasks: TaskStore, submitted: seq<Task>, k: Checkpoint, x: Inputs,
                              log': seq<Cursor>, tasks': TaskStore, result: PulseResult)
    requires ActivityInvariant(log, tasks, submitted) && log != []
    requires var c := log[|log| - 1];
      && Anchored(c, tasks, k) && Resumable(c, tasks, k) && !InExecution(c, tasks, k)
      && Healthy(x, c, k) && x.fault.Healthy? && !BehindClock(c, x.now)
      && ObserveEffect(c, tasks, x, log, log', tasks', result)
    ensures var c := log[|log| - 1];
      && log' == log + [SettlementOf(c, k)]
      && result == if c.generation == 3 then QuiescentResult else SettledResult
  {
    hide Resumable, Run, CaptureFacts, AnchorEvidence, WellFormedStore, SettlementsDetermined, SubmissionsMatch, EvidenceAgrees;
    var c := log[|log| - 1];
    ActivityAccounting(log);
    CallIsResumable(c, tasks, k, x);
  }
}
