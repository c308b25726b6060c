# Durable state machines of Gaudere Body, in Dafny

Gaudere Body keeps its progress in several small SQLite sidecars, one cursor or log each, beside the Task table of the
Gaudere work Runtime. No transaction spans two of them, and the process may die between any two writes. The project models
these state machines with the same branches, constants and error answers as the program and proves what holds over whole
runs: which effects happen at most once, which evidence is never lost, and what a restart recovers.

`dafny verify dfyconfig.toml` checks every file.

## What is modelled

| files | part of the program |
|---|---|
| `Base`, `Work`, `Decimal` | machine integers, crash points, write outcomes; the Task table by contract; decimal text |
| `LocalGooseCycle`, `CycleStore`, `CycleAntiSpin`, `StimulusStore`, `CycleEvidence`, `CycleAgent` | the self-scheduling local cycle and the stimuli that re-arm it: two sidecars, one recovery protocol |
| `CognitionTasks`, `PulseStore`, `PulseAgent` | the autonomous cognition pulse, its provider gate, stale refresh and provider execution |
| `DialogueTasks`, `DialogueThread`, `DialogueServer`, `ChatSession` | dialogue threads, the preferred submitter, and the chat client over a lossy transport |
| `CompletionFeed`, `CompletionService` | the event log derived from thread journals and its consumers |
| `ActivityTasks`, `ActivityStore`, `ActivityAgent`, `ActivityConvergence` | the three-generation activity pulse, its recovery and its scheduler projection |
| `IdentityPreimages`, `Sha256`, `Mailbox` | unique decodability of identity strings, SHA-256 against FIPS 180-4, the two-thread mailbox |

## How it is modelled

- A service is a class over its stores. Each store has a row and a ghost history of everything ever committed, so a claim
  about a run is a claim about the history. An invariant over histories, Task table and Actions is kept by every method, and
  the theorems about runs are lemmas about that invariant. Any sequence of method calls is a run.
- A crash is an argument. `Fault` says whether a transaction fails before its commit, or commits and is never acknowledged,
  which is also how a process death right after a write looks. `SubmitReply`, `Execution`, `Run` and `Delivery` do the same for the
  Runtime, the handlers and the transport. What a method leaves behind is stated for every value of these arguments.
- Methods named `World` or `Environment` stand for everybody else: lease recovery, operators, other components. They may do
  anything the Runtime allows.
- One owner runs each service (README.md:136-139, src/LiveControlProcessor.hpp:28-35), so a compare-and-swap against the row
  just read never meets a foreign write inside one call. The branches that only handle such a foreign write are not part of the
  model.
- The Runtime's TaskStore is a contract (`Work`): ids and keys are unique, definitions never change, terminal rows are frozen,
  attempts only grow, `submit` inserts if absent. The ActionStore likewise: unique ids and keys, rows never removed, and an
  Action exists only for a Task that has started.
- A SHA-256 digest outside `Sha256` is a free constructor over what was hashed: equal digests mean equal preimages.
  `IdentityPreimages` shows separately that the hashed strings determine the fields.
- Clocks, budgets, snapshots of other stores and the Runtime's answers are inputs. Times are integer milliseconds with the
  program's own overflow checks; revisions and generations are unsigned 64-bit numbers bounded by 2^63 - 1 where the program
  bounds them.

## Results worth knowing

- The stores guard a replacement by its revision only. That is as strong as comparing rows, because a revision names exactly
  one committed cursor (`RevisionIsIndex` and its siblings).
- The pulse store accepts replacements the services never make (`StoreAllowsUntimely`), and the activity store accepts
  replacements of a blocked cursor without end (`StoreNeverEnds`). The properties of runs rest on the services.
- A stimulus whose re-arm was written while its own row was not is consumed by its next reconcile if and only if the clock
  is not behind its acceptance and the cursor is still the re-armed one (`CrashAfterRearmRecovers`). A clock that went back
  sends it to manual review; a cycle step in between, for which the re-armed cursor is due at once, makes it superseded
  (`StepBeforeReconcileSupersedes`). Apart from stimuli that still wait for that reconcile, these are the ways in which
  re-arms outnumber consumed stimuli.
- A thread journal copied from a schema 1 sidecar starts at whatever head it had. Its entries are contiguous and linear all the
  same, but a request committed right before the upgrade is answered as a conflict when it is retried after it
  (`LostReplyIsRecognised`).
- A grant's identity leaves out when it was issued: two grants that differ only in their creation time, with the same
  lifetime, share an id (`GrantMaterialIsUnique`).
- The payload of an activity observation depends on the preparing cursor and its anchor alone, so a recovery settles on the
  same cursor or blocks even when the evidence stores move in between (`CaptureIsAnchored`, `PreparingConverges`). While they
  stand still, any pattern of crashes ends in that cursor as soon as one call is left alone with a Task that may run
  (`CrashesConverge`).
- The inspection of a checkpoint accepts a provider total above the limit of 12; a pulse anchored at it is seeded, and its first
  due observation blocks (`AnchoredFactsAreValid`).
- Thirteen of the gate's block reasons cannot occur: the deadline inconsistency and twelve breaks of the lineage
  (`DeadlineBlockUnreachable`, `LineageBlocksUnreachable`).

## Model

| member | source | states |
|---|---|---|
| `LocalGooseCycle.MakeThenInspect` | src/LocalGooseCycle.cpp:77-265 | A built cycle Task passes the inspector, reports the generation, deadline, capture time, model and anchor it was built from, and names its predecessor by id and result hash |
| `CycleStoreModel.CycleStore.Seed` | src/LocalGooseCycleStore.cpp:436-478 | Only a canonical generation-0 dormant cursor is inserted, once; every outcome code and the stored history are determined |
| `CycleStoreModel.CycleStore.Replace` | src/LocalGooseCycleStore.cpp:480-526 | The revision guard alone makes the swap exact: the row changes if and only if the transition is legal and the row is the expected one, and the history stays a chain |
| `CycleStoreModel.RevisionIsIndex` | src/LocalGooseCycleStore.cpp:306-353 | Revision r names exactly the r-th committed cursor of any history |
| `CycleStoreModel.RevisionAccounting` | src/LocalGooseCycleStore.cpp:306-353 | Every run: revision = 2g-1+R (scheduled, dormant), 2g+R (prepared), source+1 (blocked), and R <= g-1 |
| `CycleStoreModel.GenerationsRise` | src/LocalGooseCycleStore.cpp:306-353 | Generations never fall and strictly rise after each capture unless the run blocks; nothing follows a blocked cursor |
| `CycleStoreModel.OneCapturePerGeneration` | src/LocalGooseCycleStore.cpp:306-353 | A generation is captured at most once in a whole run |
| `CycleAntiSpin.Pace` | src/LocalGooseCycleService.cpp:38-47 | How far a run must have advanced after c captures and r re-arms inside a window |
| `CycleAntiSpin.AntiSpin` | src/LocalGooseCycleService.cpp:161-188 | With a clock that never goes back, a window of W ms holds at most W/1000 + 1 captures plus the re-arms in it |
| `StimulusStoreModel.StimulusStore.Append` | src/LocalGooseCycleStimulusStore.cpp:532-604 | A stimulus is inserted if and only if it is valid, accepted, and its id, its source and its accepted target are all new |
| `StimulusStoreModel.StimulusStore.Replace` | src/LocalGooseCycleStimulusStore.cpp:606-677 | Exactly the expected accepted row becomes terminal; a terminal row is never touched |
| `CycleEvidence.DerivedTask` | src/LocalGooseCycleService.cpp:49-92 | A derivation names the cursor's own opportunity, anchor and predecessor evidence |
| `CycleEvidence.DeriveIsStable` | src/LocalGooseCycleService.cpp:49-92 | Whatever happens to the Task table, a later derivation is the same Task if and only if it runs under the same model |
| `CycleEvidence.LineageIsStable` | src/LocalGooseCycle.cpp:50-73 | Predecessor evidence, once complete, stays complete under every evolution of the Task table |
| `CycleEvidence.LineageListed` | src/LocalGooseCycle.cpp:50-73 | Following the evidence lists exactly g succeeded Tasks, newest first, linked by id and result hash, with one anchor and one model |
| `CycleEvidence.SettlementExtendsLineage` | src/LocalGooseCycleService.cpp:260-325 | A settlement extends the lineage by the Task that just succeeded |
| `CycleAgentModel.AddDelay` | src/LocalGooseCycleService.cpp:38-47 | The next deadline is at least one second away, and is refused exactly when it would overflow |
| `CycleAgentModel.FateInEveryRun` | src/LocalGooseCycleStimulusService.cpp:257-333 | Every run: what reconcile does with an accepted stimulus, for every clock and every cursor the run can have reached; the successor of its target is always its own re-arm |
| `CycleAgentModel.CrashAfterRearmRecovers` | src/LocalGooseCycleStimulusService.cpp:257-296 | Every run: a stimulus whose re-arm is written but not recorded is consumed by its next reconcile if and only if the clock is not behind its acceptance and the row is still the re-armed one, scheduled at target revision + 1; otherwise it is reviewed or superseded, exactly by clock and by revision |
| `CycleAgentModel.InterruptedConsumption` | src/LocalGooseCycleStimulusService.cpp:333-366 | A consumption leaves such a stimulus behind if and only if the cursor write was committed without acknowledgement, or acknowledged while the stimulus write failed |
| `CycleAgentModel.StepBeforeReconcileSupersedes` | src/LocalGooseCycleStimulusService.cpp:290-296 | The input that loses a consumption: a re-armed cursor is due at once, so a cycle step before the next reconcile captures or blocks it and the stimulus is superseded |
| `CycleAgentModel.BlockedTargetIsReviewed` | src/LocalGooseCycleStimulusService.cpp:279-288 | A target blocked at the next revision, which the store allows and no service writes, sends its stimulus to manual review |
| `CycleAgentModel.CursorWriteKeepsInvariant` | src/LocalGooseCycleService.cpp:137-359 | A legal cursor write keeps the invariant that ties both sidecars and the Task table together |
| `CycleAgentModel.AppendKeepsInvariant` | src/LocalGooseCycleStimulusService.cpp:176-233 | A new stimulus targets the current cursor, so no consumed stimulus can share its target |
| `CycleAgentModel.TerminalizeKeepsInvariant` | src/LocalGooseCycleStimulusService.cpp:101-138 | Ending a stimulus keeps every re-arm attributed to exactly one live stimulus |
| `CycleAgentModel.TasksEvolveKeepsInvariant` | src/LocalGooseCycleService.cpp:189-259 | Nothing other owners do to the Task table can break the invariant |
| `CycleAgentModel.CycleAgent.SeedCycle` | src/LocalGooseCycleBootstrap.cpp:34-65 | The cursor is seeded from a canonical observation or not at all |
| `CycleAgentModel.CycleAgent.Activate` | src/LocalGooseCycleBootstrap.cpp:67-115 | The only exit from generation 0: one scheduled cursor of generation 1 |
| `CycleAgentModel.CycleAgent.Step` | src/LocalGooseCycleService.cpp:137-359 | The exact effect of one step in every branch and under every crash point: at most one cursor write or one Task change |
| `CycleAgentModel.CycleAgent.Recover` | src/LocalGooseCycleService.cpp:189-345 | The prepared half: the Task is re-derived and the Task table decides what is left to do |
| `CycleAgentModel.CycleAgent.Capture` | src/LocalGooseCycleService.cpp:161-188 | A due cursor captures the opportunity and names the Task it derives, or blocks |
| `CycleAgentModel.CycleAgent.Settle` | src/LocalGooseCycleService.cpp:260-325 | Only a canonical success starts the next generation; everything else blocks |
| `CycleAgentModel.CycleAgent.AcceptExplicitRecheck` | src/LocalGooseCycleStimulusService.cpp:176-233 | A stimulus is appended exactly for a dormant cursor of generation 2 or later with a canonical predecessor |
| `CycleAgentModel.CycleAgent.Reconcile` | src/LocalGooseCycleStimulusService.cpp:235-389 | The exact effect on both sidecars of reconciling one stimulus, for every fate and every crash point |
| `CycleAgentModel.CycleAgent.Terminalize` | src/LocalGooseCycleStimulusService.cpp:101-138 | The one write that ends a stimulus; the recorded time never precedes the acceptance |
| `CycleAgentModel.ConsumedOnce` | src/LocalGooseCycleStimulusService.cpp:235-389 | Every run: a consumed stimulus is one real dormant-to-scheduled write at its target revision with its acceptance time as deadline, and no two share a target |
| `CycleAgentModel.StimuliConserved` | src/LocalGooseCycleStimulusService.cpp:235-389 | Every run: consumed stimuli <= re-arms <= stimuli ever appended |
| `CycleAgentModel.ConsumedAreRearms` | src/LocalGooseCycleStimulusService.cpp:235-389 | Consumed stimuli map one-to-one into re-arms |
| `CycleAgentModel.RearmsAreAppended` | src/LocalGooseCycleStimulusService.cpp:235-389 | Re-arms map one-to-one into appended stimuli |
| `CycleAgentModel.OneTaskPerGeneration` | src/LocalGooseCycleService.cpp:189-259 | Every run: no two submitted cycle Tasks have the same generation |
| `CycleAgentModel.CrashDeterminism` | src/LocalGooseCycleService.cpp:189-259 | A prepared cursor was captured under one model; any later re-derivation gives its current Task if and only if it uses that model |
| `CycleAgentModel.CursorHasFullLineage` | src/LocalGooseCycleService.cpp:49-92 | Every reachable cursor of generation g >= 2 has exactly g-1 succeeded Tasks behind it, generations g-1 down to 1, one anchor, one model, each link matching by hash |
| `CognitionTasks.ClaimOnlyInserts` | src/CurrentCognitionCycle.cpp:386-487 | A claim changes the Task table by at most its own pending, never started Task |
| `CognitionTasks.ClaimLinksItsEvidence` | src/CurrentCognitionCycle.cpp:386-487 | The Task a claim returns links exactly the predecessor and the snapshot it was given, with their decision and capsule |
| `PulseStoreModel.PulseStore.Seed` | src/AutonomousCognitionPulseStore.cpp:306-345 | A valid revision-0 cursor is inserted once |
| `PulseStoreModel.PulseStore.Replace` | src/AutonomousCognitionPulseStore.cpp:347-397 | The swap happens if and only if both cursors are valid, the revision advances by one and the row is the expected one |
| `PulseStoreModel.EveryCursorIsTimely` | src/AutonomousCognitionPulse.cpp:303-482 | Every run: observed >= due >= anchor whenever an observation is frozen |
| `PulseStoreModel.GenerationOwnsTheDeadline` | src/AutonomousCognitionPulse.cpp:303-482 | Every run: generation and anchor never fall, deadline, anchor and predecessor change only with the generation, and blocked is absorbing |
| `PulseStoreModel.SameGenerationMeansReset` | src/AutonomousCognitionStaleRefresh.cpp:66-78 | Two prepared cursors of one generation are separated by a stale reset right after the first |
| `PulseStoreModel.StoreAllowsUntimely` | src/AutonomousCognitionPulseStore.cpp:347-397 | The store itself would accept a replacement that breaks the time order: a concrete pair of cursors |
| `PulseAgentModel.PulseAgent.Seed` | src/AutonomousCognitionPulse.cpp:253-301 | The pulse is seeded from a canonical cognition, 6 h or 24 h ahead, or not at all |
| `PulseAgentModel.PulseAgent.Observe` | src/AutonomousCognitionPulse.cpp:303-482 | The exact effect of one observation in every state, including the two writes of a due one and the crash between them |
| `PulseAgentModel.PulseAgent.ObservePrepared` | src/AutonomousCognitionPulse.cpp:322-366 | Settlement, waiting or blocking of a prepared cursor |
| `PulseAgentModel.PulseAgent.ObservePreparing` | src/AutonomousCognitionPulse.cpp:404-478 | Preparation is resumable: staleness, predecessor, budget, snapshot and claim decide between prepared, blocked and unchanged |
| `PulseAgentModel.PulseAgent.RefreshStep` | src/AutonomousCognitionStaleRefresh.cpp:93-169 | A stale Task is cancelled and the cursor reset only when it is pending, never started and without Action; recovery after a crash between the two writes included |
| `PulseAgentModel.PulseAgent.ResetRetiredCursor` | src/AutonomousCognitionStaleRefresh.cpp:52-91 | The cursor is reset exactly when the retired Task has no Action |
| `PulseAgentModel.PulseAgent.ExecuteProvider` | src/ProviderTaskHandler.cpp:132-200 | The provider is invoked at most once per call, only for the eligible Task, and only after its Action is durable |
| `PulseAgentModel.PulseAgent.PulseStep` | src/AutonomousCognitionPulseService.cpp:160-209 | The exact composition: the refresh leaves one history and one Task table, and the observation has its effect on those, unless the process died in between; a Task that has started is never retired, so its cursor can only settle, wait or block |
| `PulseAgentModel.PulseAgent.ServiceStep` | src/AutonomousCognitionProviderService.cpp:41-85 | One service step invokes the provider at most once, and after a finished execution the pulse alone decides: the exact settlement, wait or block of the prepared cursor |
| `PulseAgentModel.EligibleMeansUnspent` | src/AutonomousCognitionProviderGate.cpp:153-257 | An eligible verdict names the cursor's own Task, pending, with attempts left and without Action |
| `PulseAgentModel.WriteKeepsInvariant` | src/AutonomousCognitionPulse.cpp:303-482 | Every cursor write keeps settlements canonical and resets retired |
| `PulseAgentModel.WorldKeepsInvariant` | src/AutonomousCognitionStaleRefresh.cpp:52-171 | Lease recovery, cancellation and foreign Tasks or Actions keep the invariant |
| `PulseAgentModel.CallKeepsInvariant` | src/ProviderTaskHandler.cpp:132-200 | The Action of an executing Task is new, so the invocation after it is that Task's first |
| `PulseAgentModel.RetiredIsNeverSpent` | src/AutonomousCognitionStaleRefresh.cpp:52-171 | A retired Task has no Action, before or after its cancellation, and was never invoked |
| `PulseAgentModel.OneActionPerGeneration` | src/AutonomousCognitionProviderGate.cpp:182-257 | Every run: of all prepared cursors a generation ever had, at most one names a Task with a provider Action |
| `PulseAgentModel.OneCallPerGeneration` | src/AutonomousCognitionProviderService.cpp:41-85 | Every run: at most one provider invocation per generation |
| `PulseAgentModel.GenerationsRestOnSuccess` | src/AutonomousCognitionPulse.cpp:336-366 | A generation only starts from the canonical success of the Task the previous one had prepared |
| `PulseAgentModel.DeadlineBlockExactly` | src/AutonomousCognitionProviderGate.cpp:173-174 | The gate reports an inconsistent deadline if and only if the cursor is valid, prepared and untimely |
| `PulseAgentModel.DeadlineBlockUnreachable` | src/AutonomousCognitionProviderGate.cpp:173-174 | No cursor of any run makes the gate report an inconsistent deadline |
| `PulseAgentModel.LineageBlocksUnreachable` | src/AutonomousCognitionProviderGate.cpp:176-228 | No run makes the gate find the lineage, the snapshot, its capture time or the predecessor of a prepared cursor broken |
| `Decimal.ParseUint64` | src/GaudereChat.cpp:134-147 | Succeeds exactly on 1 to 20 digits whose value is below 2^64, and returns that value |
| `Decimal.ValueOfDec` | src/GaudereChat.cpp:134-147 | Printing and reading a number gives the number back |
| `Decimal.PrintedNumbersParse` | src/GaudereChat.cpp:134-147 | Every printed unsigned 64-bit number is accepted by the parser |
| `DialogueTasks.SuccessorIsLinked` | src/LocalGooseDialogueV3.cpp:200-278 | A built successor carries its request, its root, its predecessor's id and result hash, and the next turn number |
| `DialogueThread.ThreadStore.Seed` | src/LocalGooseDialogueThreadStore.cpp:408-466 | An alias is bound once, at revision 0 |
| `DialogueThread.ThreadStore.FromSchema1` | src/LocalGooseDialogueThreadStore.cpp:343-362 | Opening a schema 1 sidecar turns each head into the first entry of its journal |
| `DialogueThread.HistoryIsSlice` | src/LocalGooseDialogueThreadStore.cpp:161-191 | The selected history is one slice of the journal, from the asked revision or from the first entry above it |
| `DialogueThread.ThreadStore.Replace` | src/LocalGooseDialogueThreadStore.cpp:468-547 | The head advances and the journal grows in one transaction, exactly when the whole expected row is current |
| `DialogueThread.JournalIsContiguous` | src/LocalGooseDialogueThreadStore.cpp:274-286 | Entry k of a journal is the k-th revision after its first one, of one alias and one root, wherever the journal starts |
| `DialogueThread.TurnsCountRevisions` | src/LocalGooseDialoguePreferredSubmitter.cpp:94-253 | Between any two entries the turn number advances as much as the revision |
| `DialogueThread.AtMostOneEntry` | src/LocalGooseDialoguePreferredSubmitter.cpp:87-253 | At most one entry of a journal ever carries a given request id |
| `DialogueThread.OlderEntriesSucceeded` | src/LocalGooseDialoguePreferredSubmitter.cpp:94-253 | Every entry with a successor is a canonical success, the first one of an upgraded journal included, so only the newest head can be unfinished |
| `DialogueThread.LinearStays` | src/LocalGooseDialoguePreferredSubmitter.cpp:94-253 | A linear journal stays linear whatever happens to the Task table |
| `DialogueServerModel.DialogueServer.Bind` | src/LiveControlProcessor.cpp:660-704 | A thread is bound only to a canonical success, with the root that Task declares |
| `DialogueServerModel.DialogueServer.Submit` | src/LocalGooseDialoguePreferredSubmitter.cpp:67-253 | The exact effect of one submission under every crash point; success means the request sits at expected revision + 1 |
| `DialogueServerModel.CommitFollows` | src/LocalGooseDialoguePreferredSubmitter.cpp:155-222 | The head the submitter writes is the successor of the head it read |
| `DialogueServerModel.CrashThenRetryCommits` | src/LocalGooseDialoguePreferredSubmitter.cpp:185-222 | After a crash between Task submission and head swap, a retry plans the very same commit |
| `DialogueServerModel.LostReplyIsRecognised` | src/LocalGooseDialoguePreferredSubmitter.cpp:94-152 | After a lost reply, a retry is answered as a duplicate naming the committed Task and head if and only if the expected entry is in the journal; over a sidecar upgraded in between it is answered as a conflict |
| `DialogueServerModel.BoundStartsStay` | src/LiveControlProcessor.cpp:660-704 | A thread bound by this schema starts at revision 0, at a canonical success, whatever happens to the Task table |
| `ChatSessionModel.RequestIdsDiffer` | src/GaudereChat.cpp:318-326 | Within a session the request id determines the turn number |
| `ChatSessionModel.RequestIdsAreSafe` | src/GaudereChat.cpp:318-326 | Every generated request id is a safe identifier of at most 128 characters |
| `ChatSessionModel.ChatSession.NextRequestId` | src/GaudereChat.cpp:318-326 | A fresh id every time; the turn counter advances by one |
| `ChatSessionModel.ChatSession.SendTurn` | src/GaudereChat.cpp:328-356 | An ambiguous attempt blocks new turns; a committed turn is in the journal exactly once, at expected revision + 1 |
| `ChatSessionModel.ChatSession.RetryAmbiguous` | src/GaudereChat.cpp:358-368 | The very same attempt again, under the same request id |
| `ChatSessionModel.ChatSession.SubmitAttempt` | src/GaudereChat.cpp:370-459 | The exact turn for every delivery and every answer: only a transport failure leaves the attempt ambiguous, and a committed turn is in the journal exactly once |
| `ChatSessionModel.WaitForTask` | src/GaudereChat.cpp:461-548 | The first poll that is decisive, or that leaves the clock at the deadline, decides the turn |
| `ChatSessionModel.CommittedIsAwaited` | src/GaudereChat.cpp:425-458 | A committed request is never reported malformed to a client that inspected the thread's real root |
| `CompletionFeedModel.MakeEvent` | src/LocalGooseDialogueCompletionFeed.cpp:395-452 | An event is valid and names the Task and the root that Task declares |
| `CompletionFeedModel.ExistingExactly` | src/LocalGooseDialogueCompletionFeed.cpp:552-614 | A thread revision is in the log exactly when it lies between the thread's first event and its cursor |
| `CompletionFeedModel.CompletionFeed.Append` | src/LocalGooseDialogueCompletionFeed.cpp:552-666 | An event is appended exactly at its thread's cursor, above every sequence number ever used |
| `CompletionFeedModel.CompletionFeed.NextFor` | src/LocalGooseDialogueCompletionFeed.cpp:668-677 | The first event the consumer has not acknowledged |
| `CompletionFeedModel.CompletionFeed.Acknowledge` | src/LocalGooseDialogueCompletionFeed.cpp:689-757 | Accepted exactly for the consumer's next event |
| `CompletionFeedModel.AcknowledgedInOrder` | src/LocalGooseDialogueCompletionFeed.cpp:689-757 | Acknowledgements are a prefix of the log; per thread they are consecutive revisions without gap or repeat |
| `CompletionFeedModel.NothingLandsBehindACursor` | src/LocalGooseDialogueCompletionFeed.cpp:552-666 | Every event a consumer has not acknowledged lies above its cursor |
| `CompletionServiceModel.CompletionService.Reconcile` | src/LocalGooseDialogueCompletionFeed.cpp:775-860 | The thread's cursor moves over exactly the ready entries from the first one not materialised, up to the limit, the sequence numbers left and the first failing write, whose event may be durable all the same; one event each, and the answer is the one of the entry it stopped at |
| `CompletionServiceModel.TurnStops` | src/LocalGooseDialogueCompletionFeed.cpp:806-854 | A turn that does not succeed ends the reconcile with the effect and the answer the whole reconcile promises |
| `CompletionServiceModel.FeedStaysMatched` | src/LocalGooseDialogueCompletionFeed.cpp:775-860 | Materialised events stay true while journals grow and Tasks evolve |
| `CompletionServiceModel.AcknowledgedIsTheJournal` | src/LocalGooseDialogueCompletionFeed.cpp:775-860 | What a consumer acknowledged of a thread is that thread's journal from its first entry on, in order |
| `ActivityTasks.MakeObservation` | src/LocalContinuityObservation.cpp:274-299 | A Task is built exactly from valid facts; its id is the opportunity |
| `ActivityTasks.CaptureIsAnchored` | src/LocalActivityPulse.cpp:158-213 | Whatever the Action, budget and wake stores say, a capture yields the facts the anchor determines or none, and yields them if and only if both Actions are confirmed, the total and the wake unchanged |
| `ActivityTasks.AnchoredFactsAreValid` | src/LocalContinuityObservation.cpp:189-218 | The Task builder refuses anchored facts for one reason only: a provider total above the limit |
| `ActivityStoreModel.ActivityStore.Seed` | src/LocalActivityPulseStore.cpp:509-553 | Only an idle generation-0 cursor is inserted, once |
| `ActivityStoreModel.ActivityStore.Replace` | src/LocalActivityPulseStore.cpp:555-603 | The swap happens if and only if the transition is legal and the row is the expected one |
| `ActivityStoreModel.ActivityAccounting` | src/LocalActivityPulseStore.cpp:294-423 | Every run: revision 2g-1 while preparing, 2g otherwise, and the g-th capture is no earlier than anchor + g * 86,400,000 ms |
| `ActivityStoreModel.ActivityEnds` | src/LocalActivityPulseStore.cpp:294-423 | Every run of the service accepts at most six replacements |
| `ActivityStoreModel.StoreNeverEnds` | src/LocalActivityPulseStore.cpp:413-416 | The store alone would let a blocked cursor be replaced at every revision but the last |
| `ActivityStoreModel.OnePreparationPerGeneration` | src/LocalActivityPulseStore.cpp:353-423 | A generation is prepared at most once |
| `ActivityAgentModel.AddCadence` | src/LocalActivityPulse.cpp:46-55 | The next deadline is one day later, and is refused exactly when it would overflow |
| `ActivityAgentModel.ActivityAgent.Seed` | src/LocalActivityPulse.cpp:311-357 | The pulse is seeded one day after its clock reading from a canonical checkpoint, or not at all |
| `ActivityAgentModel.ActivityAgent.Observe` | src/LocalActivityPulse.cpp:359-563 | The exact effect of one observation under every crash point, including admission and recovery in one call |
| `ActivityAgentModel.ActivityAgent.PerformTask` | src/LocalActivityPulse.cpp:470-541 | The one deterministic Task is found, submitted or refused, then run |
| `ActivityAgentModel.ActivityAgent.SettleCursor` | src/LocalActivityPulse.cpp:257-288 | Only a canonical success settles; the third generation becomes quiescent |
| `ActivityAgentModel.PreparingConverges` | src/LocalActivityPulse.cpp:444-560 | Every run: a preparing cursor is followed by a block or by the one settled cursor that it and its anchor determine |
| `ActivityConvergence.CallIsResumable` | src/LocalActivityPulse.cpp:444-560 | However a call is interrupted, it leaves no Task, an unfinished one or its canonical success, and plans the one settlement or nothing; an uninterrupted call plans the settlement |
| `ActivityConvergence.PatternStaysResumable` | src/LocalActivityPulse.cpp:444-560 | The same after any list of interrupted calls with lease recoveries between them |
| `ActivityConvergence.CrashesConverge` | src/LocalActivityPulse.cpp:444-560 | After any pattern of crashes a healthy call plans the very settlement that the crash-free call plans, while the evidence stores stand still |
| `ActivityConvergence.HealthyObserveSettles` | src/LocalActivityPulse.cpp:359-560 | In a run, a healthy observe over any table a crash can leave appends exactly that settlement and reports it |
| `ActivityAgentModel.OneObservationPerGeneration` | src/LocalActivityPulse.cpp:493-523 | No two submitted observation Tasks have the same generation |
| `ActivityAgentModel.AtMostThreeObservations` | src/LocalActivityPulse.cpp:493-523 | A whole run submits at most three observation Tasks |
| `ActivityAgentModel.ProjectionBindsObserve` | src/LocalActivityPulseSchedulerBridge.cpp:32-91 | Before an active deadline a call changes nothing; from it on the answer is never not-due or clock-rollback |
| `ActivityAgentModel.NoDeadlineMeansFinished` | src/LocalActivityPulseSchedulerBridge.cpp:32-91 | A valid cursor has no deadline exactly when it is finished, or settled so late that the next deadline overflows; then an observation blocks it |
| `ActivityAgentModel.Scheduler.Arm` | src/LocalActivityPulseSchedulerBridge.cpp:98-119 | After arming, an active cursor is never slept past; other cursors leave the scheduler alone |
| `IdentityPreimages.FieldIsReadBack` | src/LocalGooseDialogueResponder.cpp:107-119 | The first field of an encoding can be read back, whatever follows it |
| `IdentityPreimages.EncodeIsInjective` | src/LocalGooseDialogueResponder.cpp:107-119 | A list of fields can be read back from its encoding, without knowing its length or its kinds |
| `IdentityPreimages.IntentMaterial` | src/LocalGooseDialogueResponder.cpp:121-137 | The string grown for an intent is the encoding of its eleven identity fields |
| `IdentityPreimages.IntentMaterialIsUnique` | src/LocalGooseDialogueResponder.cpp:121-137 | Two intents share the string if and only if they agree in every identity field |
| `IdentityPreimages.DispositionMaterialIsUnique` | src/LocalGooseDialogueResponder.cpp:139-155 | Two dispositions share the string if and only if they agree in every identity field |
| `IdentityPreimages.GrantMaterialIsUnique` | src/LocalGooseDialogueResponderAuthority.cpp:74-91 | Two grants share the string if and only if they differ in nothing but when they were issued, for the same lifetime |
| `IdentityPreimages.DecisionMaterialIsUnique` | src/LocalGooseDialogueResponderAuthority.cpp:93-118 | Two decisions share the string if and only if they agree in every identity field |
| `IdentityPreimages.DomainsAreSeparate` | src/LocalGooseDialogueResponderAuthority.cpp:74-118 | No two kinds of identity share a string |
| `IdentityPreimages.LinesAreReadBack` | src/LocalContinuityObservation.cpp:228-255 | Lines without newlines can be read back from their join |
| `IdentityPreimages.StimulusMaterialIsUnique` | src/LocalGooseCycleStimulusStore.cpp:97-106 | The identity material of a stimulus determines its source, target revision and target generation |
| `IdentityPreimages.OpportunityMaterial` | src/LocalContinuityObservation.cpp:228-255 | The string grown line by line is the join of the nine identity lines |
| `IdentityPreimages.OpportunityMaterialIsUnique` | src/LocalContinuityObservation.cpp:228-255 | Two valid opportunities share the string if and only if they are equal |
| `Sha256.PaddingIsRecoverable` | src/CurrentCognitionCycle.cpp:151-155 | For every message below 2^61 bytes the padding is a whole number of 64-byte blocks from which the message is recovered |
| `Sha256.PadInPlace` | src/CurrentCognitionCycle.cpp:151-155 | The padding loops produce the padding of section 5.1.1 of FIPS 180-4 |
| `Sha256.FillSchedule` | src/CurrentCognitionCycle.cpp:157-171 | The schedule loops stay in bounds and fill the message schedule of section 6.2.2 of FIPS 180-4 |
| `Sha256.CompressBlock` | src/CurrentCognitionCycle.cpp:172-184 | The round loop over eight variables computes the 64 rounds and the addition to the hash value |
| `Sha256.Sha256Hex` | src/CurrentCognitionCycle.cpp:135-190 | The whole routine computes the recursively defined digest |
| `Sha256.Digest` | src/CurrentCognitionCycle.cpp:135-190 | A digest is always 64 lower-case hexadecimal characters |
| `MailboxModel.PendingLiveControl.Complete` | src/LiveControl.cpp:800-809 | The first completion wins |
| `MailboxModel.LiveControlMailbox.Submit` | src/LiveControl.cpp:818-828 | A request is queued, or answered at once when the mailbox has stopped |
| `MailboxModel.LiveControlMailbox.TakeAll` | src/LiveControl.cpp:830-840 | The whole queue in submission order; the queue is empty afterwards |
| `MailboxModel.LiveControlMailbox.Stop` | src/LiveControl.cpp:842-856 | The queue is taken over once and each of its requests answered, without overwriting a reply |
| `MailboxModel.EveryStateIsConsistent` | src/LiveControl.cpp:790-856 | Every interleaving: each request is in exactly one of four places, batches keep submission order, a stopped mailbox is empty |
| `MailboxModel.RepliesAreFinal` | src/LiveControl.cpp:800-809 | Every interleaving: a reply once set never changes, and a stopped mailbox stays stopped |
| `MailboxModel.RequestsAreConserved` | src/LiveControl.cpp:790-856 | Every interleaving: the four places together hold as many requests as were submitted |

## Left out

- CycleAgentModel.CycleAgent.Step: the answers to a foreign writer between its read and its swap, which one owner rules out; the texts of block reasons are a datatype.
- PulseAgentModel.PulseAgent.Observe: the text of the frozen context and the recorder's own steps; the recorder may change the Task table in any way the Runtime allows, and records the pulse's own document at the frozen observation time, because nobody else submits that document.
- PulseAgentModel.PulseAgent.ExecuteProvider: Action statuses and effect markers after the Action exists; the provider's result is an input.
- PulseAgentModel.PulseAgent.ServiceStep: when to wake next (`plan_autonomous_cognition_pulse_service`), which has no durable effect and would only add easy members.
- ChatSessionModel.ChatSession.SendTurn: the text format of replies; a reply carries the fields the client checks, and the sleep between polls is not modelled.
- CompletionFeedModel.CompletionFeed.Append: the branches for a cursor that is missing or behind an existing event, which cannot arise because both are written in one transaction.
- DialogueServerModel.DialogueServer.Submit: the answer to a foreign writer between its read and its swap.
- ActivityConvergence.CrashesConverge: what the Runtime does with a Task whose attempts are used up; the pattern only takes back leases of Tasks that may run again.
- IdentityPreimages.IntentMaterial: the same appends for dispositions, grants and decisions are given as field lists only.
- MailboxModel.EveryStateIsConsistent: condition variables and waiting; a wait returns the reply that was set.
- Byte sizes of inputs and prompts (16 KiB, 24 KiB, 28 KiB and 48 KiB bounds), JSON and UTF-8 checks: a document is the record it denotes.
- The hexadecimal shape of Task ids: ids are constructors, and the store checks on their prefix become checks on the constructor.
- SQLite, file modes and schema creation, except the copy a schema 1 thread sidecar goes through; a transaction is one step.
- The dispatch table of live control, the socket server, curl, Goose and provider transports: foreign calls.
- The responder's authority service and its stores, explicit wake, governance and checkpoint handlers: single-branch validation or stores that are not part of this model.
