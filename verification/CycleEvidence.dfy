/** What the cycle's services read before they write: predecessor evidence, the exact Task of a cursor, and the
    lineage those Tasks carry (src/LocalGooseCycleService.cpp, src/LocalGooseCycleStimulusService.cpp). */
module CycleEvidence {
  import opened Base
  import opened LocalGooseCycle
  import opened Work
  import opened CycleStoreModel

  /** `canonical_predecessor`. */
  predicate CanonicalPredecessor(c: Cursor, tasks: TaskStore) {
    && c.generation >= 2 && c.predTask.Some? && c.predHash.Some?
    && var p := Find(tasks, c.predTask.value);
    && p.Some? && CanonicalCycleSuccess(p.value)
    && ResultHash(p.value) == c.predHash.value
    && p.value.definition.input.generation + 1 == c.generation
    && p.value.definition.input.anchorTask == c.anchorTask
    && p.value.definition.input.anchorHash == c.anchorHash
  }

  /** `exact_cycle_task`; `None` covers both a missing piece of evidence and a builder that throws. */
  function Derive(c: Cursor, tasks: TaskStore, model: string): (r: Option<Task>) {
    if c.due.None? || c.captured.None? then None
    else
      var anchor := Find(tasks, c.anchorTask);
      if anchor.None? || !CanonicalObservationSuccess(anchor.value) || ResultHash(anchor.value) != c.anchorHash then None
      else if c.generation < 2 then
        MakeCycleTask(anchor.value, model, c.generation, c.due.value, c.captured.value, None)
      else if c.predTask.None? || c.predHash.None? then None
      else
        var p := Find(tasks, c.predTask.value);
        if p.None? || !CanonicalCycleSuccess(p.value) || ResultHash(p.value) != c.predHash.value then None
        else MakeCycleTask(anchor.value, model, c.generation, c.due.value, c.captured.value, p)
  }

  /** A derivation names the cursor's own opportunity and its evidence, and is itself a canonical cycle Task. */
  lemma DerivedTask(c: Cursor, tasks: TaskStore, model: string)
    requires WellFormedStore(tasks) && Derive(c, tasks, model).Some?
    ensures var t := Derive(c, tasks, model).value;
      && EligibleCycleTask(t) && t.status == Pending && t.result.None?
      && t.definition.input.generation == c.generation && t.definition.input.model == model
      && t.definition.input.anchorTask == c.anchorTask && t.definition.input.anchorHash == c.anchorHash
      && c.due == Some(t.definition.input.due) && c.captured == Some(t.definition.input.captured)
      && (c.generation >= 2 ==>
            && CanonicalPredecessor(c, tasks)
            && tasks.rows[c.predTask.value].definition.input.model == model
            && t.definition.input.predecessor.Some?
            && c.predTask == Some(t.definition.input.predecessor.value.taskId)
            && c.predHash == Some(t.definition.input.predecessor.value.resultHash))
  {
    var anchor := Find(tasks, c.anchorTask).value;
    var p := if c.generation < 2 then None else Find(tasks, c.predTask.value);
    MakeThenInspect(anchor, model, c.generation, c.due.value, c.captured.value, p);
  }

  /** Crash determinism: once a cursor derives a Task, every later derivation, whatever happened to the Task
      table in between, gives the same Task exactly when the model is the same. */
  lemma DeriveIsStable(c: Cursor, tasks: TaskStore, tasks': TaskStore, model: string, model': string)
    requires WellFormedStore(tasks) && WellFormedStore(tasks') && Evolves(tasks, tasks')
    requires Derive(c, tasks, model).Some?
    ensures var later := Derive(c, tasks', model');
      (later.Some? && later.value.id == Derive(c, tasks, model).value.id) <==> model' == model
    ensures Derive(c, tasks', model) == Derive(c, tasks, model)
  {
    DerivedTask(c, tasks, model);
    if Derive(c, tasks', model').Some? {
      DerivedTask(c, tasks', model');
    }
    assert c.anchorTask in tasks.rows;
  }

  /** Following predecessor evidence from (id, hash): succeeded Tasks of generations gen, gen - 1, ..., 1, all
      with one anchor and one model, each naming the next by id and result hash. */
  ghost predicate Lineage(tasks: TaskStore, id: TaskId, hash: Digest, gen: nat, anchor: TaskId, anchorHash: Digest, model: string)
    decreases gen
  {
    && gen >= 1 && id in tasks.rows
    && var t := tasks.rows[id];
    && CanonicalCycleSuccess(t) && ResultHash(t) == hash
    && t.definition.input.generation == gen
    && t.definition.input.anchorTask == anchor && t.definition.input.anchorHash == anchorHash
    && t.definition.input.model == model
    && (gen >= 2 ==>
          && t.definition.input.predecessor.Some?
          && var p := t.definition.input.predecessor.value;
          Lineage(tasks, p.taskId, p.resultHash, gen - 1, anchor, anchorHash, model))
  }

  /** A lineage is frozen: terminal Tasks never change, so nothing anyone does can break it. */
  lemma {:induction false} LineageIsStable(tasks: TaskStore, tasks': TaskStore, id: TaskId, hash: Digest, gen: nat,
                                           anchor: TaskId, anchorHash: Digest, model: string)
    requires Evolves(tasks, tasks') && Lineage(tasks, id, hash, gen, anchor, anchorHash, model)
    ensures Lineage(tasks', id, hash, gen, anchor, anchorHash, model)
    decreases gen
  {
    if gen >= 2 {
      var p := tasks.rows[id].definition.input.predecessor.value;
      LineageIsStable(tasks, tasks', p.taskId, p.resultHash, gen - 1, anchor, anchorHash, model);
    }
  }

  /** `newer` names `older` as its predecessor, by id and by result hash. */
  predicate Linked(newer: Task, older: Task) {
    && CanonicalCycleSuccess(newer) && CanonicalCycleSuccess(older)
    && newer.definition.input.predecessor.Some?
    && newer.definition.input.predecessor.value.taskId == older.id
    && newer.definition.input.predecessor.value.resultHash == ResultHash(older)
  }

  /** The chain spelled out: exactly `gen` Tasks, newest first, linked by id and by result hash. */
  lemma {:induction false} LineageListed(tasks: TaskStore, id: TaskId, hash: Digest, gen: nat,
                                         anchor: TaskId, anchorHash: Digest, model: string) returns (chain: seq<Task>)
    requires WellFormedStore(tasks) && Lineage(tasks, id, hash, gen, anchor, anchorHash, model)
    ensures |chain| == gen && chain[0].id == id && chain[0].result.Some? && ResultHash(chain[0]) == hash
    ensures forall k :: 0 <= k < gen ==>
      && Find(tasks, chain[k].id) == Some(chain[k]) && CanonicalCycleSuccess(chain[k])
      && chain[k].definition.input.generation == gen - k
      && chain[k].definition.input.anchorTask == anchor && chain[k].definition.input.anchorHash == anchorHash
      && chain[k].definition.input.model == model
    ensures forall k :: 0 <= k < gen - 1 ==> Linked(chain[k], chain[k + 1])
    decreases gen
  {
    var t := tasks.rows[id];
    if gen == 1 {
      chain := [t];
    } else {
      var p := t.definition.input.predecessor.value;
      var rest := LineageListed(tasks, p.taskId, p.resultHash, gen - 1, anchor, anchorHash, model);
      chain := [t] + rest;
    }
  }

  /** What a cursor of generation 2 or later always has behind it. */
  ghost predicate HasLineage(c: Cursor, tasks: TaskStore) {
    c.generation >= 2 ==> exists model :: CursorLineage(c, tasks, model)
  }

  ghost predicate CursorLineage(c: Cursor, tasks: TaskStore, model: string) {
    && c.generation >= 2 && c.predTask.Some? && c.predHash.Some?
    && Lineage(tasks, c.predTask.value, c.predHash.value, c.generation - 1, c.anchorTask, c.anchorHash, model)
  }

  lemma HasLineageIsStable(c: Cursor, tasks: TaskStore, tasks': TaskStore)
    requires Evolves(tasks, tasks') && HasLineage(c, tasks)
    ensures HasLineage(c, tasks')
  {
    if c.generation >= 2 {
      var model :| CursorLineage(c, tasks, model);
      LineageIsStable(tasks, tasks', c.predTask.value, c.predHash.value, c.generation - 1, c.anchorTask, c.anchorHash, model);
      assert CursorLineage(c, tasks', model);
    }
  }

  ghost predicate NamedUnder(c: Cursor, tasks: TaskStore, model: string) {
    Derive(c, tasks, model).Some? && Some(Derive(c, tasks, model).value.id) == c.currentTask
  }

  /** A prepared cursor names the Task that its own evidence derives. */
  ghost predicate NamesItsTask(c: Cursor, tasks: TaskStore) {
    c.state.Prepared? ==> exists model :: NamedUnder(c, tasks, model)
  }

  /** What every committed cursor has in the Task table. */
  ghost predicate Rooted(c: Cursor, tasks: TaskStore) {
    HasLineage(c, tasks) && NamesItsTask(c, tasks)
  }

  lemma RootedIsStable(c: Cursor, tasks: TaskStore, tasks': TaskStore)
    requires WellFormedStore(tasks) && WellFormedStore(tasks') && Evolves(tasks, tasks') && Rooted(c, tasks)
    ensures Rooted(c, tasks')
  {
    HasLineageIsStable(c, tasks, tasks');
    if c.state.Prepared? {
      var model :| NamedUnder(c, tasks, model);
      DeriveIsStable(c, tasks, tasks', model, model);
      assert NamedUnder(c, tasks', model);
    }
  }

  /** A lineage makes the predecessor canonical, which is what both services check before they act on it. */
  lemma LineageMeansCanonicalPredecessor(c: Cursor, tasks: TaskStore)
    requires HasLineage(c, tasks) && c.generation >= 2
    ensures CanonicalPredecessor(c, tasks)
  {
  }

  /** Settlement extends the lineage by the Task that just succeeded, under that Task's model. */
  lemma SettlementExtendsLineage(c: Cursor, tasks: TaskStore, model: string, t: Task, settled: Cursor)
    requires WellFormedStore(tasks) && HasLineage(c, tasks)
    requires Derive(c, tasks, model).Some? && SameDefinition(t, Derive(c, tasks, model).value)
    requires Find(tasks, t.id) == Some(t) && CanonicalCycleSuccess(t)
    requires settled.generation == c.generation + 1 && settled.predTask == Some(t.id) && settled.predHash == Some(ResultHash(t))
    requires settled.anchorTask == c.anchorTask && settled.anchorHash == c.anchorHash
    ensures HasLineage(settled, tasks)
  {
    DerivedTask(c, tasks, model);
    if c.generation >= 2 {
      var m :| CursorLineage(c, tasks, m);
      assert m == model;
    }
    assert CursorLineage(settled, tasks, model);
  }
}
