/** The Gaudere work Runtime and its durable Task table, by contract: ids and idempotency keys are unique,
    definitions never change, a terminal row is frozen and attempts are only ever counted up. */
module Work {
  import opened Base

  datatype Status = Pending | Running | CancelRequested | Succeeded | Failed | Cancelled | ManualReview

  predicate Terminal(s: Status) {
    s in {Succeeded, Failed, Cancelled, ManualReview}
  }

  /** A row; `definition` is its kind, content type, input and limits together. */
  datatype WorkTask<I, K, D, R> = WorkTask(
    id: I, key: K, definition: D, status: Status, attempts: nat, cancelReason: string, result: Option<R>)

  predicate SameDefinition<I(==), K(==), D(==), R>(a: WorkTask<I, K, D, R>, b: WorkTask<I, K, D, R>) {
    a.id == b.id && a.key == b.key && a.definition == b.definition
  }

  /** Rows by id plus the unique index on idempotency keys. */
  datatype WorkStore<I(==), K(==), D, R> = WorkStore(rows: map<I, WorkTask<I, K, D, R>>, keys: map<K, I>)

  ghost predicate WellFormedStore<I, K, D, R>(s: WorkStore<I, K, D, R>) {
    && (forall id :: id in s.rows ==> s.rows[id].id == id && s.rows[id].key in s.keys && s.keys[s.rows[id].key] == id)
    && (forall k :: k in s.keys ==> s.keys[k] in s.rows && s.rows[s.keys[k]].key == k)
  }

  function Find<I, K, D, R>(s: WorkStore<I, K, D, R>, id: I): Option<WorkTask<I, K, D, R>> {
    if id in s.rows then Some(s.rows[id]) else None
  }

  function FindByKey<I, K, D, R>(s: WorkStore<I, K, D, R>, k: K): Option<WorkTask<I, K, D, R>> {
    if k in s.keys && s.keys[k] in s.rows then Some(s.rows[s.keys[k]]) else None
  }

  function Insert<I, K, D, R>(s: WorkStore<I, K, D, R>, t: WorkTask<I, K, D, R>): WorkStore<I, K, D, R> {
    WorkStore(s.rows[t.id := t], s.keys[t.key := t.id])
  }

  function Update<I, K, D, R>(s: WorkStore<I, K, D, R>, t: WorkTask<I, K, D, R>): WorkStore<I, K, D, R> {
    s.(rows := s.rows[t.id := t])
  }

  /** What one row may go through: its definition stays, a terminal row stays, attempts are counted up. */
  predicate RowEvolves<I(==), K(==), D(==), R(==)>(t: WorkTask<I, K, D, R>, t': WorkTask<I, K, D, R>) {
    SameDefinition(t, t') && t.attempts <= t'.attempts && (Terminal(t.status) ==> t' == t)
  }

  /** What anyone may do to the table between two looks at it: add Tasks and move unfinished ones. */
  ghost predicate Evolves<I, K, D, R>(s: WorkStore<I, K, D, R>, s': WorkStore<I, K, D, R>) {
    forall id :: id in s.rows ==> id in s'.rows && RowEvolves(s.rows[id], s'.rows[id])
  }

  lemma EvolvesReflexive<I, K, D, R>(s: WorkStore<I, K, D, R>)
    ensures Evolves(s, s)
  {
  }

  lemma InsertEvolves<I, K, D, R>(s: WorkStore<I, K, D, R>, t: WorkTask<I, K, D, R>)
    requires WellFormedStore(s) && t.id !in s.rows && FindByKey(s, t.key).None?
    ensures WellFormedStore(Insert(s, t)) && Evolves(s, Insert(s, t))
  {
  }

  lemma UpdateEvolves<I, K, D, R>(s: WorkStore<I, K, D, R>, t: WorkTask<I, K, D, R>)
    requires WellFormedStore(s) && t.id in s.rows && RowEvolves(s.rows[t.id], t)
    ensures WellFormedStore(Update(s, t)) && Evolves(s, Update(s, t))
  {
  }
}
