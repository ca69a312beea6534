/** Idempotent creation over whole runs. */
module Creation {
  import opened Basics
  import opened Redaction
  import opened ChildModels
  import opened Tables
  import opened Protocol
  import opened Invariants
  import opened Growth
  import opened Steps
  import opened Transactions
  import opened Runs

  /** `key` stands for the work of `t`: its row holds the redacted creation payload. */
  ghost predicate KeyedTo(r: Redactor, db: Db, key: string, id: Id, t: ChildTask) {
    && key in db.creationKeys && db.creationKeys[key] == id && id in db.tasks
    && CreationPayload(db.tasks[id].snapshot) == RedactPayload(r, CreationPayload(t))
  }

  lemma NewKeyed(r: Redactor, db: Db, t: ChildTask, actor: Name, key: string)
    requires t.status == Pending && StoreNew(db, r, t, actor, Some(key)).out.Ok?
    ensures var c := StoreNew(db, r, t, actor, Some(key)); KeyedTo(r, c.db, key, c.out.value.id, t)
  {
    hide StoreNew, RedactPayload, InitialState, ValidateLineage, FirstMissing;
    StoreNewUnfold(db, r, t, actor, Some(key));
    InitialStateFacts(db, t);
    RedactTaskPayload(r, InitialState(db, t).value);
    hide RedactTask;
  }

  lemma ReplayUnfold(r: Redactor, db: Db, t: ChildTask, actor: Name, key: string)
    requires key in db.creationKeys && db.creationKeys[key] in db.tasks && t.revision == 0 && t.status == Pending
    ensures var id := db.creationKeys[key];
      Protocol.Create(db, r, t, actor, Some(key)) ==
        if CreationPayload(TaskAt(db, id)) == RedactPayload(r, CreationPayload(t)) then Txn(db, Ok(TaskAt(db, id)))
        else Txn(db, Err(WorkConflict))
  {
    hide StoreNew, RedactPayload;
    RedactTaskPayload(r, t);
    hide RedactTask;
  }

  lemma KeysHaveTasks(r: Redactor, db: Db, key: string)
    requires Good(r, db) && key in db.creationKeys
    ensures db.creationKeys[key] in db.tasks
  {
    hide RowAgrees, FlagAgrees, Founded, DependencyOrder, AttemptsAgree, HistoryDense, OutboxAgrees, ParallelismBounded, Redacted, NoDuplicates;
  }

  lemma TaskPayload(r: Redactor, db: Db, id: Id)
    requires Good(r, db) && id in db.tasks
    ensures CreationPayload(TaskAt(db, id)) == CreationPayload(db.tasks[id].snapshot)
  {
    hide Good;
    RowFacts(r, db, id);
  }

  lemma CreatePasses(r: Redactor, db: Db, t: ChildTask, actor: Name, key: string)
    requires Protocol.Create(db, r, t, actor, Some(key)).out.Ok?
    ensures t.revision == 0 && t.status == Pending
    ensures key !in db.creationKeys ==> Protocol.Create(db, r, t, actor, Some(key)) == StoreNew(db, r, t, actor, Some(key))
  {
    hide StoreNew, RedactTask;
  }

  /** A creation that succeeds under a key ties the key to its work. */
  lemma CreateKeys(r: Redactor, db: Db, t: ChildTask, actor: Name, key: string)
    requires Good(r, db) && Protocol.Create(db, r, t, actor, Some(key)).out.Ok?
    ensures var c := Protocol.Create(db, r, t, actor, Some(key)); KeyedTo(r, c.db, key, c.out.value.id, t)
  {
    hide Good, StoreNew, RedactPayload, Protocol.Create, RowAgrees;
    CreatePasses(r, db, t, actor, key);
    if key in db.creationKeys {
      KeysHaveTasks(r, db, key);
      ReplayUnfold(r, db, t, actor, key);
      TaskPayload(r, db, db.creationKeys[key]);
    } else {
      NewKeyed(r, db, t, actor, key);
    }
  }

  lemma KeyStays(r: Redactor, db: Db, db': Db, key: string, id: Id, t: ChildTask)
    requires KeyedTo(r, db, key, id, t) && LaterTasks(db, db')
    ensures KeyedTo(r, db', key, id, t)
  {
    hide RedactPayload;
    assert LaterRow(db.tasks[id], db'.tasks[id]);
  }

  lemma KeyedAnswers(r: Redactor, db: Db, key: string, id: Id, t: ChildTask, u: ChildTask, actor: Name)
    requires Good(r, db) && KeyedTo(r, db, key, id, t) && u.revision == 0 && u.status == Pending
    ensures Protocol.Create(db, r, u, actor, Some(key)) ==
      if RedactPayload(r, CreationPayload(u)) == RedactPayload(r, CreationPayload(t)) then Txn(db, Ok(TaskAt(db, id)))
      else Txn(db, Err(WorkConflict))
  {
    hide Good, RedactPayload, Protocol.Create;
    ReplayUnfold(r, db, u, actor, key);
    TaskPayload(r, db, id);
  }

  /** Once a creation succeeded under a key, the same work under that key answers with
      the current task in every later state and changes nothing, and any other work
      always conflicts. */
  lemma CreationIsIdempotent(r: Redactor, db: Db, t: ChildTask, actor: Name, key: string, later: Db, u: ChildTask, replayer: Name)
    requires Idempotent(r) && Good(r, db) && FreshTask(t)
    requires Protocol.Create(db, r, t, actor, Some(key)).out.Ok?
    requires LeadsTo(r, Protocol.Create(db, r, t, actor, Some(key)).db, later)
    requires u.revision == 0 && u.status == Pending
    ensures var id := Protocol.Create(db, r, t, actor, Some(key)).out.value.id;
      && id in later.tasks
      && Protocol.Create(later, r, u, replayer, Some(key)) ==
           if RedactPayload(r, CreationPayload(u)) == RedactPayload(r, CreationPayload(t)) then Txn(later, Ok(TaskAt(later, id)))
           else Txn(later, Err(WorkConflict))
  {
    var c := Protocol.Create(db, r, t, actor, Some(key));
    hide *;
    CreateSafe(r, db, t, actor, Some(key));
    SafeGood(r, db, c.db);
    CreateKeys(r, db, t, actor, key);
    LeadsToTasks(r, c.db, later);
    KeyStays(r, c.db, later, key, c.out.value.id, t);
    KeyedRow(r, later, key, c.out.value.id, t);
    KeyedAnswers(r, later, key, c.out.value.id, t, u, replayer);
  }

  lemma KeyedRow(r: Redactor, db: Db, key: string, id: Id, t: ChildTask)
    requires KeyedTo(r, db, key, id, t)
    ensures id in db.tasks
  {}

  lemma LeadsToTasks(r: Redactor, db: Db, db': Db)
    requires Idempotent(r) && Good(r, db) && LeadsTo(r, db, db')
    ensures Good(r, db') && LaterTasks(db, db')
  {
    hide Good, LeadsTo, Idempotent, LaterTasks, LaterAttempts, LaterOutbox;
    LeadsToSafe(r, db, db');
  }
}
