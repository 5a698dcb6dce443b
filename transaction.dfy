/**
 * Transactions: begin, commit and roll back through the engine of the
 * database's builder, roll back automatically on dispose, and the three
 * mutations that require an active transaction.
 */
module Transactions {
  import opened Vcdb
  import opened Host
  import Databases
  import Datastores
  import Indexes

  class Transaction {
    /** Whether `hdr.dispose` points at the transaction disposer. */
    var disposable: bool
    var inTransaction: bool
    /** The database the transaction runs against. */
    var database: Databases.Database?

    /** Storage for a transaction record, before `Begin`. */
    constructor ()
      ensures !disposable && !inTransaction && database == null
    {
      disposable := false;
      inTransaction := false;
      database := null;
    }

    /** `transaction->database->builder` can be followed to an engine. */
    predicate Bound()
      reads this, database
    {
      database != null && database.builder != null
    }

    /** `transaction->database->builder->engine`. */
    function Engine(): Ptr
      reads this, database, if database != null then {database.builder} else {}
      requires Bound()
    {
      database.builder.engine
    }

    /**
     * `vcdb_transaction_dispose`: an active transaction is rolled back and
     * then marked inactive whatever the rollback answers; an inactive one
     * is left alone.
     */
    method Dispose(host: Host, rollbackStatus: int)
      requires inTransaction ==> Bound()
      modifies this, host
      ensures old(inTransaction) ==> host.trace == old(host.trace) + [TransactionRollback(old(Engine()), this)]
      ensures !old(inTransaction) ==> host.trace == old(host.trace)
      ensures !inTransaction && database == old(database) && disposable == old(disposable)
    {
      if inTransaction {
        var _ := Rollback(host, this, rollbackStatus);
        inTransaction := false;
      }
    }
  }

  /**
   * `vcdb_transaction_begin`: bind the transaction to the database, then
   * ask the engine; the transaction is active exactly when the engine
   * answers SUCCESS, and the engine's status is returned.
   */
  method Begin(host: Host, t: Transaction?, database: Databases.Database?, engineStatus: int)
    returns (status: int)
    requires t != null && database != null ==> database.builder != null
    modifies host, t
    ensures t == null || database == null ==>
      status == INVALID_PARAMETER && host.trace == old(host.trace) && (t != null ==> unchanged(t))
    ensures t != null && database != null ==>
      && status == engineStatus
      && host.trace == old(host.trace) + [TransactionBegin(database.builder.engine, t, database)]
      && t.disposable && t.database == database
      && t.inTransaction == (status == SUCCESS)
  {
    if t == null || database == null {
      return INVALID_PARAMETER;
    }

    t.disposable := true;
    t.database := database;

    host.Record(TransactionBegin(database.builder.engine, t, database));
    status := engineStatus;
    t.inTransaction := status == SUCCESS;
  }

  /**
   * `vcdb_transaction_commit`: ask the engine whether or not the
   * transaction is active; it becomes inactive only on SUCCESS.
   */
  method Commit(host: Host, t: Transaction?, engineStatus: int)
    returns (status: int)
    requires t != null ==> t.Bound()
    modifies host, t
    ensures t == null ==> status == INVALID_PARAMETER && host.trace == old(host.trace)
    ensures t != null ==>
      && status == engineStatus
      && host.trace == old(host.trace) + [TransactionCommit(old(t.Engine()), t)]
      && t.inTransaction == (old(t.inTransaction) && status != SUCCESS)
      && t.database == old(t.database) && t.disposable == old(t.disposable)
  {
    if t == null {
      return INVALID_PARAMETER;
    }

    host.Record(TransactionCommit(t.Engine(), t));
    status := engineStatus;
    if status == SUCCESS {
      t.inTransaction := false;
    }
  }

  /**
   * `vcdb_transaction_rollback`: ask the engine whether or not the
   * transaction is active; it becomes inactive only on SUCCESS.
   */
  method Rollback(host: Host, t: Transaction?, engineStatus: int)
    returns (status: int)
    requires t != null ==> t.Bound()
    modifies host, t
    ensures t == null ==> status == INVALID_PARAMETER && host.trace == old(host.trace)
    ensures t != null ==>
      && status == engineStatus
      && host.trace == old(host.trace) + [TransactionRollback(old(t.Engine()), t)]
      && t.inTransaction == (old(t.inTransaction) && status != SUCCESS)
      && t.database == old(t.database) && t.disposable == old(t.disposable)
  {
    if t == null {
      return INVALID_PARAMETER;
    }

    host.Record(TransactionRollback(t.Engine(), t));
    status := engineStatus;
    if status == SUCCESS {
      t.inTransaction := false;
    }
  }

  // ---------------------------------------------------------------------
  // vcdb_database_datastore_put
  // ---------------------------------------------------------------------

  /**
   * The inputs of a datastore_put as the layer sees them: the transaction
   * and whether it is active, the datastore and its two callbacks it uses,
   * the engine behind the transaction, and the caller's value and
   * `*value_size` (`None` when the pointer is NULL).
   */
  datatype PutRequest = PutRequest(
    transaction: object?, inTransaction: bool, engine: Ptr,
    datastore: object?, keyGetter: Ptr, valueWriter: Ptr,
    value: Ptr, valueSize: Option<nat>)

  /** The result and the calls made, in order. */
  datatype PutOutcome = PutOutcome(status: int, calls: seq<Event>)

  /** The request a datastore_put on these records and arguments makes. */
  function PutRequestOf(t: Transaction?, datastore: Datastores.Datastore?, value: Ptr, valueSize: Option<nat>)
    : PutRequest
    reads t, datastore
    reads if t != null then {t.database} else {}
    reads if t != null && t.database != null then {t.database.builder} else {}
  {
    PutRequest(
      t, t != null && t.inTransaction,
      if t != null && t.Bound() then t.Engine() else Null,
      datastore,
      if datastore != null then datastore.keyGetter else Null,
      if datastore != null then datastore.valueWriter else Null,
      value, valueSize)
  }

  /** The parameter check: every pointer non-null and a non-zero size. */
  predicate PutParametersValid(q: PutRequest)
  {
    && q.transaction != null && q.datastore != null && q.value != Null
    && q.valueSize.Some? && q.valueSize.value != 0
  }

  /** The key getter and the serialisation are reached: valid parameters inside a transaction. */
  predicate PutAdmitted(q: PutRequest)
  {
    PutParametersValid(q) && q.inTransaction
  }

  /** The engine's put is reached: the value was serialised into the scratch buffer. */
  predicate PutReachesEngine(q: PutRequest, p: Replies)
  {
    PutAdmitted(q) && p.scratchOk && Succeeds(p)
  }

  /**
   * The reference behaviour of datastore_put: parameter check, transaction
   * check, the key getter with a `VCDB_MAX_KEY_SIZE` buffer, a 1024-byte
   * serialisation buffer, the writer, one grow and rewrite on
   * WOULD_TRUNCATE, the engine's put on success, and the buffer freed on
   * every path after malloc.  Here `p.first`/`p.second` are the writer's
   * replies and `p.lastStatus` is the engine's.
   */
  function DatastorePutSpec(q: PutRequest, p: Replies): PutOutcome
  {
    if !PutParametersValid(q) then
      PutOutcome(INVALID_PARAMETER, [])
    else if !q.inTransaction then
      PutOutcome(BAD_TRANSACTION, [])
    else if !p.scratchOk then
      PutOutcome(BAD_MEMORY_ALLOCATION, [GetKey(q), Malloc(SCRATCH_BUFFER_SIZE, false)])
    else
      PutOutcome(AfterFirstWrite(q, p).0, FirstWrite(q) + AfterFirstWrite(q, p).1 + [Free])
  }

  /** The key getter's call: the caller's value and a `VCDB_MAX_KEY_SIZE` key buffer. */
  function GetKey(q: PutRequest): Event
  {
    KeyGetter(q.keyGetter, q.value, MAX_KEY_SIZE)
  }

  /** The calls up to the first write into a freshly allocated buffer. */
  function FirstWrite(q: PutRequest): seq<Event>
  {
    [GetKey(q), Malloc(SCRATCH_BUFFER_SIZE, true), ValueWriter(q.valueWriter, q.value, SCRATCH_BUFFER_SIZE)]
  }

  /**
   * The status and the calls after the first write: a grow and a rewrite
   * on WOULD_TRUNCATE, and the engine's put once the value is serialised.
   */
  function AfterFirstWrite(q: PutRequest, p: Replies): (int, seq<Event>)
    requires PutAdmitted(q)
  {
    var rewrite := ValueWriter(q.valueWriter, q.value, p.first.size);
    var put := Event.DatastorePut(q.engine, q.transaction as object, q.datastore as object, FinalSize(p));
    if p.first.status == WOULD_TRUNCATE then
      if !p.growOk then
        (BAD_MEMORY_ALLOCATION, [Realloc(p.first.size, false)])
      else if p.second.status != SUCCESS then
        (p.second.status, [Realloc(p.first.size, true), rewrite])
      else
        (p.lastStatus, [Realloc(p.first.size, true), rewrite, put])
    else if p.first.status != SUCCESS then
      (p.first.status, [])
    else
      (p.lastStatus, [put])
  }

  /** A projection of the trace of an admitted put whose buffer was allocated, piece by piece. */
  lemma SelectPut(q: PutRequest, p: Replies, f: Event -> seq<nat>)
    requires PutAdmitted(q) && p.scratchOk
    ensures Select(DatastorePutSpec(q, p).calls, f) ==
      f(GetKey(q)) + (f(Malloc(SCRATCH_BUFFER_SIZE, true))
      + f(ValueWriter(q.valueWriter, q.value, SCRATCH_BUFFER_SIZE)))
      + (At(AfterFirstWrite(q, p).1, 0, f) + (At(AfterFirstWrite(q, p).1, 1, f) + At(AfterFirstWrite(q, p).1, 2, f)))
      + f(Free)
  {
    SelectFramed(FirstWrite(q), AfterFirstWrite(q, p).1, Free, f);
  }

  /** `vcdb_database_datastore_put`. */
  method DatastorePut(host: Host, t: Transaction?, datastore: Datastores.Datastore?,
                      value: Ptr, valueSize: Option<nat>, replies: Replies)
    returns (status: int)
    requires PutReachesEngine(PutRequestOf(t, datastore, value, valueSize), replies) ==> t.Bound()
    modifies host
    ensures var r := DatastorePutSpec(PutRequestOf(t, datastore, value, valueSize), replies);
      status == r.status && host.trace == old(host.trace) + r.calls
  {
    if t == null || datastore == null || value == Null || valueSize == None || valueSize.value == 0 {
      return INVALID_PARAMETER;
    }

    if !t.inTransaction {
      return BAD_TRANSACTION;
    }

    // the key is extracted into a local buffer and not used afterwards
    host.Record(KeyGetter(datastore.keyGetter, value, MAX_KEY_SIZE));

    var allocationSize := SCRATCH_BUFFER_SIZE;
    host.Record(Malloc(allocationSize, replies.scratchOk));
    if !replies.scratchOk {
      return BAD_MEMORY_ALLOCATION;
    }

    host.Record(ValueWriter(datastore.valueWriter, value, allocationSize));
    status, allocationSize := replies.first.status, replies.first.size;

    var serialised := status == SUCCESS;
    if status == WOULD_TRUNCATE {
      host.Record(Realloc(allocationSize, replies.growOk));
      if !replies.growOk {
        status := BAD_MEMORY_ALLOCATION;
      } else {
        host.Record(ValueWriter(datastore.valueWriter, value, allocationSize));
        status, allocationSize := replies.second.status, replies.second.size;
        serialised := status == SUCCESS;
      }
    }

    if serialised {
      host.Record(Event.DatastorePut(t.Engine(), t, datastore, allocationSize));
      status := replies.lastStatus;
    }

    host.Record(Free);
  }

  /** The buffer size of every writer call. */
  function WriterBufferSize(e: Event): seq<nat>
  {
    if e.ValueWriter? then [e.bufferSize] else []
  }

  /** The serialised size handed to every engine put. */
  function PutInput(e: Event): seq<nat>
  {
    if e.DatastorePut? then [e.serialSize] else []
  }

  /**
   * The parameter check comes first and the transaction check second;
   * either failure makes no call at all.  Otherwise the key getter is
   * called exactly once, with a `VCDB_MAX_KEY_SIZE` buffer.
   */
  lemma DatastorePutGuards(q: PutRequest, p: Replies)
    ensures !PutParametersValid(q) ==>
      DatastorePutSpec(q, p).status == INVALID_PARAMETER && DatastorePutSpec(q, p).calls == []
    ensures PutParametersValid(q) && !q.inTransaction ==>
      DatastorePutSpec(q, p).status == BAD_TRANSACTION && DatastorePutSpec(q, p).calls == []
    ensures Select(DatastorePutSpec(q, p).calls, KeyExtraction) == if PutAdmitted(q) then [0] else []
    ensures PutAdmitted(q) ==> DatastorePutSpec(q, p).calls[0] == KeyGetter(q.keyGetter, q.value, MAX_KEY_SIZE)
  {
    if PutAdmitted(q) && p.scratchOk {
      SelectPut(q, p, KeyExtraction);
    } else {
      SelectShort(DatastorePutSpec(q, p).calls, KeyExtraction);
    }
  }

  /**
   * The writer is called at most twice: first with the 1024-byte buffer,
   * and again, with exactly the size it asked for, only after it answered
   * WOULD_TRUNCATE and the grow succeeded.
   */
  lemma DatastorePutWriter(q: PutRequest, p: Replies)
    ensures Select(DatastorePutSpec(q, p).calls, WriterBufferSize) ==
      if !PutAdmitted(q) || !p.scratchOk then []
      else if p.first.status == WOULD_TRUNCATE && p.growOk then [SCRATCH_BUFFER_SIZE, p.first.size]
      else [SCRATCH_BUFFER_SIZE]
  {
    if PutAdmitted(q) && p.scratchOk {
      SelectPut(q, p, WriterBufferSize);
    } else {
      SelectShort(DatastorePutSpec(q, p).calls, WriterBufferSize);
    }
  }

  /**
   * The engine's put is called at most once, exactly when serialisation
   * succeeded, with the size the writer reported last.
   */
  lemma DatastorePutEngineCall(q: PutRequest, p: Replies)
    ensures Select(DatastorePutSpec(q, p).calls, PutInput) ==
      if PutReachesEngine(q, p) then [FinalSize(p)] else []
  {
    if PutAdmitted(q) && p.scratchOk {
      SelectPut(q, p, PutInput);
    } else {
      SelectShort(DatastorePutSpec(q, p).calls, PutInput);
    }
  }

  /** datastore_put calls no engine operation other than that one put. */
  lemma DatastorePutEngineOnly(q: PutRequest, p: Replies)
    ensures Select(DatastorePutSpec(q, p).calls, EngineCall) ==
      if PutReachesEngine(q, p) then [0] else []
  {
    if PutAdmitted(q) && p.scratchOk {
      SelectPut(q, p, EngineCall);
    } else {
      SelectShort(DatastorePutSpec(q, p).calls, EngineCall);
    }
  }

  /**
   * Once the engine's put is reached its status is the result, and SUCCESS
   * can only come from it; a failed serialisation returns the writer's
   * failure or BAD_MEMORY_ALLOCATION.
   */
  lemma DatastorePutResult(q: PutRequest, p: Replies)
    ensures PutReachesEngine(q, p) ==> DatastorePutSpec(q, p).status == p.lastStatus
    ensures DatastorePutSpec(q, p).status == SUCCESS ==> PutReachesEngine(q, p) && p.lastStatus == SUCCESS
    ensures PutAdmitted(q) && p.scratchOk && !Succeeds(p) ==>
      var status := DatastorePutSpec(q, p).status;
      status == p.first.status || status == p.second.status || status == BAD_MEMORY_ALLOCATION
    // each failed serialisation returns one specific status
    ensures (PutAdmitted(q) && p.scratchOk && p.first.status != SUCCESS
             && p.first.status != WOULD_TRUNCATE) ==>
      DatastorePutSpec(q, p).status == p.first.status
    ensures (PutAdmitted(q) && p.scratchOk && p.first.status == WOULD_TRUNCATE && !p.growOk) ==>
      DatastorePutSpec(q, p).status == BAD_MEMORY_ALLOCATION
    ensures (PutAdmitted(q) && p.scratchOk && p.first.status == WOULD_TRUNCATE && p.growOk
             && p.second.status != SUCCESS) ==>
      DatastorePutSpec(q, p).status == p.second.status
  {
  }

  /** The serialisation buffer is allocated exactly when the put is admitted and malloc succeeds. */
  lemma DatastorePutAcquiresBuffer(q: PutRequest, p: Replies)
    ensures Select(DatastorePutSpec(q, p).calls, Acquired) == if PutAdmitted(q) && p.scratchOk then [0] else []
  {
    if PutAdmitted(q) && p.scratchOk {
      SelectPut(q, p, Acquired);
    } else {
      SelectShort(DatastorePutSpec(q, p).calls, Acquired);
    }
  }

  /** An allocated serialisation buffer is freed exactly once, as the last call. */
  lemma DatastorePutReleasesBuffer(q: PutRequest, p: Replies)
    ensures Select(DatastorePutSpec(q, p).calls, Released) == if PutAdmitted(q) && p.scratchOk then [0] else []
    ensures var calls := DatastorePutSpec(q, p).calls;
      PutAdmitted(q) && p.scratchOk ==> calls[|calls| - 1] == Free
  {
    if PutAdmitted(q) && p.scratchOk {
      SelectPut(q, p, Released);
    } else {
      SelectShort(DatastorePutSpec(q, p).calls, Released);
    }
  }

  // ---------------------------------------------------------------------
  // vcdb_database_datastore_delete and vcdb_database_index_delete
  // ---------------------------------------------------------------------

  /**
   * `vcdb_database_datastore_delete`: parameter check, then transaction
   * check, then the engine's delete with the caller's key and key size;
   * the engine's status is returned.
   */
  method DatastoreDelete(host: Host, t: Transaction?, datastore: Datastores.Datastore?,
                         key: Ptr, keySize: Option<nat>, engineStatus: int)
    returns (status: int)
    requires (&& t != null && datastore != null && key != Null && keySize.Some? && keySize.value != 0
              && t.inTransaction) ==> t.Bound()
    modifies host
    ensures t == null || datastore == null || key == Null || keySize == None || keySize.value == 0 ==>
      status == INVALID_PARAMETER && host.trace == old(host.trace)
    ensures t != null && datastore != null && key != Null && keySize.Some? && keySize.value != 0 ==>
      && (!t.inTransaction ==> status == BAD_TRANSACTION && host.trace == old(host.trace))
      && (t.inTransaction ==>
            && status == engineStatus
            && host.trace == old(host.trace)
                 + [Event.DatastoreDelete(t.Engine(), t, datastore, key, keySize.value)])
  {
    if t == null || datastore == null || key == Null || keySize == None || keySize.value == 0 {
      return INVALID_PARAMETER;
    }

    if !t.inTransaction {
      return BAD_TRANSACTION;
    }

    host.Record(Event.DatastoreDelete(t.Engine(), t, datastore, key, keySize.value));
    return engineStatus;
  }

  /**
   * `vcdb_database_index_delete`: parameter check, then transaction check,
   * then the engine's index delete with the caller's key and key size; the
   * engine's status is returned.
   */
  method IndexDelete(host: Host, t: Transaction?, index: Indexes.Index?,
                     key: Ptr, keySize: Option<nat>, engineStatus: int)
    returns (status: int)
    requires (&& t != null && index != null && key != Null && keySize.Some? && keySize.value != 0
              && t.inTransaction) ==> t.Bound()
    modifies host
    ensures t == null || index == null || key == Null || keySize == None || keySize.value == 0 ==>
      status == INVALID_PARAMETER && host.trace == old(host.trace)
    ensures t != null && index != null && key != Null && keySize.Some? && keySize.value != 0 ==>
      && (!t.inTransaction ==> status == BAD_TRANSACTION && host.trace == old(host.trace))
      && (t.inTransaction ==>
            && status == engineStatus
            && host.trace == old(host.trace)
                 + [Event.IndexDelete(t.Engine(), t, index, key, keySize.value)])
  {
    if t == null || index == null || key == Null || keySize == None || keySize.value == 0 {
      return INVALID_PARAMETER;
    }

    if !t.inTransaction {
      return BAD_TRANSACTION;
    }

    host.Record(Event.IndexDelete(t.Engine(), t, index, key, keySize.value));
    return engineStatus;
  }
}
