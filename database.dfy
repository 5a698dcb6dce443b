/**
 * Database handles: creating, opening, deleting and closing a database
 * through the builder's engine, and reading a value through a secondary
 * index with a scratch buffer that is grown at most once.
 */
module Databases {
  import opened Vcdb
  import opened Host
  import Builders
  import Indexes

  class Database {
    /** Whether `hdr.dispose` points at the database disposer. */
    var disposable: bool
    /** The builder the database was created from; null until `create` succeeds. */
    var builder: Builders.Builder?

    /** Every field zero, as memset leaves the record. */
    predicate Zeroed()
      reads this
    {
      !disposable && builder == null
    }

    /** Storage for a database record, before it is created or opened. */
    constructor ()
      ensures Zeroed()
    {
      disposable := false;
      builder := null;
    }

    /**
     * `vcdb_database_dispose`: close the database through the engine
     * (ignoring its status), mark the builder's database closed, then zero
     * the record.
     */
    method Dispose(host: Host)
      requires builder != null
      modifies this, builder`databaseOpened, host
      ensures host.trace == old(host.trace) + [DatabaseClose(old(builder.engine), this)]
      ensures !old(builder).databaseOpened
      ensures Zeroed()
    {
      host.Record(DatabaseClose(builder.engine, this));
      builder.databaseOpened := false;
      disposable := false;
      builder := null;
    }
  }

  /**
   * `vcdb_database_create_from_builder`: the engine's create is called once;
   * its status is returned as it is, and only on success is the builder's
   * database marked open and the database bound to the builder.
   */
  method CreateFromBuilder(host: Host, database: Database?, builder: Builders.Builder?, engineStatus: int)
    returns (status: int)
    modifies host, database, builder
    ensures builder != null ==> Builders.OnlyOpenFlagChanged(builder)
    ensures database == null || builder == null ==>
      && status == INVALID_PARAMETER && host.trace == old(host.trace)
      && (database != null ==> unchanged(database)) && (builder != null ==> unchanged(builder))
    ensures database != null && builder != null ==>
      && status == engineStatus
      && host.trace == old(host.trace) + [DatabaseCreate(builder.engine, database, builder)]
      && (status == SUCCESS ==> builder.databaseOpened && database.disposable && database.builder == builder)
      && (status != SUCCESS ==> builder.databaseOpened == old(builder.databaseOpened) && unchanged(database))
  {
    if database == null || builder == null {
      return INVALID_PARAMETER;
    }

    host.Record(DatabaseCreate(builder.engine, database, builder));
    status := engineStatus;

    if status == SUCCESS {
      builder.databaseOpened := true;
      database.disposable := true;
      database.builder := builder;
    }
  }

  /**
   * `vcdb_database_open_from_builder`: like create, except that on success
   * only the builder's flag is set; the database record is not written.
   */
  method OpenFromBuilder(host: Host, database: Database?, builder: Builders.Builder?, engineStatus: int)
    returns (status: int)
    modifies host, builder
    ensures builder != null ==> Builders.OnlyOpenFlagChanged(builder)
    ensures database == null || builder == null ==>
      && status == INVALID_PARAMETER && host.trace == old(host.trace)
      && (builder != null ==> unchanged(builder))
    ensures database != null && builder != null ==>
      && status == engineStatus
      && host.trace == old(host.trace) + [DatabaseOpen(builder.engine, database, builder)]
      && builder.databaseOpened == (status == SUCCESS || old(builder.databaseOpened))
  {
    if database == null || builder == null {
      return INVALID_PARAMETER;
    }

    host.Record(DatabaseOpen(builder.engine, database, builder));
    status := engineStatus;

    if status == SUCCESS {
      builder.databaseOpened := true;
    }
  }

  /**
   * `vcdb_database_delete_using_builder`: delegate to the engine's delete
   * and return its status; the builder is not written.
   */
  method DeleteUsingBuilder(host: Host, builder: Builders.Builder?, engineStatus: int)
    returns (status: int)
    modifies host
    ensures builder == null ==> status == INVALID_PARAMETER && host.trace == old(host.trace)
    ensures builder != null ==>
      status == engineStatus && host.trace == old(host.trace) + [DatabaseDelete(builder.engine, builder)]
  {
    if builder == null {
      return INVALID_PARAMETER;
    }

    host.Record(DatabaseDelete(builder.engine, builder));
    return engineStatus;
  }

  // ---------------------------------------------------------------------
  // vcdb_database_index_get
  // ---------------------------------------------------------------------

  /**
   * The inputs of an index_get as the layer sees them: the records by
   * identity, the fields of the indexed datastore it reads, the engine of
   * the database's builder, and the caller's arguments.  `valueSize` is
   * `*value_size`, `None` when the pointer is NULL.
   */
  datatype GetRequest = GetRequest(
    database: object?, index: object?, datastore: object?,
    dataSize: nat, reader: Ptr, engine: Ptr,
    key: Ptr, keySize: nat, value: Ptr, valueSize: Option<nat>)

  /** The result, the final `*value_size` and the calls made, in order. */
  datatype GetOutcome = GetOutcome(status: int, valueSize: Option<nat>, calls: seq<Event>)

  /** The request an index_get on these records and arguments makes. */
  function GetRequestOf(database: Database?, index: Indexes.Index?, key: Ptr, keySize: nat,
                        value: Ptr, valueSize: Option<nat>): GetRequest
    reads database, index
    reads if index != null then {index.datastore} else {}
    reads if database != null then {database.builder} else {}
  {
    var ds := if index != null then index.datastore else null;
    GetRequest(
      database, index, ds,
      if ds != null then ds.dataSize else 0,
      if ds != null then ds.valueReader else Null,
      if database != null && database.builder != null then database.builder.engine else Null,
      key, keySize, value, valueSize)
  }

  /** The parameter check: every pointer non-null, a key, a non-empty buffer. */
  predicate GetParametersValid(q: GetRequest)
  {
    && q.database != null && q.index != null && q.datastore != null
    && q.key != Null && q.keySize != 0 && q.value != Null
    && q.valueSize.Some? && q.valueSize.value != 0
  }

  /** The engine is reached: the parameters pass, the buffer holds a value, the scratch malloc succeeds. */
  predicate GetReachesEngine(q: GetRequest, p: Replies)
  {
    GetParametersValid(q) && q.dataSize <= q.valueSize.value && p.scratchOk
  }

  /**
   * The reference behaviour of index_get: parameter check, early
   * WOULD_TRUNCATE with the needed size, a 1024-byte scratch buffer, one
   * engine read, one grow and re-read on WOULD_TRUNCATE, the reader on
   * success, and the scratch buffer freed on every path after malloc.
   */
  function IndexGetSpec(q: GetRequest, p: Replies): GetOutcome
  {
    if !GetParametersValid(q) then
      GetOutcome(INVALID_PARAMETER, q.valueSize, [])
    else if q.valueSize.value < q.dataSize then
      GetOutcome(WOULD_TRUNCATE, Some(q.dataSize), [])
    else if !p.scratchOk then
      GetOutcome(BAD_MEMORY_ALLOCATION, q.valueSize, [Malloc(SCRATCH_BUFFER_SIZE, false)])
    else
      GetOutcome(AfterFirstRead(q, p).0, q.valueSize, FirstRead(q) + AfterFirstRead(q, p).1 + [Free])
  }

  /** The engine's index read into a buffer of `bufferSize` bytes. */
  function EngineRead(q: GetRequest, bufferSize: nat): Event
    requires GetParametersValid(q)
  {
    Event.IndexGet(q.engine, q.database as object, q.index as object, q.key, q.keySize, bufferSize)
  }

  /** The calls up to the first read into a freshly allocated scratch buffer. */
  function FirstRead(q: GetRequest): seq<Event>
    requires GetParametersValid(q)
  {
    [Malloc(SCRATCH_BUFFER_SIZE, true), EngineRead(q, SCRATCH_BUFFER_SIZE)]
  }

  /**
   * The status and the calls after the first read: a grow and a re-read on
   * WOULD_TRUNCATE, and the reader once the engine has succeeded.
   */
  function AfterFirstRead(q: GetRequest, p: Replies): (int, seq<Event>)
    requires GetParametersValid(q)
  {
    if p.first.status != SUCCESS && p.first.status != WOULD_TRUNCATE then
      (p.first.status, [])
    else if p.first.status == SUCCESS then
      (p.lastStatus, [ValueReader(q.reader, p.first.size, q.value)])
    else if !p.growOk then
      (BAD_MEMORY_ALLOCATION, [Realloc(p.first.size, false)])
    else if p.second.status != SUCCESS then
      (p.second.status, [Realloc(p.first.size, true), EngineRead(q, p.first.size)])
    else
      (p.lastStatus, [Realloc(p.first.size, true), EngineRead(q, p.first.size),
                      ValueReader(q.reader, p.second.size, q.value)])
  }

  /** A projection of the trace of an index_get that reached the engine, piece by piece. */
  lemma SelectGet(q: GetRequest, p: Replies, f: Event -> seq<nat>)
    requires GetReachesEngine(q, p)
    ensures Select(IndexGetSpec(q, p).calls, f) ==
      f(Malloc(SCRATCH_BUFFER_SIZE, true)) + f(EngineRead(q, SCRATCH_BUFFER_SIZE))
      + (At(AfterFirstRead(q, p).1, 0, f) + (At(AfterFirstRead(q, p).1, 1, f) + At(AfterFirstRead(q, p).1, 2, f)))
      + f(Free)
  {
    SelectFramed(FirstRead(q), AfterFirstRead(q, p).1, Free, f);
  }

  /** `vcdb_database_index_get`. */
  method IndexGet(host: Host, database: Database?, index: Indexes.Index?, key: Ptr, keySize: nat,
                  value: Ptr, valueSize: Option<nat>, replies: Replies)
    returns (status: int, valueSizeOut: Option<nat>)
    requires GetReachesEngine(GetRequestOf(database, index, key, keySize, value, valueSize), replies) ==>
      database != null && database.builder != null
    modifies host
    ensures var r := IndexGetSpec(GetRequestOf(database, index, key, keySize, value, valueSize), replies);
      status == r.status && valueSizeOut == r.valueSize && host.trace == old(host.trace) + r.calls
  {
    if database == null || index == null || index.datastore == null || key == Null || keySize == 0
       || value == Null || valueSize == None || valueSize.value == 0
    {
      return INVALID_PARAMETER, valueSize;
    }

    var datastore := index.datastore;
    if valueSize.value < datastore.dataSize {
      return WOULD_TRUNCATE, Some(datastore.dataSize);
    }
    valueSizeOut := valueSize;

    var bufferSize := SCRATCH_BUFFER_SIZE;
    host.Record(Malloc(bufferSize, replies.scratchOk));
    if !replies.scratchOk {
      return BAD_MEMORY_ALLOCATION, valueSize;
    }

    var engine := database.builder.engine;
    host.Record(Event.IndexGet(engine, database, index, key, keySize, bufferSize));
    status, bufferSize := replies.first.status, replies.first.size;

    if status == SUCCESS || status == WOULD_TRUNCATE {
      var serialised := true;
      if status == WOULD_TRUNCATE {
        host.Record(Realloc(bufferSize, replies.growOk));
        if !replies.growOk {
          status, serialised := BAD_MEMORY_ALLOCATION, false;
        } else {
          host.Record(Event.IndexGet(engine, database, index, key, keySize, bufferSize));
          status, bufferSize := replies.second.status, replies.second.size;
          serialised := status == SUCCESS;
        }
      }
      if serialised {
        host.Record(ValueReader(datastore.valueReader, bufferSize, value));
        status := replies.lastStatus;
      }
    }

    host.Record(Free);
  }

  /** The buffer size of every engine index read. */
  function EngineReadSize(e: Event): seq<nat>
  {
    if e.IndexGet? then [e.bufferSize] else []
  }

  /** The serial size handed to every reader call. */
  function ReaderInput(e: Event): seq<nat>
  {
    if e.ValueReader? then [e.serialSize] else []
  }

  /**
   * The engine is read at most twice: first with the 1024-byte buffer, and
   * a second time, with exactly the size the engine asked for, only after
   * it answered WOULD_TRUNCATE and the grow succeeded.  There is no third
   * read, whatever the second answers.
   */
  lemma IndexGetEngineReads(q: GetRequest, p: Replies)
    ensures Select(IndexGetSpec(q, p).calls, EngineReadSize) ==
      if !GetReachesEngine(q, p) then []
      else if p.first.status == WOULD_TRUNCATE && p.growOk then [SCRATCH_BUFFER_SIZE, p.first.size]
      else [SCRATCH_BUFFER_SIZE]
  {
    if GetReachesEngine(q, p) {
      SelectGet(q, p, EngineReadSize);
    } else {
      SelectShort(IndexGetSpec(q, p).calls, EngineReadSize);
    }
  }

  /**
   * The reader is called at most once, and exactly when the engine's reads
   * end in success; it gets the size the engine reported last.  SUCCESS can
   * only come from the reader; when the reads fail, the engine's own
   * failure (or BAD_MEMORY_ALLOCATION for a failed grow) is returned.
   */
  lemma IndexGetReader(q: GetRequest, p: Replies)
    ensures Select(IndexGetSpec(q, p).calls, ReaderInput) ==
      if GetReachesEngine(q, p) && Succeeds(p) then [FinalSize(p)] else []
    ensures GetReachesEngine(q, p) && Succeeds(p) ==> IndexGetSpec(q, p).status == p.lastStatus
    ensures IndexGetSpec(q, p).status == SUCCESS ==>
      GetReachesEngine(q, p) && Succeeds(p) && p.lastStatus == SUCCESS
    ensures GetReachesEngine(q, p) && !Succeeds(p) ==>
      var status := IndexGetSpec(q, p).status;
      status == p.first.status || status == p.second.status || status == BAD_MEMORY_ALLOCATION
    // each failed path returns one specific status
    ensures (GetReachesEngine(q, p) && p.first.status != SUCCESS
             && p.first.status != WOULD_TRUNCATE) ==>
      IndexGetSpec(q, p).status == p.first.status
    ensures (GetReachesEngine(q, p) && p.first.status == WOULD_TRUNCATE && !p.growOk) ==>
      IndexGetSpec(q, p).status == BAD_MEMORY_ALLOCATION
    ensures (GetReachesEngine(q, p) && p.first.status == WOULD_TRUNCATE && p.growOk
             && p.second.status != SUCCESS) ==>
      IndexGetSpec(q, p).status == p.second.status
  {
    if GetReachesEngine(q, p) {
      SelectGet(q, p, ReaderInput);
    } else {
      SelectShort(IndexGetSpec(q, p).calls, ReaderInput);
    }
  }

  /** The scratch buffer is allocated exactly when the parameters pass and the caller's buffer is large enough. */
  lemma IndexGetAcquiresScratch(q: GetRequest, p: Replies)
    ensures Select(IndexGetSpec(q, p).calls, Acquired) == if GetReachesEngine(q, p) then [0] else []
  {
    if GetReachesEngine(q, p) {
      SelectGet(q, p, Acquired);
    } else {
      SelectShort(IndexGetSpec(q, p).calls, Acquired);
    }
  }

  /** An allocated scratch buffer is freed exactly once, as the last call. */
  lemma IndexGetReleasesScratch(q: GetRequest, p: Replies)
    ensures Select(IndexGetSpec(q, p).calls, Released) == if GetReachesEngine(q, p) then [0] else []
    ensures var calls := IndexGetSpec(q, p).calls;
      GetReachesEngine(q, p) ==> calls[|calls| - 1] == Free
  {
    if GetReachesEngine(q, p) {
      SelectGet(q, p, Released);
    } else {
      SelectShort(IndexGetSpec(q, p).calls, Released);
    }
  }

  /**
   * `*value_size` is written only by the early size check: then it becomes
   * the datastore's value size, WOULD_TRUNCATE is returned and nothing is
   * called.  An invalid parameter is rejected before any call.
   */
  lemma IndexGetValueSize(q: GetRequest, p: Replies)
    ensures IndexGetSpec(q, p).valueSize != q.valueSize <==>
      GetParametersValid(q) && q.valueSize.value < q.dataSize
    ensures IndexGetSpec(q, p).valueSize != q.valueSize ==>
      && IndexGetSpec(q, p).valueSize == Some(q.dataSize)
      && IndexGetSpec(q, p).status == WOULD_TRUNCATE && IndexGetSpec(q, p).calls == []
    ensures !GetParametersValid(q) ==>
      IndexGetSpec(q, p).status == INVALID_PARAMETER && IndexGetSpec(q, p).calls == []
  {
  }

  /** index_get never calls a key getter or secondary-key getter. */
  lemma IndexGetNoKeyExtraction(q: GetRequest, p: Replies)
    ensures Select(IndexGetSpec(q, p).calls, KeyExtraction) == []
  {
    if GetReachesEngine(q, p) {
      SelectGet(q, p, KeyExtraction);
    } else {
      SelectShort(IndexGetSpec(q, p).calls, KeyExtraction);
    }
  }
}
