# vcdb database-abstraction layer in Dafny

This project models the core of `v-c-database` (vcdb), a C library that puts
one interface in front of pluggable storage engines. An application
registers an engine adapter under a name. It then describes its data with
**datastores** (a fixed value size plus key-getter, value-reader and
value-writer callbacks) and **indexes** (a datastore plus a secondary-key
getter). It collects these in a **builder**, which creates or opens a
**database**, and it reads and writes inside **transactions**.

The layer works only through function pointers: the engine's operation
table, the user's callbacks, and `malloc`/`realloc`/`free` for scratch
buffers. The model makes the calls into engines and callbacks visible.
Each engine operation and user callback the layer calls is appended, with
the arguments the model tracks, to the `trace` of a `Host.Host` object. So are the
`malloc`/`realloc`/`free` calls on the scratch buffers of `index_get` and
`datastore_put`. Whatever the callee answers (a status, the size it leaves
in an in/out size argument, whether an allocation succeeded) is a
parameter of the operation. The allocations made by the engine registry
and the builder (`malloc`, `realloc`, `strdup`, `free`) are not traced.
Only their outcomes enter those operations, as boolean parameters.

Modules, one per part of the source tree:

- `Vcdb` (vcdb.dfy): status codes, `VCDB_MAX_KEY_SIZE`, the 1024-byte
  default scratch size, `Option`, and `Ptr`. `Ptr` is an opaque C pointer
  the layer only passes on.
- `Host` (host.dfy): the call trace, and the `Replies` of the shared
  "allocate 1024 bytes, call, grow once on WOULD_TRUNCATE, retry"
  exchange. It also holds `Select`, which projects a trace onto the calls
  of one kind.
- `Engines` (engine.dfy): the engine registry as a class over a `seq` of
  slots with `size`/`sizeMax` counters. Registration and the first-match
  lookup are proved against the pure `FirstMatch`.
- `Datastores`, `Indexes` (datastore.dfy, index.dfy): the descriptor
  records, their `init` and their zeroing disposers.
- `Builders` (builder.dfy): the builder class, its tagged instance array
  (grown in steps of 20) and its disposer.
- `Databases` (database.dfy): create, open, delete and dispose, plus
  `index_get`.
- `Transactions` (transaction.dfy): begin, commit, rollback, the
  auto-rollback disposer, `datastore_put` and the two deletes.

`index_get` and `datastore_put` are imperative methods that follow the C
code step by step. Each is proved equal to a reference function
(`IndexGetSpec`, `DatastorePutSpec`) on a request/replies pair. The
protocol guarantees are lemmas about that function: how many engine calls
are made and with which buffer sizes, when the reader or the engine's put
runs, where SUCCESS can come from, and that the scratch buffer is freed
exactly once, last.

Status codes: include/vcdb/error_codes.h defines only `SUCCESS` (0) and
`INVALID_PARAMETER` (0x4001). The other codes the core returns are not
defined in any header shown, and nothing in the source assigns them values.
The model gives them distinct stand-in values: MISSING_DATABASE_ENGINE
0x4002, BAD_MEMORY_ALLOCATION 0x4003, WOULD_TRUNCATE 0x4004,
BAD_TRANSACTION 0x4005 and VALUE_NOT_FOUND 0x4006. The proofs use only the
fact that they are distinct and non-zero. Likewise, the instance tags
`VCDB_BUILDER_INSTANCE_TYPE_DATASTORE` and `_INDEX` that the builder code
compares against are not defined in any header shown. include/vcdb/builder.h
declares the tag enum as `VCDB_BUILDER_DATASTORE_TYPE_DATASTORE` and
`_INDEX`, which is 0 and 1, and the model uses those values.

Some of the pointers the C code dereferences without a check become
preconditions of the model. These pointers are:
- `database->builder` in `index_get` and in the database disposer;
- `transaction->database->builder` in commit, rollback, put and the deletes;
- `database->builder` in `begin`.

Each such precondition applies only on the path that actually reaches the
dereference. Other unchecked pointers do not become preconditions:
`builder->engine` and the engine's function pointers, and the datastore's
callbacks. "## Left out" describes what the model does with them.

## Model

| member | source | states |
|---|---|---|
| Engines.FirstMatch | src/engine/vcdb_database_engine_lookup.c:34-45 | the result is the lowest position whose entry has the name; no earlier entry has it; `None` exactly when no entry has it |
| Engines.FirstMatchAppend | src/engine/vcdb_database_engine_register.c:63-72 | appending an entry never changes which earlier entry a name resolves to; a name not yet present resolves to the appended position if the new entry carries it |
| Engines.Registry.constructor | src/engine/vcdb_database_engine_registry.c:11-13 | the registry starts with a NULL array, size 0 and capacity 0, and no entries |
| Engines.Registry.Lookup | src/engine/vcdb_database_engine_lookup.c:29-46 | returns the engine of the first of the `size` used entries whose name matches, or NULL; the registry is not written |
| Engines.Registry.Register | src/engine/vcdb_database_engine_register.c:26-73 | first use allocates 5 slots, and a failed malloc resets capacity and size to 0; a full registry grows by exactly 5, and a failed grow leaves it unchanged; otherwise the slot at the old size gets the name copy and the engine; the entries gain exactly that entry, or none when strdup fails; earlier entries are untouched; `size <= capacity` is kept; a lookup of the name still finds an earlier registration if there was one, and otherwise finds the new entry |
| Datastores.Datastore.Dispose | src/datastore/vcdb_datastore_init.c:79-84 | every field of the record is zero afterwards |
| Datastores.Init | src/datastore/vcdb_datastore_init.c:38-72 | SUCCESS exactly when the record, name and three callbacks are non-null and the size is non-zero; otherwise INVALID_PARAMETER with the record untouched; on success the fields are the arguments, and the correlation id and serial data size are 0 |
| Indexes.Index.Dispose | src/index/vcdb_index_init.c:70-75 | every field of the index is zero afterwards |
| Indexes.Init | src/index/vcdb_index_init.c:36-63 | SUCCESS exactly when the index, datastore, name and getter are non-null; otherwise INVALID_PARAMETER with the index untouched; on success it holds the arguments with correlation id 0; the datastore is not written |
| Builders.GrownCapacity | src/builder/vcdb_builder_add_generic.c:43-57 | one append to a full array grows the capacity by exactly 20, otherwise the capacity is kept; afterwards there is room for the new entry, and a multiple of 20 stays a multiple of 20 |
| Builders.CapacityAfterAppends | src/builder/vcdb_builder_add_generic.c:43-57 | after `n` successful appends to a fresh builder, the capacity is the least multiple of 20 that is at least `max(n, 1)` |
| Builders.Builder.Dispose | src/builder/vcdb_builder_init.c:97-124 | for a builder whose database is closed, every instance among the first `size` entries is disposed (zeroed), so every record the builder owned is zeroed; then the builder is zeroed |
| Builders.Init | src/builder/vcdb_builder_init.c:34-90 | a null argument gives INVALID_PARAMETER and an unregistered engine name gives MISSING_DATABASE_ENGINE, both with the builder untouched; otherwise the engine, capacity 20, size 0 and closed flag are set; a failed strdup or malloc gives BAD_MEMORY_ALLOCATION with no connection string kept; on success the connection string equals the argument, the array is 20 zero slots and the builder invariant holds |
| Builders.AddGeneric | src/builder/vcdb_builder_add_generic.c:30-69 | a null builder or instance, or an unknown tag, gives INVALID_PARAMETER with no change; a full array whose grow fails gives BAD_MEMORY_ALLOCATION with no change; otherwise SUCCESS, the entries gain exactly `(instance, tag, NULL handle)` at the end, the capacity grows only when full, and the invariant is kept |
| Builders.AddDatastore | src/builder/vcdb_builder_add_datastore.c:29-47 | null arguments give INVALID_PARAMETER before anything is written; otherwise the correlation id is set to the builder's combined size before the append, even if the append fails; the append is tagged DATASTORE, and on success the entry at that id is the datastore; no other datastore field changes |
| Builders.AddIndex | src/builder/vcdb_builder_add_index.c:29-35 | exactly `AddGeneric` with the INDEX tag; the index itself, including its correlation id, is not written |
| Databases.Database.Dispose | src/database/vcdb_database_dispose.c:19-31 | the engine's close is called once with the database; the builder's `database_opened` becomes false; the record is zeroed, so its builder reference is null |
| Databases.CreateFromBuilder | src/database/vcdb_database_create_from_builder.c:28-55 | a null database or builder gives INVALID_PARAMETER with no call; otherwise the engine's create is called once with both and its status is returned as is; only on SUCCESS is the builder marked open and the database bound to the builder; nothing else in the builder changes |
| Databases.OpenFromBuilder | src/database/vcdb_database_open_from_builder.c:26-51 | a null argument gives INVALID_PARAMETER with no call; otherwise the engine's open is called once and its status is returned as is; the builder becomes open on SUCCESS and otherwise keeps its flag; the database record is not written |
| Databases.DeleteUsingBuilder | src/database/vcdb_database_delete_using_builder.c:22-37 | a null builder gives INVALID_PARAMETER with no call; otherwise the engine's delete is called once with the builder and its status is returned as is; the builder is not written |
| Databases.IndexGet | src/database/vcdb_database_index_get.c:38-116 | the result, the final `*value_size` and the calls made are exactly those of the reference function `IndexGetSpec` |
| Databases.IndexGetEngineReads | src/database/vcdb_database_index_get.c:72-107 | the engine is read first with the 1024-byte buffer; it is read a second time, with the size it reported, only after WOULD_TRUNCATE and a successful grow; there is never a third read |
| Databases.IndexGetReader | src/database/vcdb_database_index_get.c:81-115 | the reader is called at most once, exactly when the engine's reads end in success, with the engine's last reported size; its status is then the result; SUCCESS comes only from the reader; a first read that fails other than by WOULD_TRUNCATE returns its own status; a failed grow returns BAD_MEMORY_ALLOCATION; a failed second read returns its own status |
| Databases.IndexGetAcquiresScratch | src/database/vcdb_database_index_get.c:56-79 | the scratch buffer is allocated exactly when the parameters pass, the caller's buffer holds a value and malloc succeeds |
| Databases.IndexGetReleasesScratch | src/database/vcdb_database_index_get.c:75-113 | an allocated scratch buffer is freed exactly once, and the free is the last call |
| Databases.IndexGetValueSize | src/database/vcdb_database_index_get.c:56-70 | `*value_size` changes exactly when the parameters pass and it is smaller than the datastore's value size; it then becomes that size, WOULD_TRUNCATE is returned and nothing is called; invalid parameters give INVALID_PARAMETER with no call |
| Databases.IndexGetNoKeyExtraction | src/database/vcdb_database_index_get.c:38-116 | index_get never calls a key getter or the secondary-key getter |
| Transactions.Transaction.Dispose | src/transaction/vcdb_transaction_begin.c:64-74 | an active transaction is rolled back once and then marked inactive, whatever the rollback returns; an inactive one causes no call; the database binding is kept |
| Transactions.Begin | src/transaction/vcdb_transaction_begin.c:27-57 | a null argument gives INVALID_PARAMETER with no call; otherwise the transaction is bound to the database, the engine's begin is called once, its status is returned as is, and the transaction is active exactly when that status is SUCCESS |
| Transactions.Commit | src/transaction/vcdb_transaction_commit.c:26-46 | a null transaction gives INVALID_PARAMETER; otherwise the engine's commit is called whether or not the transaction is active; its status is returned as is; the transaction becomes inactive only on SUCCESS |
| Transactions.Rollback | src/transaction/vcdb_transaction_rollback.c:26-46 | a null transaction gives INVALID_PARAMETER; otherwise the engine's rollback is called with no activity check; its status is returned as is; the transaction becomes inactive only on SUCCESS |
| Transactions.DatastorePut | src/transaction/vcdb_database_datastore_put.c:32-112 | the result and the calls made are exactly those of the reference function `DatastorePutSpec` |
| Transactions.DatastorePutGuards | src/transaction/vcdb_database_datastore_put.c:46-61 | invalid parameters give INVALID_PARAMETER and then an inactive transaction gives BAD_TRANSACTION, both with no call; otherwise the first call is the key getter, called exactly once with a `VCDB_MAX_KEY_SIZE` buffer |
| Transactions.DatastorePutWriter | src/transaction/vcdb_database_datastore_put.c:63-95 | the writer is called first with a 1024-byte buffer; it is called again, with the size it reported, only after WOULD_TRUNCATE and a successful grow; there is never a third call |
| Transactions.DatastorePutEngineCall | src/transaction/vcdb_database_datastore_put.c:97-106 | the engine's put is called at most once, exactly when serialisation succeeded, with the writer's last reported size |
| Transactions.DatastorePutEngineOnly | src/transaction/vcdb_database_datastore_put.c:32-112 | that put is the only engine operation datastore_put calls |
| Transactions.DatastorePutResult | src/transaction/vcdb_database_datastore_put.c:73-111 | once the engine's put is reached, its status is the result; SUCCESS comes only from it; a first write that fails other than by WOULD_TRUNCATE returns its own status; a failed grow returns BAD_MEMORY_ALLOCATION; a failed second write returns its own status |
| Transactions.DatastorePutAcquiresBuffer | src/transaction/vcdb_database_datastore_put.c:63-70 | the serialisation buffer is allocated exactly when the put is admitted and malloc succeeds |
| Transactions.DatastorePutReleasesBuffer | src/transaction/vcdb_database_datastore_put.c:63-111 | an allocated serialisation buffer is freed exactly once, and the free is the last call |
| Transactions.DatastoreDelete | src/transaction/vcdb_database_datastore_delete.c:25-52 | a null pointer or a zero key size gives INVALID_PARAMETER; only then does an inactive transaction give BAD_TRANSACTION; neither makes a call; otherwise the engine's delete gets the transaction, datastore, key and key size, and its status is returned |
| Transactions.IndexDelete | src/transaction/vcdb_database_index_delete.c:25-52 | the same guards in the same order; otherwise the engine's index delete gets the transaction, index, key and key size, and its status is returned |

## Left out

- Byte sizes of allocations: `malloc`, `realloc`, `strdup` and `memset` are not modelled byte by byte. Each allocation's success is a boolean parameter, and capacities are counted in elements.
  - Both grow paths pass an element count where `realloc` expects bytes: src/builder/vcdb_builder_add_generic.c:47-48 and src/engine/vcdb_database_engine_register.c:51-52.
  - The model grows by 20 and by 5 elements, as the surrounding code and its counters intend.
- Slots that `malloc`/`realloc` leave unwritten: the model fills them with a fixed stand-in value (`Engines.Unwritten`, `Builders.ZeroSlot`). It says nothing about their contents.
- Builders.Builder.Dispose: the C disposer hands `dispose()` the address of the slot's union, not the instance pointer it holds (src/builder/vcdb_builder_init.c:116).
  - The model disposes each owned instance, as the surrounding comment intends.
  - Its contract says every owned instance ends up disposed. It does not state the order, which no other state can observe.
- The `disposable_t` header and the generic `dispose()` dispatcher from the vpr library are not modelled. The record's `disposable` flag stands for `hdr.dispose` pointing at its disposer, and each disposer is a method of its class.
- Null engines and callbacks: the model does not capture a NULL engine or a NULL callback.
  - The C code calls through several pointers without checking them:
    - `builder->engine`, in create, open, delete, `index_get` and begin (src/database/vcdb_database_create_from_builder.c:44, src/database/vcdb_database_open_from_builder.c:42, src/database/vcdb_database_delete_using_builder.c:36, src/database/vcdb_database_index_get.c:82 and :101, src/transaction/vcdb_transaction_begin.c:46);
    - the datastore's callbacks, in `index_get` (src/database/vcdb_database_index_get.c:110) and `datastore_put` (src/transaction/vcdb_database_datastore_put.c:61, :74 and :90).
  - The model records the engine call or the callback on these paths even when the pointer is `Null`, where the C code would dereference NULL.
  - `Builders.Init` sets a non-NULL engine once it gets past the engine lookup, whether it then returns SUCCESS or BAD_MEMORY_ALLOCATION; a zeroed builder, or one whose `Init` stopped earlier, has a NULL engine. A datastore has non-NULL callbacks only if `Datastores.Init` succeeded.
- The `MODEL_ASSERT` checks are compiled out in the library. The explicit parameter checks after them are modelled. One exception: the builder disposer has no explicit checks, and `Builders.Builder.Dispose` turns its assertions (src/builder/vcdb_builder_init.c:101-105) into the precondition `Valid() && !databaseOpened`.
- Storage engines and user callbacks are not modelled; each contributes only its calls and its replies.
  - The model does not cover storage contents, the key that the key getter writes, or what an engine writes into the records it is handed. This includes the engine-context fields, which are not modelled either.
- Builders.AddDatastore: the correlation id is an unbounded integer. The conversion of the `size_t` size to `int` is not modelled.
- Datastores.Init, Indexes.Init: the C records keep the caller's name pointer, not a copy. The model keeps the name's value, so aliasing of the name buffer is not modelled.
- `vcdb_database_datastore_get` is not part of this model, because its source is not among the files modelled.
- The engine registry is process-wide state in C. Here it is a `Registry` object that `Builders.Init` receives. The model assumes single-threaded use and says nothing about concurrency.
- Status values returned by an engine or a callback are arbitrary integers and are passed through unchanged. `DatabaseEngineError` is never produced by this layer and is not modelled.

## Notes on the source

The model follows the code as written. In these places the code and the
tests or documentation beside it disagree:

- `vcdb_builder_add_index` never writes the index's correlation id (src/builder/vcdb_builder_add_index.c:29-35). test/builder/test_builder_add_index.cpp:35,49 sets it to 17 and then expects 0, the builder's old size, as `vcdb_builder_add_datastore` would assign. `Builders.AddIndex` leaves the index unchanged, so under the model the test's expectation does not hold.
- `vcdb_database_open_from_builder` does not bind `database->builder` or set the disposer (src/database/vcdb_database_open_from_builder.c:45-48); create does both (src/database/vcdb_database_create_from_builder.c:49-51).
  - Unless the engine's open binds the builder itself, every later operation on such a database dereferences a null builder.
  - In the model, the preconditions on `database.builder` make this visible.
- `datastore_put` retries only on `WOULD_TRUNCATE` (src/transaction/vcdb_database_datastore_put.c:75), while the writer's contract speaks of a buffer-too-small result (include/vcdb/datastore.h:79).
- `datastore_put` asks the key getter for the key (src/transaction/vcdb_database_datastore_put.c:59-61) but does not pass it to the engine (:104-106).
  - In the model, the `DatastorePut` call carries no key.
  - `DatastorePutGuards` shows the key getter runs exactly once all the same.
- `vcdb_datastore_init` rejects a value size of 0 (src/datastore/vcdb_datastore_init.c:55), although the header documents 0 as "variable sized".
- `index_get` never writes `*value_size` on success, contrary to its doc comment (src/database/vcdb_database_index_get.c:27-29). `IndexGetValueSize` states the behaviour as written.
- `commit` and `rollback` call the engine without checking `in_transaction`.
- include/vcdb/engine.h:126-153 shows an older five-entry engine table. The model follows the twelve-operation adapter used by the tests (test/test_database.cpp:18-31).
