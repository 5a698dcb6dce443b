/**
 * The world outside the layer.  Storage engines and the user's datastore
 * callbacks are reached only through function pointers, and the scratch
 * buffers of index_get and datastore_put come from the C heap.  None of them
 * is modelled; every call the layer makes to them is appended, with the
 * arguments the model tracks, to the `trace` of a `Host`, and whatever the
 * callee answers is a parameter of the operation that makes the call.
 */
module Host {
  import opened Vcdb

  /**
   * What a callee hands back: its status and the value it leaves in the
   * in/out size argument (`*value_size`, `*serial_output_size`, ...).
   */
  datatype Reply = Reply(status: int, size: nat)

  /**
   * The answers the outside world gives to one scratch-buffer exchange, the
   * pattern index_get and datastore_put share: whether the 1024-byte malloc
   * succeeds, the first call's reply, whether growing the buffer to the
   * size that call reported succeeds, the retry's reply, and the status of
   * the call that consumes the buffer (the value reader, the engine's put).
   */
  datatype Replies = Replies(scratchOk: bool, first: Reply, growOk: bool, second: Reply, lastStatus: int)

  /** The exchange succeeds: at once, or after one grow and a retry. */
  predicate Succeeds(p: Replies)
  {
    || p.first.status == SUCCESS
    || (p.first.status == WOULD_TRUNCATE && p.growOk && p.second.status == SUCCESS)
  }

  /** The size the successful call left in the buffer-size argument. */
  function FinalSize(p: Replies): nat
  {
    if p.first.status == SUCCESS then p.first.size else p.second.size
  }

  /**
   * One call out of the layer.  Model records (builder, database, index,
   * transaction) appear by identity, as the C pointers do.
   */
  datatype Event =
    // heap operations on a scratch buffer; `ok` is whether they succeeded
    | Malloc(size: nat, ok: bool)
    | Realloc(size: nat, ok: bool)
    | Free
    // the twelve operations of an engine adapter that this layer calls
    | DatabaseCreate(engine: Ptr, database: object, builder: object)
    | DatabaseOpen(engine: Ptr, database: object, builder: object)
    | DatabaseClose(engine: Ptr, database: object)
    | DatabaseDelete(engine: Ptr, builder: object)
    | IndexGet(engine: Ptr, database: object, index: object, key: Ptr, keySize: nat, bufferSize: nat)
    | TransactionBegin(engine: Ptr, transaction: object, database: object)
    | TransactionCommit(engine: Ptr, transaction: object)
    | TransactionRollback(engine: Ptr, transaction: object)
    | DatastorePut(engine: Ptr, transaction: object, datastore: object, serialSize: nat)
    | DatastoreDelete(engine: Ptr, transaction: object, datastore: object, key: Ptr, keySize: nat)
    | IndexDelete(engine: Ptr, transaction: object, index: object, key: Ptr, keySize: nat)
    // the user's callbacks
    | KeyGetter(getter: Ptr, value: Ptr, keyBufferSize: nat)
    | SecondaryKeyGetter(getter: Ptr, value: Ptr, keyBufferSize: nat)
    | ValueWriter(writer: Ptr, value: Ptr, bufferSize: nat)
    | ValueReader(reader: Ptr, serialSize: nat, value: Ptr)

  /** Everything the layer has asked of the outside world, in order. */
  class Host {
    var trace: seq<Event>

    constructor ()
      ensures trace == []
    {
      trace := [];
    }

    /** Make one call out of the layer. */
    method Record(e: Event)
      modifies this
      ensures trace == old(trace) + [e]
    {
      trace := trace + [e];
    }
  }

  /**
   * Projects a trace onto the calls of one kind: `f` maps an event to the
   * numbers of interest (a buffer size, a mark) or to nothing.
   */
  function Select(calls: seq<Event>, f: Event -> seq<nat>): seq<nat>
  {
    if calls == [] then [] else f(calls[0]) + Select(calls[1..], f)
  }

  lemma {:induction false} SelectAppend(a: seq<Event>, b: seq<Event>, f: Event -> seq<nat>)
    ensures Select(a + b, f) == Select(a, f) + Select(b, f)
  {
    if a == [] {
      assert a + b == b;
    } else {
      assert (a + b)[1..] == a[1..] + b;
      SelectAppend(a[1..], b, f);
    }
  }

  /** What `f` maps the `i`-th event to, or nothing past the end of the trace. */
  function At(calls: seq<Event>, i: nat, f: Event -> seq<nat>): seq<nat>
  {
    if i < |calls| then f(calls[i]) else []
  }

  /** The projection of a trace of at most three calls, spelled out call by call. */
  lemma SelectShort(calls: seq<Event>, f: Event -> seq<nat>)
    requires |calls| <= 3
    ensures Select(calls, f) == At(calls, 0, f) + (At(calls, 1, f) + At(calls, 2, f))
  {
  }

  /** The projection of a trace made of a prefix, a middle part and a last call. */
  lemma SelectFramed(prefix: seq<Event>, middle: seq<Event>, last: Event, f: Event -> seq<nat>)
    requires |prefix| <= 3 && |middle| <= 3
    ensures Select(prefix + middle + [last], f) ==
      At(prefix, 0, f) + (At(prefix, 1, f) + At(prefix, 2, f))
      + (At(middle, 0, f) + (At(middle, 1, f) + At(middle, 2, f)))
      + f(last)
  {
    SelectAppend(prefix + middle, [last], f);
    SelectAppend(prefix, middle, f);
    SelectShort(prefix, f);
    SelectShort(middle, f);
    SelectShort([last], f);
  }

  /** A mark for every scratch buffer a successful malloc hands out. */
  function Acquired(e: Event): seq<nat>
  {
    if e.Malloc? && e.ok then [0] else []
  }

  /** A mark for every buffer given back with free. */
  function Released(e: Event): seq<nat>
  {
    if e.Free? then [0] else []
  }

  /** A mark for every call into an engine adapter. */
  function EngineCall(e: Event): seq<nat>
  {
    if e.DatabaseCreate? || e.DatabaseOpen? || e.DatabaseClose? || e.DatabaseDelete?
       || e.IndexGet? || e.TransactionBegin? || e.TransactionCommit? || e.TransactionRollback?
       || e.DatastorePut? || e.DatastoreDelete? || e.IndexDelete?
    then [0] else []
  }

  /** A mark for every call of a key getter or secondary-key getter. */
  function KeyExtraction(e: Event): seq<nat>
  {
    if e.KeyGetter? || e.SecondaryKeyGetter? then [0] else []
  }
}
