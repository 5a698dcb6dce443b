/**
 * The builder: the resolved engine, an owned copy of the connection string,
 * a growable array of tagged datastore/index entries and the flag saying
 * whether a database built from it is open.
 */
module Builders {
  import opened Vcdb
  import Engines
  import Datastores
  import Indexes

  /** `DEFAULT_INSTANCE_SIZE`: initial capacity and growth step of the array. */
  const DEFAULT_INSTANCE_SIZE: nat := 20

  /**
   * The two tags of an instance entry: the positions of the DATASTORE and
   * INDEX members of the header's instance-type enum.
   */
  const INSTANCE_TYPE_DATASTORE: int := 0
  const INSTANCE_TYPE_INDEX: int := 1

  /** One instance entry: the datastore or index, its tag and the engine's handle. */
  datatype Slot = Slot(instance: object?, instanceType: int, handle: Ptr)

  /** An all-zero entry, as memset leaves it. */
  const ZeroSlot: Slot := Slot(null, 0, Null)

  /**
   * The capacity after one append to an array of `size` entries and capacity
   * `max`: one growth step when the array is full.
   */
  function GrownCapacity(size: nat, max: nat): (r: nat)
    ensures size <= max ==> size < r
    ensures size < max ==> r == max
    ensures r == max || r == max + DEFAULT_INSTANCE_SIZE
    ensures max % DEFAULT_INSTANCE_SIZE == 0 ==> r % DEFAULT_INSTANCE_SIZE == 0
  {
    if size == max then max + DEFAULT_INSTANCE_SIZE else max
  }

  /** The capacity of a freshly initialised builder after `n` successful appends. */
  function CapacityAfter(n: nat): nat
  {
    if n == 0 then DEFAULT_INSTANCE_SIZE else GrownCapacity(n - 1, CapacityAfter(n - 1))
  }

  /**
   * After `n` appends the capacity is the smallest multiple of 20 that holds
   * `n` entries (and at least one): never less than `n`, never 20 or more
   * above it.
   */
  lemma {:induction false} CapacityAfterAppends(n: nat)
    ensures n <= CapacityAfter(n) < (if n == 0 then 1 else n) + DEFAULT_INSTANCE_SIZE
    ensures CapacityAfter(n) % DEFAULT_INSTANCE_SIZE == 0 && DEFAULT_INSTANCE_SIZE <= CapacityAfter(n)
  {
    if n > 0 {
      CapacityAfterAppends(n - 1);
    }
  }

  /** Whether `o` is a datastore or index record that has been zeroed. */
  predicate Disposed(o: object?)
    reads o
  {
    && (o is Datastores.Datastore ==> (o as Datastores.Datastore).Zeroed())
    && (o is Indexes.Index ==> (o as Indexes.Index).Zeroed())
  }

  class Builder {
    /** Whether `hdr.dispose` points at the builder disposer. */
    var disposable: bool
    var engine: Ptr
    /** The owned copy of the connection string; `None` once freed or never made. */
    var connectionString: Option<string>
    /** The instance array; empty when the pointer is NULL. */
    var instanceArray: seq<Slot>
    var instanceArraySize: nat
    var instanceArrayMax: nat
    var databaseOpened: bool

    /** Every field zero, as memset leaves the record. */
    predicate Zeroed()
      reads this
    {
      && !disposable && engine == Null && connectionString == None
      && instanceArray == [] && instanceArraySize == 0 && instanceArrayMax == 0
      && !databaseOpened
    }

    /** Storage for a builder record, before `Init`. */
    constructor ()
      ensures Zeroed()
    {
      disposable := false;
      engine := Null;
      connectionString := None;
      instanceArray := [];
      instanceArraySize := 0;
      instanceArrayMax := 0;
      databaseOpened := false;
    }

    /**
     * The invariant of an initialised builder: the array has `max` slots,
     * `size <= max`, `max` is 20 plus a multiple of 20, and every used slot
     * holds a non-null instance with a valid tag.
     */
    ghost predicate Valid()
      reads this
    {
      && connectionString.Some?
      && |instanceArray| == instanceArrayMax
      && instanceArraySize <= instanceArrayMax
      && DEFAULT_INSTANCE_SIZE <= instanceArrayMax
      && instanceArrayMax % DEFAULT_INSTANCE_SIZE == 0
      && forall i :: 0 <= i < instanceArraySize ==>
           instanceArray[i].instance != null
           && (instanceArray[i].instanceType == INSTANCE_TYPE_DATASTORE
               || instanceArray[i].instanceType == INSTANCE_TYPE_INDEX)
    }

    /** The used entries, in insertion order. */
    function Instances(): seq<Slot>
      reads this
      requires instanceArraySize <= |instanceArray|
    {
      instanceArray[..instanceArraySize]
    }

    /** The records the builder owns and disposes. */
    function Owned(): set<object?>
      reads this
      requires instanceArraySize <= |instanceArray|
    {
      set i | 0 <= i < instanceArraySize :: instanceArray[i].instance
    }

    /**
     * `vcdb_builder_dispose`: a builder whose database is closed disposes
     * every entry it owns, then is zeroed.
     */
    method Dispose()
      requires Valid() && !databaseOpened
      modifies this, Owned()
      ensures forall i :: 0 <= i < old(instanceArraySize) ==> Disposed(old(instanceArray[i].instance))
      ensures forall o :: o in old(Owned()) ==> Disposed(o)
      ensures Zeroed()
    {
      for i := 0 to instanceArraySize
        invariant instanceArraySize <= |instanceArray|
        invariant instanceArray == old(instanceArray) && instanceArraySize == old(instanceArraySize)
        invariant forall j :: 0 <= j < i ==> Disposed(instanceArray[j].instance)
      {
        var o: object? := instanceArray[i].instance;
        if o is Datastores.Datastore {
          (o as Datastores.Datastore).Dispose();
        } else if o is Indexes.Index {
          (o as Indexes.Index).Dispose();
        }
      }

      connectionString := None;
      instanceArray := [];
      disposable := false;
      engine := Null;
      instanceArraySize := 0;
      instanceArrayMax := 0;
      databaseOpened := false;
    }
  }

  /** Every field of `b` other than `databaseOpened` keeps its value. */
  twostate predicate OnlyOpenFlagChanged(b: Builder)
    reads b
  {
    && b.disposable == old(b.disposable) && b.engine == old(b.engine)
    && b.connectionString == old(b.connectionString) && b.instanceArray == old(b.instanceArray)
    && b.instanceArraySize == old(b.instanceArraySize) && b.instanceArrayMax == old(b.instanceArrayMax)
  }

  /**
   * `vcdb_builder_init`.  The outcomes of the strdup of the connection
   * string and of the malloc of the instance array are parameters.
   */
  method Init(b: Builder?, registry: Engines.Registry, engine: Option<string>, connect: Option<string>,
              strdupOk: bool, mallocOk: bool)
    returns (status: int)
    requires registry.Valid()
    modifies b
    ensures b == null || engine.None? || connect.None? ==>
      status == INVALID_PARAMETER && (b != null ==> unchanged(b))
    ensures b != null && engine.Some? && connect.Some? && registry.Resolve(engine.value) == Null ==>
      status == MISSING_DATABASE_ENGINE && unchanged(b)
    ensures b != null && engine.Some? && connect.Some? && registry.Resolve(engine.value) != Null ==>
      && b.disposable && b.engine == registry.Resolve(engine.value)
      && b.instanceArrayMax == DEFAULT_INSTANCE_SIZE && b.instanceArraySize == 0 && !b.databaseOpened
      && (if !strdupOk then
            status == BAD_MEMORY_ALLOCATION && b.connectionString == None
            && b.instanceArray == old(b.instanceArray)
          else if !mallocOk then
            status == BAD_MEMORY_ALLOCATION && b.connectionString == None && b.instanceArray == []
          else
            && status == SUCCESS && b.connectionString == connect
            && b.instanceArray == seq(DEFAULT_INSTANCE_SIZE, _ => ZeroSlot)
            && b.Valid() && b.Instances() == [])
  {
    if b == null || engine == None || connect == None {
      return INVALID_PARAMETER;
    }

    var eng := registry.Lookup(engine.value);
    if eng == Null {
      return MISSING_DATABASE_ENGINE;
    }

    b.disposable := true;
    b.engine := eng;
    b.instanceArrayMax := DEFAULT_INSTANCE_SIZE;
    b.instanceArraySize := 0;
    b.databaseOpened := false;

    if !strdupOk {
      b.connectionString := None;
      return BAD_MEMORY_ALLOCATION;
    }
    b.connectionString := connect;

    if !mallocOk {
      b.instanceArray := [];
      b.connectionString := None;  // free(connection_string)
      return BAD_MEMORY_ALLOCATION;
    }
    b.instanceArray := seq(DEFAULT_INSTANCE_SIZE, _ => ZeroSlot);
    return SUCCESS;
  }

  /**
   * The effect of a successful or failed append of `instance` with tag
   * `instanceType` to a valid builder, given the outcome of the realloc.
   */
  twostate predicate Appended(b: Builder, instance: object, instanceType: int, reallocOk: bool, status: int)
    requires old(b.Valid())
    reads b
  {
    var full := old(b.instanceArraySize) == old(b.instanceArrayMax);
    if full && !reallocOk then
      status == BAD_MEMORY_ALLOCATION && unchanged(b)
    else
      && status == SUCCESS
      && b.Valid()
      && b.instanceArrayMax == GrownCapacity(old(b.instanceArraySize), old(b.instanceArrayMax))
      && b.instanceArraySize == old(b.instanceArraySize) + 1
      && b.Instances() == old(b.Instances()) + [Slot(instance, instanceType, Null)]
      && b.engine == old(b.engine) && b.connectionString == old(b.connectionString)
      && b.databaseOpened == old(b.databaseOpened) && b.disposable == old(b.disposable)
  }

  /**
   * `vcdb_builder_add_generic`: append a tagged entry, growing the array by
   * 20 slots when it is full.
   */
  method AddGeneric(b: Builder?, instance: object?, instanceType: int, reallocOk: bool)
    returns (status: int)
    requires b != null ==> b.Valid()
    modifies b
    ensures (|| b == null || instance == null
             || (instanceType != INSTANCE_TYPE_DATASTORE && instanceType != INSTANCE_TYPE_INDEX)) ==>
      status == INVALID_PARAMETER && (b != null ==> unchanged(b))
    ensures (&& b != null && instance != null
             && (instanceType == INSTANCE_TYPE_DATASTORE || instanceType == INSTANCE_TYPE_INDEX)) ==>
      Appended(b, instance, instanceType, reallocOk, status)
  {
    if b == null || instance == null
       || (instanceType != INSTANCE_TYPE_DATASTORE && instanceType != INSTANCE_TYPE_INDEX)
    {
      return INVALID_PARAMETER;
    }

    if b.instanceArraySize == b.instanceArrayMax {
      if !reallocOk {
        return BAD_MEMORY_ALLOCATION;
      }
      // the slots realloc adds are unwritten memory; ZeroSlot stands in for them
      b.instanceArray := b.instanceArray + seq(DEFAULT_INSTANCE_SIZE, _ => ZeroSlot);
      b.instanceArrayMax := b.instanceArrayMax + DEFAULT_INSTANCE_SIZE;
    }

    b.instanceArray := b.instanceArray[b.instanceArraySize := Slot(instance, instanceType, Null)];
    b.instanceArraySize := b.instanceArraySize + 1;
    return SUCCESS;
  }

  /**
   * `vcdb_builder_add_datastore`: the datastore's correlation id becomes the
   * builder's current size (datastores and indexes counted together), then
   * it is appended with the DATASTORE tag.  The id is written even when the
   * append fails.
   */
  method AddDatastore(b: Builder?, ds: Datastores.Datastore?, reallocOk: bool)
    returns (status: int)
    requires b != null ==> b.Valid()
    modifies b, ds
    ensures b == null || ds == null ==>
      status == INVALID_PARAMETER && (b != null ==> unchanged(b)) && (ds != null ==> unchanged(ds))
    ensures b != null && ds != null ==>
      && ds.correlationId == old(b.instanceArraySize)
      && Appended(b, ds, INSTANCE_TYPE_DATASTORE, reallocOk, status)
      && (status == SUCCESS ==> b.Instances()[ds.correlationId].instance == ds)
    ensures ds != null ==>
      && ds.disposable == old(ds.disposable) && ds.name == old(ds.name) && ds.dataSize == old(ds.dataSize)
      && ds.keyGetter == old(ds.keyGetter) && ds.valueReader == old(ds.valueReader)
      && ds.valueWriter == old(ds.valueWriter) && ds.serialDataSize == old(ds.serialDataSize)
  {
    if b == null || ds == null {
      return INVALID_PARAMETER;
    }

    ds.correlationId := b.instanceArraySize;
    status := AddGeneric(b, ds, INSTANCE_TYPE_DATASTORE, reallocOk);
  }

  /**
   * `vcdb_builder_add_index`: append the index with the INDEX tag.  Its
   * correlation id is not assigned.
   */
  method AddIndex(b: Builder?, ix: Indexes.Index?, reallocOk: bool)
    returns (status: int)
    requires b != null ==> b.Valid()
    modifies b
    ensures b == null || ix == null ==> status == INVALID_PARAMETER && (b != null ==> unchanged(b))
    ensures b != null && ix != null ==> Appended(b, ix, INSTANCE_TYPE_INDEX, reallocOk, status)
    ensures ix != null ==> unchanged(ix)
  {
    status := AddGeneric(b, ix, INSTANCE_TYPE_INDEX, reallocOk);
  }
}
