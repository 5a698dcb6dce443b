/**
 * A datastore descriptor: the name, the fixed value size and the three
 * callbacks that extract a primary key, read a value from serial data and
 * write a value as serial data.  The caller owns the record until it hands it
 * to a builder.
 */
module Datastores {
  import opened Vcdb

  class Datastore {
    /** Whether `hdr.dispose` points at the datastore disposer. */
    var disposable: bool
    /** Position of the datastore in its builder's instance array. */
    var correlationId: int
    var name: Option<string>
    /** `data_size`: the size of one value. */
    var dataSize: nat
    var keyGetter: Ptr
    var valueReader: Ptr
    var valueWriter: Ptr
    var serialDataSize: nat

    /** Every field zero, as memset leaves the record. */
    predicate Zeroed()
      reads this
    {
      && !disposable && correlationId == 0 && name == None && dataSize == 0
      && keyGetter == Null && valueReader == Null && valueWriter == Null
      && serialDataSize == 0
    }

    /** Storage for a datastore record, before `Init`. */
    constructor ()
      ensures Zeroed()
    {
      disposable := false;
      correlationId := 0;
      name := None;
      dataSize := 0;
      keyGetter := Null;
      valueReader := Null;
      valueWriter := Null;
      serialDataSize := 0;
    }

    /** `vcdb_datastore_dispose`: zero the record. */
    method Dispose()
      modifies this
      ensures Zeroed()
    {
      disposable := false;
      correlationId := 0;
      name := None;
      dataSize := 0;
      keyGetter := Null;
      valueReader := Null;
      valueWriter := Null;
      serialDataSize := 0;
    }
  }

  /**
   * `vcdb_datastore_init`.  Every pointer must be non-null and the size
   * non-zero; otherwise nothing is written.  On success the record holds
   * exactly the arguments, with correlation id and serial data size 0.
   */
  method Init(ds: Datastore?, name: Option<string>, size: nat,
              keyGetter: Ptr, valueReader: Ptr, valueWriter: Ptr)
    returns (status: int)
    modifies ds
    ensures status == SUCCESS || status == INVALID_PARAMETER
    ensures status == SUCCESS <==>
      ds != null && name.Some? && size != 0
      && keyGetter != Null && valueReader != Null && valueWriter != Null
    ensures status != SUCCESS && ds != null ==> unchanged(ds)
    ensures status == SUCCESS ==>
      && ds.disposable && ds.correlationId == 0 && ds.serialDataSize == 0
      && ds.name == name && ds.dataSize == size
      && ds.keyGetter == keyGetter && ds.valueReader == valueReader && ds.valueWriter == valueWriter
  {
    if ds == null || name == None || size == 0
       || keyGetter == Null || valueReader == Null || valueWriter == Null
    {
      return INVALID_PARAMETER;
    }

    ds.Dispose();  // zero-fill the record, as the disposer does
    ds.disposable := true;
    ds.name := name;
    ds.dataSize := size;
    ds.keyGetter := keyGetter;
    ds.valueReader := valueReader;
    ds.valueWriter := valueWriter;
    return SUCCESS;
  }
}
