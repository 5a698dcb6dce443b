/**
 * A secondary-index descriptor: a non-owning reference to the datastore it
 * indexes, a name and the callback that extracts the secondary key.
 */
module Indexes {
  import opened Vcdb
  import Datastores

  class Index {
    /** Whether `hdr.dispose` points at the index disposer. */
    var disposable: bool
    /** The indexed datastore; the index does not own it. */
    var datastore: Datastores.Datastore?
    var correlationId: int
    var name: Option<string>
    var secondaryKeyGetter: Ptr

    /** Every field zero, as memset leaves the record. */
    predicate Zeroed()
      reads this
    {
      !disposable && datastore == null && correlationId == 0 && name == None
      && secondaryKeyGetter == Null
    }

    /** Storage for an index record, before `Init`. */
    constructor ()
      ensures Zeroed()
    {
      disposable := false;
      datastore := null;
      correlationId := 0;
      name := None;
      secondaryKeyGetter := Null;
    }

    /** `vcdb_index_dispose`: zero the record. */
    method Dispose()
      modifies this
      ensures Zeroed()
    {
      disposable := false;
      datastore := null;
      correlationId := 0;
      name := None;
      secondaryKeyGetter := Null;
    }
  }

  /**
   * `vcdb_index_init`.  All four arguments must be non-null; otherwise
   * nothing is written.  The referenced datastore is never written.
   */
  method Init(ix: Index?, ds: Datastores.Datastore?, name: Option<string>, secondaryKeyGetter: Ptr)
    returns (status: int)
    modifies ix
    ensures status == SUCCESS || status == INVALID_PARAMETER
    ensures status == SUCCESS <==> ix != null && ds != null && name.Some? && secondaryKeyGetter != Null
    ensures status != SUCCESS && ix != null ==> unchanged(ix)
    ensures status == SUCCESS ==>
      && ix.disposable && ix.correlationId == 0
      && ix.datastore == ds && ix.name == name && ix.secondaryKeyGetter == secondaryKeyGetter
    ensures ds != null ==> unchanged(ds)
  {
    if ix == null || ds == null || name == None || secondaryKeyGetter == Null {
      return INVALID_PARAMETER;
    }

    ix.Dispose();  // zero-fill the record, as the disposer does
    ix.disposable := true;
    ix.datastore := ds;
    ix.name := name;
    ix.secondaryKeyGetter := secondaryKeyGetter;
    return SUCCESS;
  }
}
