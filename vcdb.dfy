/**
 * Status codes, constants and the small value types shared by every part of
 * the database-abstraction layer.
 */
module Vcdb {

  /** Operation completed. */
  const SUCCESS: int := 0x0000
  /** A parameter was null, zero or otherwise unusable. */
  const INVALID_PARAMETER: int := 0x4001
  /** No engine is registered under the requested name. */
  const MISSING_DATABASE_ENGINE: int := 0x4002
  /** malloc, realloc or strdup failed. */
  const BAD_MEMORY_ALLOCATION: int := 0x4003
  /** The caller's (or the scratch) buffer is smaller than the data. */
  const WOULD_TRUNCATE: int := 0x4004
  /** A mutation was attempted outside an active transaction. */
  const BAD_TRANSACTION: int := 0x4005
  /** The key is not present. */
  const VALUE_NOT_FOUND: int := 0x4006

  /** Largest key a key getter may write (`VCDB_MAX_KEY_SIZE`). */
  const MAX_KEY_SIZE: nat := 1024

  /** Size of the scratch buffer index_get and datastore_put allocate first. */
  const SCRATCH_BUFFER_SIZE: nat := 1024

  datatype Option<T> = None | Some(value: T)

  /**
   * An opaque C pointer the layer never dereferences itself: a caller's key
   * or value buffer, a callback, or an engine's operation table.  `Null` is
   * the null pointer; two `Addr`s are the same pointer exactly when equal.
   */
  datatype Ptr = Null | Addr(address: nat)
}
