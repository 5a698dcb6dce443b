/**
 * The process-wide engine registry: a growable array of (name, engine) pairs
 * with a count of used entries and a count of allocated slots.  Registration
 * appends, lookup returns the first entry whose name matches.
 */
module Engines {
  import opened Vcdb

  /** Slots allocated on first registration, and added on every grow. */
  const REGISTRY_INCREMENT: nat := 5

  /** One registry slot: a heap copy of the name (`None` = NULL) and the engine. */
  datatype Entry = Entry(name: Option<string>, engine: Ptr)

  /** Stand-in for a slot whose memory malloc or realloc left unwritten. */
  const Unwritten: Entry := Entry(None, Null)

  /**
   * The position of the first entry registered under `name`, if any: the
   * entry the registry's linear scan stops at.
   */
  function FirstMatch(entries: seq<Entry>, name: string): (r: Option<nat>)
    ensures r.Some? ==> r.value < |entries| && entries[r.value].name == Some(name)
    ensures r.Some? ==> forall j :: 0 <= j < r.value ==> entries[j].name != Some(name)
    ensures r.None? ==> forall j :: 0 <= j < |entries| ==> entries[j].name != Some(name)
  {
    if entries == [] then None
    else if entries[0].name == Some(name) then Some(0)
    else match FirstMatch(entries[1..], name)
      case None => None
      case Some(k) => Some(k + 1)
  }

  /**
   * Registering appends, so an earlier entry under the same name keeps
   * shadowing a later one; a new name is found at the position it was
   * appended at.
   */
  lemma {:induction false} FirstMatchAppend(entries: seq<Entry>, e: Entry, name: string)
    ensures FirstMatch(entries + [e], name) ==
      if FirstMatch(entries, name).Some? then FirstMatch(entries, name)
      else if e.name == Some(name) then Some(|entries|)
      else None
  {
    if entries != [] {
      assert (entries + [e])[1..] == entries[1..] + [e];
      FirstMatchAppend(entries[1..], e, name);
    }
  }

  class Registry {
    /** The allocated slots of the registry array. */
    var table: seq<Entry>
    /** Whether the registry array pointer is non-NULL. */
    var hasArray: bool
    /** `vcdb_database_engine_registry_size`: slots in use. */
    var size: nat
    /** `vcdb_database_engine_registry_size_max`: slots allocated. */
    var sizeMax: nat

    /** The registry as defined at load time: NULL, with both counters 0. */
    constructor ()
      ensures Valid() && Entries() == []
      ensures !hasArray && size == 0 && sizeMax == 0
    {
      table := [];
      hasArray := false;
      size := 0;
      sizeMax := 0;
    }

    ghost predicate Valid()
      reads this
    {
      && size <= sizeMax
      && |table| == sizeMax
      && (hasArray <==> sizeMax > 0)
      && forall i :: 0 <= i < size ==> table[i].name.Some?
    }

    /** The registered entries, oldest first. */
    function Entries(): seq<Entry>
      reads this
      requires Valid()
    {
      table[..size]
    }

    /** The engine registered under `name`, or `Null` when there is none. */
    function Resolve(name: string): Ptr
      reads this
      requires Valid()
    {
      match FirstMatch(Entries(), name)
      case Some(i) => Entries()[i].engine
      case None => Null
    }

    /** `vcdb_database_engine_lookup`: scan the used slots for `name`. */
    method Lookup(name: string) returns (eng: Ptr)
      requires Valid()
      ensures eng == Resolve(name)
    {
      for i := 0 to size
        invariant forall j :: 0 <= j < i ==> table[j].name != Some(name)
      {
        if table[i].name == Some(name) {
          assert Entries()[i].name == Some(name);
          return table[i].engine;
        }
      }
      assert forall j :: 0 <= j < |Entries()| ==> Entries()[j].name != Some(name);
      return Null;
    }

    /**
     * `vcdb_database_engine_register`.  The outcomes of the first-use
     * malloc, the grow-by-5 realloc and the strdup of the name are
     * parameters; there is no status, so a failure silently drops the
     * registration.
     */
    method Register(eng: Ptr, name: string, mallocOk: bool, reallocOk: bool, strdupOk: bool)
      requires Valid()
      modifies this
      ensures Valid()
      // first use: the array is allocated with 5 slots, or everything is reset
      ensures old(sizeMax) == 0 && !mallocOk ==>
        !hasArray && size == 0 && sizeMax == 0 && table == old(table)
      // full: grow by exactly 5, or leave the registry as it was
      ensures old(sizeMax) > 0 && old(size) == old(sizeMax) && !reallocOk ==>
        hasArray == old(hasArray) && size == old(size) && sizeMax == old(sizeMax) && table == old(table)
      // otherwise the entry is written at the old size; a failed strdup leaves it out
      ensures (old(sizeMax) > 0 || mallocOk) && (old(sizeMax) == 0 || old(size) < old(sizeMax) || reallocOk) ==>
        var before := if old(sizeMax) == 0 then REGISTRY_INCREMENT else old(sizeMax);
        var grown := before + (if old(size) == before then REGISTRY_INCREMENT else 0);
        && hasArray
        && sizeMax == grown
        && table[old(size)] == Entry(if strdupOk then Some(name) else None, eng)
        && Entries() == old(Entries()) + (if strdupOk then [Entry(Some(name), eng)] else [])
        && FirstMatch(Entries(), name) ==
             if old(FirstMatch(Entries(), name)).Some? || !strdupOk then old(FirstMatch(Entries(), name))
             else Some(old(size))
    {
      ghost var oldEntries := Entries();
      if sizeMax == 0 {
        sizeMax := REGISTRY_INCREMENT;
        size := 0;
        if mallocOk {
          table := seq(REGISTRY_INCREMENT, _ => Unwritten);
          hasArray := true;
        }
      }

      if !hasArray {
        sizeMax := 0;
        size := 0;
        return;
      }

      if size == sizeMax {
        if !reallocOk {
          return;
        }
        table := table + seq(REGISTRY_INCREMENT, _ => Unwritten);
        sizeMax := sizeMax + REGISTRY_INCREMENT;
      }

      var offset := size;
      size := size + 1;
      table := table[offset := Entry(if strdupOk then Some(name) else None, eng)];

      if !strdupOk {
        size := size - 1;
        assert Entries() == oldEntries;
      } else {
        assert Entries() == oldEntries + [Entry(Some(name), eng)];
        FirstMatchAppend(oldEntries, Entry(Some(name), eng), name);
      }
    }
  }
}
